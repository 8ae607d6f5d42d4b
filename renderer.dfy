/** The renderer of scripts/generate-readme.py: `generate_readme` turns the
    leaderboard document into Markdown, with at most ten rows per category,
    medal markers for stored ranks 1 to 3 and a statistics block.

    Timestamp parsing (`datetime.fromisoformat` then `strftime`) is an input
    function `reformat`: None stands for the exception the bare `except`
    catches. The clock reading used when the document has no timestamp is the
    input `now`. */
module Renderer {

  import opened Records
  import opened Numerals
  import Ranking

  const Gold: string := "\U{1F947}"
  const Silver: string := "\U{1F948}"
  const Bronze: string := "\U{1F949}"

  predicate IsMedal(c: string) {
    c == Gold || c == Silver || c == Bronze
  }

  /** The rank cell: a medal for stored rank 1, 2 or 3, `str(rank)` otherwise. */
  function RankCell(rank: int): (c: string)
    ensures c == Gold <==> rank == 1
    ensures c == Silver <==> rank == 2
    ensures c == Bronze <==> rank == 3
    ensures '\n' !in c
  {
    if rank == 1 then Gold
    else if rank == 2 then Silver
    else if rank == 3 then Bronze
    else
      IntToStringShape(rank);
      IntToString(rank)
  }

  /** Any other rank is shown as a numeral that reads back as that rank. */
  lemma RankCellReadBack(rank: int)
    requires !(1 <= rank <= 3)
    ensures !IsMedal(RankCell(rank))
    ensures StringToInt(RankCell(rank)) == Some(rank)
  {
    IntRoundTrip(rank);
  }

  /** Two records show the same rank cell only if their stored ranks agree. */
  lemma RankCellInjective(a: int, b: int)
    requires RankCell(a) == RankCell(b)
    ensures a == b
  {
    if !(1 <= a <= 3) && !(1 <= b <= 3) {
      IntToStringInjective(a, b);
    }
  }

  /** Which column a table's rows are drawn for: LLM rows use the `model` key,
      a `%` after the score and `parameters`; IDE and agent rows use `name`,
      a bare score and `version`. */
  datatype Table = LlmTable | ToolTable

  /** The score cell: `{score}%` in the LLM table, `{score}` elsewhere. */
  function ScoreCell(t: Table, score: int): (c: string)
    ensures |c| > 0 && (c[|c| - 1] == '%' <==> t == LlmTable)
    ensures '\n' !in c
  {
    var numeral := IntToString(score);
    IntToStringShape(score);
    if t == LlmTable then numeral + "%" else numeral
  }

  /** Without its `%`, the score cell reads back as the score. */
  lemma ScoreCellReadBack(t: Table, score: int)
    ensures var c := ScoreCell(t, score);
      StringToInt(if t == LlmTable then c[..|c| - 1] else c) == Some(score)
  {
    IntRoundTrip(score);
    var numeral := IntToString(score);
    assert (numeral + "%")[..|numeral|] == numeral;
  }

  /** `entry.get(key, default)` as text: the default only for a missing key,
      "None" for JSON null. */
  function FieldCell(f: Field, default: string): (c: string)
    ensures c == default <==> f.Absent? || f == Value(default) || (f.Null? && default == "None")
    ensures f.Null? ==> c == "None"
  {
    match f
    case Absent => default
    case Null => "None"
    case Value(s) => s
  }

  /** The record's own text holds no line break, so its row is one line. */
  predicate OneLine(e: Entry) {
    && '\n' !in e.name
    && '\n' !in e.organization
    && (e.kind.Value? ==> '\n' !in e.kind.text)
    && (e.detail.Value? ==> '\n' !in e.detail.text)
  }

  /** The text of one table row, laid out as the f-string lays it out. */
  function RowText(t: Table, e: Entry): string
    requires e.score.Some?
  {
    "| " + RankCell(e.rank) + " | **" + e.name + "** | " + ScoreCell(t, e.score.value)
    + " | " + e.organization + " | " + FieldCell(e.kind, "")
    + " | " + FieldCell(e.detail, "Unknown") + " |"
  }

  function Row(t: Table, e: Entry): string
    requires e.score.Some?
  {
    RowText(t, e) + "\n"
  }

  lemma RowTextOneLine(t: Table, e: Entry)
    requires e.score.Some? && OneLine(e)
    ensures '\n' !in RowText(t, e)
  {
    var kind, detail := FieldCell(e.kind, ""), FieldCell(e.detail, "Unknown");
    assert '\n' !in kind && '\n' !in detail;
    var a := "| " + RankCell(e.rank) + " | **" + e.name;
    assert '\n' !in a;
    var b := a + "** | " + ScoreCell(t, e.score.value) + " | " + e.organization;
    assert '\n' !in b;
    var c := b + " | " + kind + " | " + detail + " |";
    assert '\n' !in c;
  }

  /** Text without a line break, followed by one, is exactly one line. */
  lemma EndLine(body: string)
    requires '\n' !in body
    ensures multiset(body + "\n")['\n'] == 1
    ensures (body + "\n")[|body|] == '\n'
  {
    assert multiset(body + "\n") == multiset(body) + multiset{'\n'};
  }

  /** A row ends the line it starts and contains no other line break. */
  lemma RowIsOneLine(t: Table, e: Entry)
    requires e.score.Some? && OneLine(e)
    ensures multiset(Row(t, e))['\n'] == 1
    ensures Row(t, e)[|Row(t, e)| - 1] == '\n'
  {
    RowTextOneLine(t, e);
    EndLine(RowText(t, e));
  }

  /** Every record the table shows has a score (`entry['score']` raises otherwise). */
  predicate Scored(s: seq<Entry>) {
    forall i :: 0 <= i < |s| && i < 10 ==> s[i].score.Some?
  }

  predicate AllScored(s: seq<Entry>) {
    forall i :: 0 <= i < |s| ==> s[i].score.Some?
  }

  /** `xs[:10]`: the first ten records, or all of them when there are fewer. */
  function Top(s: seq<Entry>): (r: seq<Entry>)
    ensures |r| == if |s| < 10 then |s| else 10
    ensures r <= s
    ensures Scored(s) ==> AllScored(r)
  {
    if |s| < 10 then s else s[..10]
  }

  /** `content` followed by one row per record of s, in list order. */
  function Emit(content: string, t: Table, s: seq<Entry>): string
    requires AllScored(s)
  {
    if s == [] then content else Emit(content, t, s[..|s| - 1]) + Row(t, s[|s| - 1])
  }

  /** One step of the row loop: the first i+1 rows are the first i plus row i. */
  lemma EmitStep(content: string, t: Table, s: seq<Entry>, i: int)
    requires AllScored(s) && 0 <= i < |s|
    ensures Emit(content, t, s[..i + 1]) == Emit(content, t, s[..i]) + Row(t, s[i])
  {
    assert s[..i + 1][..i] == s[..i] && s[..i + 1][i] == s[i];
  }

  /** Each emitted record adds exactly one line. */
  lemma {:induction false} EmitLineCount(content: string, t: Table, s: seq<Entry>)
    requires forall i :: 0 <= i < |s| ==> s[i].score.Some? && OneLine(s[i])
    ensures multiset(Emit(content, t, s))['\n'] == multiset(content)['\n'] + |s|
  {
    if s != [] {
      EmitLineCount(content, t, s[..|s| - 1]);
      RowIsOneLine(t, s[|s| - 1]);
    }
  }

  /** A category's table adds exactly min(10, len) rows to the text. */
  lemma TableLineCount(content: string, t: Table, s: seq<Entry>)
    requires Scored(s)
    requires forall i :: 0 <= i < |s| && i < 10 ==> OneLine(s[i])
    ensures multiset(Emit(content, t, Top(s)))['\n'] == multiset(content)['\n'] + (if |s| < 10 then |s| else 10)
  {
    EmitLineCount(content, t, Top(s));
  }

  /** In a densely ranked list (as the collector writes it), the first three
      rows carry the medals and every later row shows its position as a
      numeral. */
  lemma MedalsForTopThree(s: seq<Entry>, i: int)
    requires Ranking.DenselyRanked(s) && 0 <= i < |s|
    ensures IsMedal(RankCell(s[i].rank)) <==> i < 3
    ensures i >= 3 ==> StringToInt(RankCell(s[i].rank)) == Some(i + 1)
  {
    if i >= 3 {
      RankCellReadBack(s[i].rank);
    }
  }

  /** `last_updated` as printed: the reformatted timestamp, or the stored text
      unchanged when it does not parse, or "None" when the stored value is
      null (its `.replace` raises and the bare `except` keeps it). A missing
      timestamp is replaced by `now` first. */
  function FormattedDate(stored: Field, now: string, reformat: string -> Option<string>): (d: string)
    ensures stored.Value? && reformat(stored.text).None? ==> d == stored.text
    ensures stored.Value? && reformat(stored.text).Some? ==> d == reformat(stored.text).value
    ensures stored.Absent? && reformat(now).Some? ==> d == reformat(now).value
    ensures stored.Absent? && reformat(now).None? ==> d == now
    ensures stored.Null? ==> d == "None"
  {
    match stored
    case Null => "None"
    case Absent => (match reformat(now) case Some(x) => x case None => now)
    case Value(s) => (match reformat(s) case Some(x) => x case None => s)
  }

  predicate AllEmpty(d: Document) {
    d.llms == [] && d.ides == [] && d.agents == []
  }

  /** What rendering needs of a document it does not decline: the statistics
      block reads the first record of every category unconditionally, and
      every printed row reads its record's score. */
  predicate Renderable(d: Document) {
    && d.llms != [] && d.ides != [] && d.agents != []
    && Scored(d.llms) && Scored(d.ides) && Scored(d.agents)
  }

  // The constant text of the report is written in short pieces: the verifier
  // expands every string literal character by character.

  function Header(date: string): string {
    "# \U{1F916} Tech Leaderboard Tracker\n\n*Last updated: " + date + "*\n\n"
    + "This repository " + "automatically tracks and "
    + "displays the latest " + "performance rankings for "
    + "LLMs, IDEs, and AI Agents. " + "The leaderboards are updated "
    + "every 12 hours using GitHub " + "Actions.\n\n"
    + "## \U{1F4CA} LLM Leaderboard\n\n"
    + "| Rank | Model | Score " + "| Organization | Type " + "| Parameters |\n"
    + "|------|-------|-------" + "|--------------|------" + "|------------|\n"
  }

  const IdeHeading: string :=
    "\n## \U{1F5A5}\U{FE0F} IDE Leaderboard\n\n"
    + "> **Note:** IDE data is " + "sourced from the latest "
    + "available Stack Overflow " + "Developer Survey and is "
    + "updated annually. It does " + "**not** reflect real-time "
    + "changes and only updates " + "when a new survey is "
    + "published.\n\n"
    + "| Rank | Name | Score " + "| Organization | Type " + "| Version |\n"
    + "|------|------|-------" + "|--------------|------" + "|---------|\n"

  const AgentHeading: string :=
    "\n## \U{1F916} AI Agent Leaderboard\n\n"
    + "| Rank | Name | Score " + "| Organization | Type " + "| Version |\n"
    + "|------|------|-------" + "|--------------|------" + "|---------|\n"

  function CountLines(llms: seq<Entry>, ides: seq<Entry>, agents: seq<Entry>): string {
    "\n## \U{1F4C8} Key Statistics\n\n"
    + "- **LLMs Tracked**: " + IntToString(|llms|) + "\n"
    + "- **IDEs Tracked**: " + IntToString(|ides|) + "\n"
    + "- **AI Agents Tracked**: " + IntToString(|agents|) + "\n"
  }

  /** The top-entry lines. The text `" if llms else ""` after each of them is
      literal output, not a guard: index 0 is read for every category. */
  function LeaderLines(llms: seq<Entry>, ides: seq<Entry>, agents: seq<Entry>): string
    requires llms != [] && ides != [] && agents != []
    requires llms[0].score.Some? && ides[0].score.Some? && agents[0].score.Some?
  {
    "- **Top LLM**: " + llms[0].name + " (" + IntToString(llms[0].score.value) + "%)\" if llms else \"\"\n"
    + "- **Top IDE**: " + ides[0].name + " (" + IntToString(ides[0].score.value) + ")\" if ides else \"\"\n"
    + "- **Top Agent**: " + agents[0].name + " (" + IntToString(agents[0].score.value) + ")\" if agents else \"\"\n"
  }

  /** The statistics block: the three counts first, then the top entries. */
  function Stats(llms: seq<Entry>, ides: seq<Entry>, agents: seq<Entry>): (r: string)
    requires llms != [] && ides != [] && agents != []
    requires llms[0].score.Some? && ides[0].score.Some? && agents[0].score.Some?
    ensures CountLines(llms, ides, agents) <= r
  {
    var counts := CountLines(llms, ides, agents);
    var leaders := LeaderLines(llms, ides, agents);
    assert counts <= counts + leaders;
    counts + leaders
  }

  /** The whole rendered text up to the end of the statistics block. */
  function Readme(d: Document, now: string, reformat: string -> Option<string>): string
    requires Renderable(d)
  {
    var llmPart := Emit(Header(FormattedDate(d.lastUpdated, now, reformat)), LlmTable, Top(d.llms));
    var idePart := Emit(llmPart + IdeHeading, ToolTable, Top(d.ides));
    var agentPart := Emit(idePart + AgentHeading, ToolTable, Top(d.agents));
    agentPart + Stats(d.llms, d.ides, d.agents)
  }

  /** Rows are only ever appended: what was written before stays in front. */
  lemma {:induction false} EmitExtends(content: string, t: Table, s: seq<Entry>)
    requires AllScored(s)
    ensures content <= Emit(content, t, s)
  {
    if s != [] {
      EmitExtends(content, t, s[..|s| - 1]);
    }
  }

  /** `for entry in xs[:10]: readme_content += row`. */
  method AppendRows(content: string, t: Table, s: seq<Entry>) returns (c: string)
    requires Scored(s)
    ensures c == Emit(content, t, Top(s))
  {
    var top := Top(s);
    c := content;
    for i := 0 to |top|
      invariant c == Emit(content, t, top[..i])
    {
      EmitStep(content, t, top, i);
      c := c + Row(t, top[i]);
    }
    assert top[..|top|] == top;
  }

  /** What `generate_readme` does with a document: returns None, returns the
      text, or raises (IndexError from the statistics block, KeyError from a
      row without a score). */
  datatype Rendering = Declined | Rendered(text: string) | Raised

  /** `generate_readme`: declines exactly when there is no document or all
      three categories are empty; raises exactly when some category is empty
      while another is not, or a printed record has no score; otherwise
      returns the rendered text. */
  method GenerateReadme(data: Option<Document>, now: string, reformat: string -> Option<string>)
    returns (readme: Rendering)
    ensures readme.Declined? <==> data.None? || AllEmpty(data.value)
    ensures readme.Raised? <==> data.Some? && !AllEmpty(data.value) && !Renderable(data.value)
    ensures readme.Rendered? ==> Renderable(data.value) && readme.text == Readme(data.value, now, reformat)
  {
    if data.None? || AllEmpty(data.value) {
      return Declined;
    }
    var d := data.value;
    if !Renderable(d) {
      return Raised;
    }
    var formattedDate := FormattedDate(d.lastUpdated, now, reformat);
    var content := Header(formattedDate);
    content := AppendRows(content, LlmTable, d.llms);
    content := content + IdeHeading;
    content := AppendRows(content, ToolTable, d.ides);
    content := content + AgentHeading;
    content := AppendRows(content, ToolTable, d.agents);
    content := content + Stats(d.llms, d.ides, d.agents);
    readme := Rendered(content);
  }
}
