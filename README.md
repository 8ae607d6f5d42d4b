# Tech Leaderboard Tracker: collector and README renderer

This project models the two scripts of the leaderboard tracker in Dafny and
proves properties of the model.

- **The collector** (`scripts/scrape-leaderboard.py`). Each source has its own failure policy:
  - Hugging Face LLMs: its table, or nothing when the page fails.
  - Chatbot Arena and additional benchmarks: always nothing.
  - Stack Overflow IDE survey: the survey table, or a fixed fallback.
  - GitHub agent projects: one request per tracked project, then the fixed fallback when no request succeeds.
- **Post-processing in `main`.** Every category is sorted by score, highest first, with Python's stable `list.sort`. It is then ranked 1..N in list order and written into one document with a timestamp and the source list.
- **The renderer** (`generate_readme` in `scripts/generate-readme.py`). It returns None for a missing or empty document. Otherwise it writes:
  - the header with the formatted date;
  - up to ten rows per category, with medals for stored ranks 1 to 3 and defaults for missing `type`, `parameters` and `version` keys;
  - a statistics block that reads the first record of every category.

Modules:

- `records.dfy` (`Records`): the entry and document records. An optional key is a `Field`, which is one of three cases:
  - `Absent`: the key is missing and `dict.get` applies its default;
  - `Null`: JSON null, printed as "None";
  - `Value`: a string.
- `numerals.dfy` (`Numerals`): `str(int)` with its inverse, so rendered ranks and scores can be read back.
- `ranking.dfy` (`Ranking`): the sort key (a missing score counts as 0), and the stable descending sort as the function `SortDesc`. It proves that any sorted, stable permutation equals `SortDesc`, so `SortDesc` is exactly what `list.sort(reverse=True)` returns. It also holds the rank loop and the sort-then-rank pass.
- `collector.dfy` (`Collector`): the per-source policies, the agent fetch loop and `main`. Every network call is an input:
  - a `Page` is either an exception or an HTTP status;
  - a `Fetch` is either an exception or a status plus the decoded repository fields.
- `renderer.dfy` (`Renderer`): the cells, rows, tables, statistics block and `generate_readme`. The method is proved against the function `Readme` and returns one of three outcomes: declined, rendered text, or raised.

These are inputs to the model:
- the clock reading (`now`);
- timestamp parsing and formatting (`reformat`, where None stands for the exception the bare `except` catches);
- the hardcoded tables a successful page request returns.

## Model

| member | source | states |
|---|---|---|
| Numerals.NatToString | scripts/generate-readme.py:82-84 | definition of `str(n)` for a count; properties in the lemmas below |
| Numerals.IntToString | scripts/generate-readme.py:51-52 | definition of `str(n)` for any integer; properties in the lemmas below |
| Numerals.NatToStringShape | scripts/generate-readme.py:82-84 | `str(n)` of a count is non-empty and all digits, with no leading zero |
| Numerals.IntToStringShape | scripts/generate-readme.py:51 | `str(n)` is digits after an optional leading '-', and ends in a digit |
| Numerals.NatRoundTrip | scripts/generate-readme.py:82-84 | reading back the digits of `str(n)` gives n |
| Numerals.IntRoundTrip | scripts/generate-readme.py:51 | reading back `str(n)` gives n, for negative n too |
| Numerals.IntToStringInjective | scripts/generate-readme.py:51 | distinct integers are written differently |
| Ranking.Key | scripts/scrape-leaderboard.py:253 | definition of the sort key `x.get('score', 0)`; also used at :260 and :266 |
| Ranking.Insert | scripts/scrape-leaderboard.py:253 | definition of one insertion step of the stable sort; properties in the lemmas below |
| Ranking.SortDesc | scripts/scrape-leaderboard.py:253 | definition of `list.sort(key=..., reverse=True)`, also at :200, :260 and :266; pinned down by StableSortIsUnique and SortDescCharacterized |
| Ranking.InsertPermutation | scripts/scrape-leaderboard.py:253 | inserting a record adds exactly that record |
| Ranking.InsertSorted | scripts/scrape-leaderboard.py:253 | inserting a record keeps a descending list descending |
| Ranking.SortDescSortedPermutation | scripts/scrape-leaderboard.py:253 | the sorted list is a permutation of the input and non-increasing in the score key, with a missing score read as 0 |
| Ranking.InsertWithKey | scripts/scrape-leaderboard.py:253 | insertion puts the record at the front of its own equal-score group and leaves every other group unchanged |
| Ranking.SortDescStable | scripts/scrape-leaderboard.py:253 | records with equal scores keep their input order (stability of `list.sort`) |
| Ranking.SameHead | scripts/scrape-leaderboard.py:253 | two descending arrangements of the same records that are stable with respect to each other start with the same record |
| Ranking.StableSortIsUnique | scripts/scrape-leaderboard.py:253 | two descending, stable arrangements of the same records are equal |
| Ranking.SortDescCharacterized | scripts/scrape-leaderboard.py:253 | any descending arrangement that is stable with respect to the input equals SortDesc of the input |
| Ranking.SortDescOfSorted | scripts/scrape-leaderboard.py:260 | sorting an already descending list leaves it unchanged |
| Ranking.UnrankedInsert | scripts/scrape-leaderboard.py:253-255 | where a record is inserted does not depend on the ranks the records carry |
| Ranking.UnrankedSortDesc | scripts/scrape-leaderboard.py:253-255 | the sort order does not depend on the ranks the records carry |
| Ranking.AssignRanks | scripts/scrape-leaderboard.py:254-255 | after the loop, record i has rank i+1 and every other field is unchanged |
| Ranking.SortAndRank | scripts/scrape-leaderboard.py:253-255 | the result is densely ranked, descending, a permutation of the input, stable, and equal to SortDesc of the input apart from ranks |
| Ranking.SortedDescUnranked | scripts/scrape-leaderboard.py:253 | clearing ranks neither creates nor breaks descending order |
| Ranking.RerankIsIdentity | scripts/scrape-leaderboard.py:266-268 | a second sort-and-rank pass over a descending, densely ranked list changes nothing |
| Collector.PageOk | scripts/scrape-leaderboard.py:135-136 | definition: the request did not raise and `raise_for_status` accepts the status (also at :24-25 and :228-229) |
| Collector.ScrapeHuggingFace | scripts/scrape-leaderboard.py:15-125 | the table when the page request and status check succeed; [] on any exception or 4xx/5xx status |
| Collector.ScrapeChatbotArena | scripts/scrape-leaderboard.py:219-237 | no records, whether the page loads or not |
| Collector.FetchAdditionalBenchmarks | scripts/scrape-leaderboard.py:239-242 | no records |
| Collector.ScrapeStackOverflowIdes | scripts/scrape-leaderboard.py:127-161 | on failure the fixed three-entry fallback; on success the survey table ranked 1..N in table order with other fields unchanged |
| Collector.Owner | scripts/scrape-leaderboard.py:190 | `split('/')[0]`: a prefix with no '/', followed by '/' or by the end of the text |
| Collector.OwnerUnique | scripts/scrape-leaderboard.py:190 | those three facts determine the owner uniquely |
| Collector.TypeOrDefault | scripts/scrape-leaderboard.py:192 | "Open Source" exactly when the type is missing, null or empty, the type text otherwise; never empty |
| Collector.AgentRecord | scripts/scrape-leaderboard.py:184-195 | name and owner from the project; stars as score, 0 when missing; type `item.get("type") or "Open Source"`; a present `tag_name` is kept and a missing or null one becomes None; temporary rank 0 |
| Collector.Fetched | scripts/scrape-leaderboard.py:177-198 | definition of the list the agent loop builds; properties in the lemmas below |
| Collector.FetchedSound | scripts/scrape-leaderboard.py:181-195 | every collected record is the record of some project whose request returned 200 |
| Collector.FetchedComplete | scripts/scrape-leaderboard.py:181-195 | every project whose request returned 200 contributes its record |
| Collector.FetchedMembers | scripts/scrape-leaderboard.py:178-198 | a record is collected exactly when some project's request returned status 200; raised and non-200 requests are skipped |
| Collector.FetchedEmpty | scripts/scrape-leaderboard.py:178-198 | nothing is collected exactly when no request returned 200 |
| Collector.FetchedUnranked | scripts/scrape-leaderboard.py:194 | collected records carry the temporary rank 0 |
| Collector.ScrapeAiAgents | scripts/scrape-leaderboard.py:163-210 | the fixed fallback exactly when no request succeeded; otherwise the collected records sorted by stars (a permutation, equal to SortDesc) and ranked 1..N |
| Collector.IdeFallback | scripts/scrape-leaderboard.py:157-161 | the fixed IDE records returned on failure, scores in tenths |
| Collector.Projects | scripts/scrape-leaderboard.py:168-176 | the fixed list of tracked agent projects |
| Collector.AgentFallback | scripts/scrape-leaderboard.py:205-209 | the fixed agent records returned when nothing was collected |
| Collector.Sources | scripts/scrape-leaderboard.py:272-277 | the source names written into the document |
| Collector.FallbacksRanked | scripts/scrape-leaderboard.py:205-209 | the IDE and agent fallbacks are already descending and ranked 1..3 |
| Collector.Collect | scripts/scrape-leaderboard.py:244-281 | the document is stamped with the run time, lists the four sources, and holds all three categories sorted and ranked 1..N. LLMs are the sorted concatenation of the three LLM sources, a permutation of the HF table, empty when HF fails. IDEs are the sorted survey, or the fallback unchanged. Agents are the sorted collected records, or the fallback |
| Renderer.RankCell | scripts/generate-readme.py:51 | gold, silver and bronze medals exactly for stored ranks 1, 2 and 3; a single-line cell |
| Renderer.RankCellReadBack | scripts/generate-readme.py:51 | any other rank is shown as a numeral, not a medal, that reads back as the rank |
| Renderer.RankCellInjective | scripts/generate-readme.py:51 | different ranks give different rank cells |
| Renderer.ScoreCell | scripts/generate-readme.py:52 | the score cell ends in '%' exactly in the LLM table |
| Renderer.ScoreCellReadBack | scripts/generate-readme.py:65 | without its '%', the score cell reads back as the score |
| Renderer.FieldCell | scripts/generate-readme.py:76 | `get(key, default)` shows the default exactly when the key is missing, or holds the default itself, or is null and the default is "None"; null shows "None" |
| Renderer.RowText | scripts/generate-readme.py:52 | definition of a row's text as the f-string lays it out (also :65 and :76) |
| Renderer.Row | scripts/generate-readme.py:52 | definition: the row text and its line break (also :65 and :76) |
| Renderer.RowTextOneLine | scripts/generate-readme.py:52 | the text of a row of single-line fields has no line break |
| Renderer.RowIsOneLine | scripts/generate-readme.py:52 | a row of single-line fields contains exactly one line break, at its end |
| Renderer.Top | scripts/generate-readme.py:50 | `xs[:10]` is a prefix of length min(10, len) |
| Renderer.Emit | scripts/generate-readme.py:50-52 | definition of the text after the loop's `readme_content +=` steps; properties in the lemmas below |
| Renderer.EmitLineCount | scripts/generate-readme.py:63-65 | every emitted record adds exactly one line |
| Renderer.TableLineCount | scripts/generate-readme.py:74-76 | a category's table adds exactly min(10, len) lines |
| Renderer.MedalsForTopThree | scripts/generate-readme.py:51 | in a list ranked by the collector, exactly the first three rows carry medals and row i >= 3 shows i+1 |
| Renderer.FormattedDate | scripts/generate-readme.py:29-36 | the reformatted timestamp when it parses, the stored text when it does not; for a missing timestamp the same with the current time; "None" for a null one |
| Renderer.Header | scripts/generate-readme.py:38-48 | definition of the header text with the formatted date |
| Renderer.IdeHeading | scripts/generate-readme.py:54-61 | definition of the IDE heading, survey note and table header |
| Renderer.AgentHeading | scripts/generate-readme.py:67-72 | definition of the agent heading and table header |
| Renderer.CountLines | scripts/generate-readme.py:79-84 | definition of the heading and the three count lines of the statistics block |
| Renderer.LeaderLines | scripts/generate-readme.py:85-87 | definition of the three top-entry lines, with the literal `" if llms else ""` text |
| Renderer.Readme | scripts/generate-readme.py:38-87 | definition of the rendered text that GenerateReadme is proved to return |
| Renderer.Stats | scripts/generate-readme.py:79-87 | the statistics block starts with the three category counts |
| Renderer.EmitExtends | scripts/generate-readme.py:49-52 | appending rows never changes the text already written |
| Renderer.AppendRows | scripts/generate-readme.py:50-52 | the loop appends one row per record of `xs[:10]`, in order |
| Renderer.GenerateReadme | scripts/generate-readme.py:21-87 | declines exactly for no document or three empty categories. Raises exactly when a category is empty while another is not (`xs[0]` in the statistics block) or a printed record has no score. Otherwise returns the rendered text |

## Left out

- Floating-point scores are not modelled; scores are integers. The IDE fallback scores 95.4, 91.8 and 90.2 are written in tenths (954, 918, 902). This keeps their order and relative values. It does not keep their rendered text: the model's IDE table prints "954", "918" and "902" where the program prints "95.4", "91.8" and "90.2".
- HTML page bodies, HTML parsing, HTTP headers and timeouts are not modelled. A page request is an exception or a status. A repository request is an exception, or a status plus the two body keys the loop reads (`stargazers_count` and `tag_name`).
- The hardcoded Hugging Face and survey tables are parameters. Their literal contents are not modelled.
- Reading and writing `data/leaderboard.json` and `README.md`, `os.makedirs`, and all progress messages are not modelled.
- The text after the statistics block (scripts/generate-readme.py:88-141) is not modelled. It is constant and holds no data.
- Renderer.Stats: states that the counts come first, not the text of the top-entry lines. Those lines are given by `LeaderLines` as laid out in the source, including the literal text `" if llms else ""`.
- The JSON type errors are not modelled. These are a category holding a non-list, a record missing its `name`, `model`, `organization` or `rank` key, and a non-string timestamp. The collector never writes such documents. A null score is also not modelled (see the next line).
- Collector.AgentRecord: does not model a null (or otherwise incomparable) `stargazers_count`; only a missing count (read as 0) and an integer count are modelled. With two or more collected records a null count makes the sort at scripts/scrape-leaderboard.py:200 raise, and the agent function falls back through its outer handler (:211-217). With exactly one collected record, `list.sort` compares nothing. The null score is then stored in the document, and the renderer prints "None" in the agent row and the "Top Agent" line (scripts/generate-readme.py:76, :87). That single-record case is not modelled.
- `updated_at` is not modelled: the agent loop reads it but never uses it.
- The clock and `datetime.fromisoformat`/`strftime` are inputs: `now`, and the function `reformat`. The `'Z'` replacement before parsing belongs to `reformat`.
- Sharing and in-place mutation of the record dictionaries are not modelled. Records are values, and the rank loops produce new lists. No caller observes the difference.
