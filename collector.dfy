/** The collector of scripts/scrape-leaderboard.py: each source's failure policy,
    the agent fetch loop, and the document assembled by `main`.

    Every network call is an input: a Page is the outcome of one page request
    (an exception of any kind, or an HTTP status that `raise_for_status` judges),
    a Fetch is the outcome of one GitHub repository request. The hardcoded
    tables that a successful page request returns are inputs too. */
module Collector {

  import opened Records
  import opened Ranking

  /** The outcome of `requests.get(url)` followed by `raise_for_status()`. */
  datatype Page = Failed | Response(status: int)

  /** `raise_for_status` raises for a 4xx or 5xx status; any exception fails. */
  predicate PageOk(p: Page) {
    p.Response? && !(400 <= p.status < 600)
  }

  /** The Hugging Face source: its table when the page request succeeds,
      nothing on any failure. */
  function ScrapeHuggingFace(page: Page, table: seq<Entry>): (r: seq<Entry>)
    ensures PageOk(page) ==> r == table
    ensures !PageOk(page) ==> r == []
  {
    if PageOk(page) then table else []
  }

  /** The Chatbot Arena source yields no records, whether or not its page loads. */
  function ScrapeChatbotArena(page: Page): (r: seq<Entry>)
    ensures r == []
  {
    match page
    case Failed => []
    case Response(_) => []
  }

  /** The additional-benchmarks source yields no records. */
  function FetchAdditionalBenchmarks(): (r: seq<Entry>)
    ensures r == []
  {
    []
  }

  /** The IDE records returned when the survey page cannot be fetched. Scores
      are written in tenths of a percent (95.4 as 954); only their order matters. */
  const IdeFallback: seq<Entry> := [
    Entry("VS Code", Some(954), "Microsoft", Value("Desktop"), Value("1.90"), 1),
    Entry("JetBrains Fleet", Some(918), "JetBrains", Value("Desktop"), Value("1.32"), 2),
    Entry("Replit", Some(902), "Replit", Value("Web"), Value("2025.06"), 3)
  ]

  /** The IDE source: on success the survey table ranked 1..N in table order;
      on any failure the fixed, non-empty fallback. */
  method ScrapeStackOverflowIdes(page: Page, survey: seq<Entry>) returns (ides: seq<Entry>)
    ensures !PageOk(page) ==> ides == IdeFallback && |ides| == 3
    ensures PageOk(page) ==> DenselyRanked(ides) && Unranked(ides) == Unranked(survey)
    ensures DenselyRanked(ides)
  {
    if !PageOk(page) {
      return IdeFallback;
    }
    ides := AssignRanks(survey);
  }

  /** One tracked agent project: the `name`, `org_repo` and `type` keys. */
  datatype Project = Project(name: string, orgRepo: string, kind: Field)

  /** The fixed list of tracked agent projects. */
  const Projects: seq<Project> := [
    Project("Auto-GPT", "Significant-Gravitas/Auto-GPT", Value("Open Source")),
    Project("Open Interpreter", "OpenInterpreter/OpenInterpreter", Value("Open Source")),
    Project("MetaGPT", "geekan/MetaGPT", Value("Open Source")),
    Project("AgentGPT", "reworkd/AgentGPT", Value("Web")),
    Project("BabyAGI", "yoheinakajima/babyagi", Value("Open Source")),
    Project("CrewAI", "CrewAI/CrewAI", Value("Open Source")),
    Project("AutoGen", "microsoft/autogen", Value("Open Source"))
  ]

  /** The keys of a repository's JSON that the collector reads:
      `stargazers_count` and `tag_name`. */
  datatype RepoInfo = RepoInfo(stargazers: Option<int>, tagName: Field)

  /** The outcome of one repository request: `Raised` when `requests.get` or
      `r.json()` raises, otherwise the status code and the decoded body. */
  datatype Fetch = Raised | Status(code: int, repo: RepoInfo)

  predicate Succeeded(f: Fetch) {
    f.Status? && f.code == 200
  }

  predicate NoneSucceeded(fs: seq<Fetch>) {
    forall i :: 0 <= i < |fs| ==> !Succeeded(fs[i])
  }

  /** `org_repo.split('/')[0]`: the text before the first '/', or all of it. */
  function Owner(orgRepo: string): (r: string)
    ensures r <= orgRepo
    ensures '/' !in r
    ensures |r| == |orgRepo| || orgRepo[|r|] == '/'
  {
    if orgRepo == [] || orgRepo[0] == '/' then ""
    else [orgRepo[0]] + Owner(orgRepo[1..])
  }

  /** The three facts Owner promises pick out one prefix only. */
  lemma OwnerUnique(s: string, p: string)
    requires p <= s && '/' !in p
    requires |p| == |s| || s[|p|] == '/'
    ensures p == Owner(s)
  {
    var o := Owner(s);
    if |p| < |o| {
      assert false;
    } else if |o| < |p| {
      assert false;
    }
  }

  /** `item.get("type") or "Open Source"`. */
  function TypeOrDefault(f: Field): (r: string)
    ensures r != ""
    ensures Falsy(f) ==> r == "Open Source"
    ensures !Falsy(f) ==> r == f.text
  {
    if Falsy(f) then "Open Source" else f.text
  }

  /** The record appended for a project whose request returned status 200. */
  function AgentRecord(p: Project, repo: RepoInfo): (e: Entry)
    ensures e.name == p.name && e.organization == Owner(p.orgRepo)
    ensures e.score == Some(match repo.stargazers case Some(n) => n case None => 0)
    ensures e.kind == Value(TypeOrDefault(p.kind)) && e.kind.text != ""
    ensures repo.tagName.Value? ==> e.detail == repo.tagName
    ensures !repo.tagName.Value? ==> e.detail == Null
    ensures e.rank == 0
  {
    Entry(
      name := p.name,
      score := Some(match repo.stargazers case Some(n) => n case None => 0),
      organization := Owner(p.orgRepo),
      kind := Value(TypeOrDefault(p.kind)),
      detail := if repo.tagName.Absent? then Null else repo.tagName,
      rank := 0)
  }

  /** The records the fetch loop collects, in project order. */
  function Fetched(ps: seq<Project>, fs: seq<Fetch>): seq<Entry>
    requires |ps| == |fs|
  {
    if ps == [] then []
    else
      var n := |ps| - 1;
      Fetched(ps[..n], fs[..n]) + (if Succeeded(fs[n]) then [AgentRecord(ps[n], fs[n].repo)] else [])
  }

  /** Every collected record comes from a project whose request returned 200. */
  lemma {:induction false} FetchedSound(ps: seq<Project>, fs: seq<Fetch>, e: Entry)
    requires |ps| == |fs| && e in Fetched(ps, fs)
    ensures exists i :: 0 <= i < |ps| && Succeeded(fs[i]) && e == AgentRecord(ps[i], fs[i].repo)
  {
    var n := |ps| - 1;
    if e in Fetched(ps[..n], fs[..n]) {
      FetchedSound(ps[..n], fs[..n], e);
      var i :| 0 <= i < n && Succeeded(fs[..n][i]) && e == AgentRecord(ps[..n][i], fs[..n][i].repo);
      assert ps[..n][i] == ps[i] && fs[..n][i] == fs[i];
    } else {
      assert Succeeded(fs[n]) && e == AgentRecord(ps[n], fs[n].repo);
    }
  }

  /** Every project whose request returned 200 contributes its record. */
  lemma {:induction false} FetchedComplete(ps: seq<Project>, fs: seq<Fetch>, i: int)
    requires |ps| == |fs| && 0 <= i < |ps| && Succeeded(fs[i])
    ensures AgentRecord(ps[i], fs[i].repo) in Fetched(ps, fs)
  {
    var n := |ps| - 1;
    if i < n {
      FetchedComplete(ps[..n], fs[..n], i);
      assert ps[..n][i] == ps[i] && fs[..n][i] == fs[i];
    }
  }

  /** A record is collected exactly when some project's request returned 200;
      a project whose request raised or returned another status is omitted. */
  lemma FetchedMembers(ps: seq<Project>, fs: seq<Fetch>, e: Entry)
    requires |ps| == |fs|
    ensures e in Fetched(ps, fs) <==>
      exists i :: 0 <= i < |ps| && Succeeded(fs[i]) && e == AgentRecord(ps[i], fs[i].repo)
  {
    if e in Fetched(ps, fs) {
      FetchedSound(ps, fs, e);
    }
    if i :| 0 <= i < |ps| && Succeeded(fs[i]) && e == AgentRecord(ps[i], fs[i].repo) {
      FetchedComplete(ps, fs, i);
    }
  }

  /** Nothing is collected exactly when no request returned 200. */
  lemma FetchedEmpty(ps: seq<Project>, fs: seq<Fetch>)
    requires |ps| == |fs|
    ensures Fetched(ps, fs) == [] <==> NoneSucceeded(fs)
  {
    if Fetched(ps, fs) != [] {
      FetchedMembers(ps, fs, Fetched(ps, fs)[0]);
    }
    if i :| 0 <= i < |fs| && Succeeded(fs[i]) {
      FetchedMembers(ps, fs, AgentRecord(ps[i], fs[i].repo));
    }
  }

  lemma {:induction false} FetchedUnranked(ps: seq<Project>, fs: seq<Fetch>)
    requires |ps| == |fs|
    ensures Unranked(Fetched(ps, fs)) == Fetched(ps, fs)
  {
    if ps != [] {
      var n := |ps| - 1;
      FetchedUnranked(ps[..n], fs[..n]);
    }
  }

  /** The agent records returned when no repository request succeeds. */
  const AgentFallback: seq<Entry> := [
    Entry("Auto-GPT", Some(88700), "Significant Gravitas", Value("Open Source"), Value("v2.0"), 1),
    Entry("Open Interpreter", Some(65300), "Open Interpreter", Value("Open Source"), Value("v0.3.11"), 2),
    Entry("AgentGPT", Some(47000), "AgentGPT", Value("Web"), Value("2025.06"), 3)
  ]

  /** The agent source: one request per tracked project, the successful ones
      sorted by stars and ranked, or the fixed fallback when none succeeded. */
  method ScrapeAiAgents(fetches: seq<Fetch>) returns (agents: seq<Entry>)
    requires |fetches| == |Projects|
    ensures NoneSucceeded(fetches) ==> agents == AgentFallback
    ensures !NoneSucceeded(fetches) ==>
      && DenselyRanked(agents)
      && SortedDesc(agents)
      && multiset(Unranked(agents)) == multiset(Fetched(Projects, fetches))
      && Unranked(agents) == SortDesc(Fetched(Projects, fetches))
  {
    var agentData: seq<Entry> := [];
    for i := 0 to |Projects|
      invariant agentData == Fetched(Projects[..i], fetches[..i])
    {
      assert Projects[..i + 1][..i] == Projects[..i];
      assert fetches[..i + 1][..i] == fetches[..i];
      if Succeeded(fetches[i]) {
        agentData := agentData + [AgentRecord(Projects[i], fetches[i].repo)];
      }
    }
    assert Projects[..|Projects|] == Projects && fetches[..|fetches|] == fetches;
    FetchedEmpty(Projects, fetches);
    FetchedUnranked(Projects, fetches);
    agents := SortAndRank(agentData);
    if agents == [] {
      return AgentFallback;
    }
  }

  /** The source names written into the document. */
  const Sources: seq<string> := [
    "Hugging Face Open LLM Leaderboard",
    "Chatbot Arena by LMSYS",
    "Stack Overflow Developer Survey",
    "GitHub AI Agent Projects"
  ]

  lemma FallbacksRanked()
    ensures SortedDesc(IdeFallback) && DenselyRanked(IdeFallback)
    ensures SortedDesc(AgentFallback) && DenselyRanked(AgentFallback)
  {
  }

  /** `main`: collect each category, sort it by score and rank it 1..N, and
      assemble the document with the run's timestamp `now`. */
  method Collect(
    now: string,
    hfPage: Page, hfTable: seq<Entry>,
    arenaPage: Page,
    idePage: Page, survey: seq<Entry>,
    agentFetches: seq<Fetch>)
    returns (doc: Document)
    requires |agentFetches| == |Projects|
    ensures doc.lastUpdated == Value(now) && doc.sources == Sources
    ensures DenselyRanked(doc.llms) && SortedDesc(doc.llms)
    ensures DenselyRanked(doc.ides) && SortedDesc(doc.ides)
    ensures DenselyRanked(doc.agents) && SortedDesc(doc.agents)
    // models: the concatenation of the three sources, sorted stably
    ensures Unranked(doc.llms) ==
      SortDesc(Unranked(ScrapeHuggingFace(hfPage, hfTable) + ScrapeChatbotArena(arenaPage) + FetchAdditionalBenchmarks()))
    ensures multiset(Unranked(doc.llms)) == multiset(Unranked(ScrapeHuggingFace(hfPage, hfTable)))
    ensures !PageOk(hfPage) ==> doc.llms == []
    // IDEs: the survey table re-sorted, or the fallback untouched
    ensures PageOk(idePage) ==> Unranked(doc.ides) == SortDesc(Unranked(survey))
    ensures !PageOk(idePage) ==> doc.ides == IdeFallback
    // agents: the second sort-and-rank pass leaves the agent list as collected
    ensures NoneSucceeded(agentFetches) ==> doc.agents == AgentFallback
    ensures !NoneSucceeded(agentFetches) ==> Unranked(doc.agents) == SortDesc(Fetched(Projects, agentFetches))
  {
    var hfData := ScrapeHuggingFace(hfPage, hfTable);
    var arenaData := ScrapeChatbotArena(arenaPage);
    var additionalData := FetchAdditionalBenchmarks();
    var llmData := hfData + arenaData + additionalData;
    assert llmData == hfData;
    llmData := SortAndRank(llmData);

    var ideData := ScrapeStackOverflowIdes(idePage, survey);
    var ideRanked := SortAndRank(ideData);
    FallbacksRanked();
    if !PageOk(idePage) {
      RerankIsIdentity(ideData, ideRanked);
    } else {
      assert Unranked(ideRanked) == SortDesc(Unranked(survey));
    }

    var agentData := ScrapeAiAgents(agentFetches);
    var agentRanked := SortAndRank(agentData);
    RerankIsIdentity(agentData, agentRanked);

    doc := Document(Value(now), Sources, llmData, ideRanked, agentRanked);
  }
}
