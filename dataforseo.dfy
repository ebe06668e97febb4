/** The client of the crawl and backlink provider (server/services/dataforseo.ts).
    HTTP, authentication and JSON decoding are outside the model: each request is
    represented by the reply it received, already decoded into tagged records. */
module DataForSEO {
  import opened Wrappers
  import opened Seqs
  import opened Text

  /** Why a provider call failed. */
  datatype ApiFailure =
    | HttpError(status: int)   // makeRequest: the response was not ok
    | CrawlNotStarted          // startOnPageCrawl: the reply carried no task id

  /** One entry of the reply's `tasks` array; `result` holds endpoint-specific records. */
  datatype TaskEntry<R> = TaskEntry(id: Option<string>, result: Option<seq<R>>)

  /** A reply: its HTTP status and, when present, the decoded `tasks` array. */
  datatype Reply<R> = Reply(status: int, tasks: Option<seq<TaskEntry<R>>>)

  /** The result records of `on_page/task_post` are not read. */
  datatype TaskPost = TaskPost

  /** An entry of `on_page/tasks_ready`. */
  datatype ReadyTask = ReadyTask(id: Option<string>, statusCode: Option<int>)

  /** The first result of `backlinks/summary/live`; every count may be absent. */
  datatype RawBacklinkSummary = RawBacklinkSummary(
    backlinks: Option<int>, referringDomains: Option<int>, dofollow: Option<int>, nofollow: Option<int>)

  datatype BacklinkSummary = BacklinkSummary(
    totalBacklinks: int, referringDomains: int, dofollow: int, nofollow: int)

  /** An entry of `backlinks/backlinks/live`. */
  datatype Backlink = Backlink(rank: Option<int>, anchor: Option<string>, domainFrom: Option<string>)

  /** `response.ok` of the Fetch API: a status in 200..299. */
  predicate IsOk(status: int)
  {
    200 <= status <= 299
  }

  /** makeRequest: a reply that is not ok fails with its status; otherwise its decoded tasks. */
  function MakeRequest<R>(reply: Reply<R>): (r: Result<Option<seq<TaskEntry<R>>>, ApiFailure>)
    ensures r.Success? <==> IsOk(reply.status)
    ensures r.Success? ==> r.value == reply.tasks
    ensures r.Failure? ==> r.error == HttpError(reply.status)
  {
    if IsOk(reply.status) then Success(reply.tasks) else Failure(HttpError(reply.status))
  }

  /** `tasks?.[0]` */
  function FirstTask<R>(tasks: Option<seq<TaskEntry<R>>>): Option<TaskEntry<R>>
  {
    if tasks.Some? && |tasks.value| > 0 then Some(tasks.value[0]) else None
  }

  /** `tasks?.[0]?.result || []` */
  function ResultList<R>(tasks: Option<seq<TaskEntry<R>>>): seq<R>
  {
    var first := FirstTask(tasks);
    if first.Some? && first.value.result.Some? then first.value.result.value else []
  }

  /** `tasks?.[0]?.result?.[0]` */
  function FirstResult<R>(tasks: Option<seq<TaskEntry<R>>>): Option<R>
  {
    var results := ResultList(tasks);
    if |results| > 0 then Some(results[0]) else None
  }

  /** startOnPageCrawl: the id of the first task, which must be present and non-empty. */
  function StartOnPageCrawl(reply: Reply<TaskPost>): (r: Result<string, ApiFailure>)
    ensures !IsOk(reply.status) ==> r == Failure(HttpError(reply.status))
    ensures r.Success? ==>
      && IsOk(reply.status) && reply.tasks.Some? && |reply.tasks.value| > 0
      && reply.tasks.value[0].id == Some(r.value) && r.value != ""
    ensures IsOk(reply.status) && r.Failure? ==>
      && r.error == CrawlNotStarted
      && (reply.tasks.None? || |reply.tasks.value| == 0
          || reply.tasks.value[0].id.None? || reply.tasks.value[0].id == Some(""))
  {
    match MakeRequest(reply)
    case Failure(e) => Failure(e)
    case Success(tasks) =>
      var first := FirstTask(tasks);
      if first.Some? && first.value.id.Some? && first.value.id.value != "" then Success(first.value.id.value)
      else Failure(CrawlNotStarted)
  }

  /** getOnPageSummary: the first result record, or none. */
  function GetOnPageSummary<R>(reply: Reply<R>): Result<Option<R>, ApiFailure>
  {
    match MakeRequest(reply)
    case Failure(e) => Failure(e)
    case Success(tasks) => Success(FirstResult(tasks))
  }

  /** getOnPagePages and getBacklinks: the first task's result list, or the empty list. */
  function GetResultList<R>(reply: Reply<R>): Result<seq<R>, ApiFailure>
  {
    match MakeRequest(reply)
    case Failure(e) => Failure(e)
    case Success(tasks) => Success(ResultList(tasks))
  }

  /** `value || 0` on a count the provider may leave out. */
  function OrZero(v: Option<int>): int
  {
    if v.Some? then v.value else 0
  }

  /** getBacklinkSummary: each count comes from the first result, or is 0 when it is absent. */
  function GetBacklinkSummary(reply: Reply<RawBacklinkSummary>): (r: Result<BacklinkSummary, ApiFailure>)
    ensures r.Success? <==> IsOk(reply.status)
    ensures r.Failure? ==> r.error == HttpError(reply.status)
    ensures r.Success? && FirstResult(reply.tasks).None? ==> r.value == BacklinkSummary(0, 0, 0, 0)
    ensures r.Success? && FirstResult(reply.tasks).Some? ==>
      var raw := FirstResult(reply.tasks).value;
      && (raw.backlinks.Some? ==> r.value.totalBacklinks == raw.backlinks.value)
      && (raw.backlinks.None? ==> r.value.totalBacklinks == 0)
      && (raw.referringDomains.Some? ==> r.value.referringDomains == raw.referringDomains.value)
      && (raw.referringDomains.None? ==> r.value.referringDomains == 0)
      && (raw.dofollow.Some? ==> r.value.dofollow == raw.dofollow.value)
      && (raw.dofollow.None? ==> r.value.dofollow == 0)
      && (raw.nofollow.Some? ==> r.value.nofollow == raw.nofollow.value)
      && (raw.nofollow.None? ==> r.value.nofollow == 0)
  {
    match MakeRequest(reply)
    case Failure(e) => Failure(e)
    case Success(tasks) =>
      match FirstResult(tasks)
      case None => Success(BacklinkSummary(0, 0, 0, 0))
      case Some(raw) =>
        Success(BacklinkSummary(OrZero(raw.backlinks), OrZero(raw.referringDomains),
                                OrZero(raw.dofollow), OrZero(raw.nofollow)))
  }

  /** `tasks.find(t => t.id === taskId)`: the first entry carrying that id. */
  function FindTask(tasks: seq<ReadyTask>, taskId: string): (r: Option<ReadyTask>)
    ensures r.None? <==> forall i :: 0 <= i < |tasks| ==> tasks[i].id != Some(taskId)
    ensures r.Some? ==>
      exists i :: 0 <= i < |tasks| && tasks[i] == r.value && r.value.id == Some(taskId)
                  && forall j :: 0 <= j < i ==> tasks[j].id != Some(taskId)
  {
    if |tasks| == 0 then None
    else if tasks[0].id == Some(taskId) then Some(tasks[0])
    else
      var rest := FindTask(tasks[1..], taskId);
      assert forall i :: 1 <= i < |tasks| ==> tasks[i] == tasks[1..][i - 1];
      rest
  }

  /** getTaskStatus: the `tasks_ready` entry of the given task, if it is listed. */
  function GetTaskStatus(reply: Reply<ReadyTask>, taskId: string): (r: Result<Option<ReadyTask>, ApiFailure>)
    ensures r.Success? <==> IsOk(reply.status)
    ensures r.Failure? ==> r.error == HttpError(reply.status)
    ensures r.Success? ==> r.value == FindTask(ResultList(reply.tasks), taskId)
  {
    match MakeRequest(reply)
    case Failure(e) => Failure(e)
    case Success(tasks) => Success(FindTask(ResultList(tasks), taskId))
  }

  // ---------------------------------------------------------------------------
  // Backlink toxicity heuristic

  /** `link.rank || 0` */
  function RankOf(link: Backlink): int
  {
    OrZero(link.rank)
  }

  /** The anchor text check: case-insensitive, any of the spam words as a substring. */
  predicate HasSpamAnchor(link: Backlink)
  {
    var anchorText := Lower(if link.anchor.Some? then link.anchor.value else "");
    Contains(anchorText, "viagra") || Contains(anchorText, "casino") || Contains(anchorText, "porn")
  }

  /** The source domain check: case-insensitive, ending in one of the low-trust TLDs. */
  predicate HasLowTrustDomain(link: Backlink)
  {
    var domain := Lower(if link.domainFrom.Some? then link.domainFrom.value else "");
    EndsWith(domain, ".xyz") || EndsWith(domain, ".info")
  }

  /** The points one backlink adds: one per rule it breaks, independently. */
  function LinkScore(link: Backlink): (n: int)
    ensures 0 <= n <= 3
    ensures n == 0 <==> RankOf(link) >= 10 && !HasSpamAnchor(link) && !HasLowTrustDomain(link)
    ensures n == 3 <==> RankOf(link) < 10 && HasSpamAnchor(link) && HasLowTrustDomain(link)
    ensures link.rank.None? ==> n >= 1
  {
    (if RankOf(link) < 10 then 1 else 0)
    + (if HasSpamAnchor(link) then 1 else 0)
    + (if HasLowTrustDomain(link) then 1 else 0)
  }

  /** The toxicity count of a list of backlinks. */
  function Toxicity(links: seq<Backlink>): int
  {
    Sum(links, LinkScore)
  }

  /** analyzeBacklinkToxicity */
  method AnalyzeBacklinkToxicity(backlinks: seq<Backlink>) returns (toxicCount: int)
    ensures toxicCount == Toxicity(backlinks)
  {
    toxicCount := 0;
    for i := 0 to |backlinks|
      invariant toxicCount == Toxicity(backlinks[..i])
    {
      var link := backlinks[i];
      ghost var before := toxicCount;
      var rank := RankOf(link);
      var anchorText := Lower(if link.anchor.Some? then link.anchor.value else "");
      var domain := Lower(if link.domainFrom.Some? then link.domainFrom.value else "");

      if rank < 10 {
        toxicCount := toxicCount + 1;
      }
      if Contains(anchorText, "viagra") || Contains(anchorText, "casino") || Contains(anchorText, "porn") {
        toxicCount := toxicCount + 1;
      }
      if EndsWith(domain, ".xyz") || EndsWith(domain, ".info") {
        toxicCount := toxicCount + 1;
      }
      assert toxicCount == before + LinkScore(link);
      assert backlinks[..i + 1][..i] == backlinks[..i];
      assert Toxicity(backlinks[..i + 1]) == Toxicity(backlinks[..i]) + LinkScore(link);
    }
    assert backlinks[..|backlinks|] == backlinks;
  }

  /** Each backlink adds between 0 and 3 points. */
  lemma {:induction false} ToxicityBounds(links: seq<Backlink>)
    ensures 0 <= Toxicity(links) <= 3 * |links|
  {
    forall x | x in links
      ensures 0 <= LinkScore(x) <= 3
    {
    }
    SumBetween(links, LinkScore, 0, 3);
  }

  /** Links are scored independently, so the count is additive over concatenation. */
  lemma {:induction false} ToxicityAppend(a: seq<Backlink>, b: seq<Backlink>)
    ensures Toxicity(a + b) == Toxicity(a) + Toxicity(b)
  {
    SumAppend(a, b, LinkScore);
  }

  /** A rank-5 link with anchor "buy" from "x.xyz" earns two points: low rank and low-trust TLD. */
  lemma LowRankLowTrustExample()
    ensures Toxicity([Backlink(Some(5), Some("buy"), Some("x.xyz"))]) == 2
  {
    var link := Backlink(Some(5), Some("buy"), Some("x.xyz"));
    assert Lower("buy") == "buy";
    assert Lower("x.xyz") == "x.xyz";
    assert !HasSpamAnchor(link);
    assert "x.xyz"[1..] == ".xyz";
    assert HasLowTrustDomain(link);
    assert LinkScore(link) == 2;
    assert [link][..0] == [];
    assert Sum([link], LinkScore) == Sum([], LinkScore) + LinkScore(link);
  }

  /** The anchor check ignores case: "Best CASINO bonus" is flagged. */
  lemma SpamAnchorIgnoresCase()
    ensures HasSpamAnchor(Backlink(Some(50), Some("Best CASINO bonus"), None))
  {
    var lowered := Lower("Best CASINO bonus");
    assert lowered == "best casino bonus";
    assert OccursAt(lowered, "casino", 5);
  }
}
