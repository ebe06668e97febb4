/** The audit orchestrator of server/services/auditEngine.ts: the crawl-task poll,
    the backlink phase, the AI summary step and the state and credit machine of
    runFullAudit over the audits and auditReports tables. Provider replies, the
    language model's reply, clock readings and database write failures are inputs. */
module AuditEngine {
  import opened Wrappers
  import opened Seqs
  import opened JsMath
  import opened DataForSEO
  import opened OnPage

  /** How long runOnPageAudit waits for the crawl, in milliseconds. */
  const CrawlTimeout := 60000
  /** The pause between two polls of `on_page/tasks_ready`, in milliseconds. */
  const PollInterval := 5000
  /** The provider's status code for a finished task. */
  const TaskReadyCode := 20000

  /** The credits charged after each phase. */
  const OnPageCredits := 250
  const BacklinkCredits := 45
  const SummaryCredits := 50

  // ---------------------------------------------------------------------------
  // waitForTask

  /** Clock readings: reading 0 is the start time, reading k >= 1 the k-th loop test.
      Readings do not go back, and consecutive loop tests are at least one poll
      interval apart, since each loop pass sleeps for the interval. */
  ghost predicate ClockSteady(clock: nat -> int, interval: int)
  {
    && clock(0) <= clock(1)
    && forall k: nat :: 1 <= k ==> IntervalPassed(clock, interval, k)
  }

  /** Reading k + 1 comes at least one interval after reading k. */
  ghost predicate IntervalPassed(clock: nat -> int, interval: int, k: nat)
  {
    clock(k) + interval <= clock(k + 1)
  }

  /** How the wait for a task ended, with the number of polls made. */
  datatype Wait =
    | Ready(polls: nat)                        // a poll reported the task finished
    | TimedOut(polls: nat)                     // the deadline passed first: 'Task timeout'
    | PollFailed(error: ApiFailure, polls: nat) // a poll request failed

  /** A poll whose reply lists the task with the finished status code. */
  predicate ReportsReady(reply: Reply<ReadyTask>, taskId: string)
  {
    var status := GetTaskStatus(reply, taskId);
    status.Success? && status.value.Some? && status.value.value.statusCode == Some(TaskReadyCode)
  }

  /** A poll that succeeded without reporting the task finished. */
  predicate StillRunning(reply: Reply<ReadyTask>, taskId: string)
  {
    GetTaskStatus(reply, taskId).Success? && !ReportsReady(reply, taskId)
  }

  /** The wait from the loop test after `polls` polls on: `replies(n)` answers the
      poll numbered n (from 0) and `clock(polls + 1)` is the reading of this test. */
  function WaitFrom(clock: nat -> int, replies: nat -> Reply<ReadyTask>, taskId: string,
                    timeout: int, interval: int, polls: nat): (r: Wait)
    requires interval > 0 && ClockSteady(clock, interval)
    ensures r.polls >= polls
    ensures r.polls > polls ==> clock(r.polls) - clock(0) < timeout
    ensures r.TimedOut? ==> clock(r.polls + 1) - clock(0) >= timeout
    ensures r.Ready? ==> r.polls > polls && ReportsReady(replies(r.polls - 1), taskId)
    ensures r.PollFailed? ==>
      && r.polls > polls && !IsOk(replies(r.polls - 1).status)
      && r.error == HttpError(replies(r.polls - 1).status)
    decreases timeout - (clock(polls + 1) - clock(0))
  {
    if clock(polls + 1) - clock(0) >= timeout then TimedOut(polls)
    else
      var status := GetTaskStatus(replies(polls), taskId);
      if status.Failure? then PollFailed(status.error, polls + 1)
      else if ReportsReady(replies(polls), taskId) then Ready(polls + 1)
      else
        assert IntervalPassed(clock, interval, polls + 1);
        WaitFrom(clock, replies, taskId, timeout, interval, polls + 1)
  }

  /** Every poll before the last one found the task still running, so the wait
      returns at the first poll that reports the task finished. */
  lemma {:induction false} WaitedWhileRunning(clock: nat -> int, replies: nat -> Reply<ReadyTask>,
                                               taskId: string, timeout: int, interval: int, polls: nat)
    requires interval > 0 && ClockSteady(clock, interval)
    ensures var r := WaitFrom(clock, replies, taskId, timeout, interval, polls);
      forall n :: polls <= n < r.polls && (r.TimedOut? || n < r.polls - 1) ==> StillRunning(replies(n), taskId)
    decreases timeout - (clock(polls + 1) - clock(0))
  {
    if clock(polls + 1) - clock(0) < timeout && StillRunning(replies(polls), taskId) {
      assert IntervalPassed(clock, interval, polls + 1);
      WaitedWhileRunning(clock, replies, taskId, timeout, interval, polls + 1);
    }
  }

  /** Under a steady clock, the k-th loop test comes at least (k - 1) intervals after the start. */
  lemma {:induction false} ClockAdvance(clock: nat -> int, interval: int, k: nat)
    requires interval > 0 && ClockSteady(clock, interval) && k >= 1
    ensures clock(k) >= clock(0) + (k - 1) * interval
  {
    if k > 1 {
      ClockAdvance(clock, interval, k - 1);
      assert IntervalPassed(clock, interval, k - 1);
      assert (k - 1) * interval == (k - 2) * interval + interval;
    }
  }

  /** Every poll is made before the deadline, so the polls made are bounded. */
  lemma PollsBounded(clock: nat -> int, replies: nat -> Reply<ReadyTask>, taskId: string,
                     timeout: int, interval: int)
    requires interval > 0 && ClockSteady(clock, interval)
    ensures var r := WaitFrom(clock, replies, taskId, timeout, interval, 0);
      r.polls == 0 || (r.polls - 1) * interval < timeout
  {
    var r := WaitFrom(clock, replies, taskId, timeout, interval, 0);
    if r.polls > 0 {
      ClockAdvance(clock, interval, r.polls);
    }
  }

  /** The crawl wait of runOnPageAudit polls at most twelve times. */
  lemma CrawlWaitAtMostTwelvePolls(clock: nat -> int, replies: nat -> Reply<ReadyTask>, taskId: string)
    requires ClockSteady(clock, PollInterval)
    ensures WaitFrom(clock, replies, taskId, CrawlTimeout, PollInterval, 0).polls <= 12
  {
    PollsBounded(clock, replies, taskId, CrawlTimeout, PollInterval);
  }

  /** A clock whose first loop test is at the start and whose polls take no time. */
  function ExactClock(k: nat): int
  {
    if k == 0 then 0 else PollInterval * (k - 1)
  }

  /** A `tasks_ready` reply that never lists any task. */
  function NothingReady(n: nat): Reply<ReadyTask>
  {
    Reply(200, Some([TaskEntry(Some("tasks_ready"), Some([]))]))
  }

  /** With no poll time and a task that never becomes ready, the wait polls twelve times. */
  lemma {:induction false} NeverReadyFrom(taskId: string, polls: nat)
    requires polls <= 12
    ensures ClockSteady(ExactClock, PollInterval)
    ensures WaitFrom(ExactClock, NothingReady, taskId, CrawlTimeout, PollInterval, polls) == TimedOut(12)
    decreases 12 - polls
  {
    assert StillRunning(NothingReady(polls), taskId);
    if polls < 12 {
      NeverReadyFrom(taskId, polls + 1);
    }
  }

  lemma NeverReadyTimesOutAfterTwelvePolls(taskId: string)
    ensures ClockSteady(ExactClock, PollInterval)
    ensures WaitFrom(ExactClock, NothingReady, taskId, CrawlTimeout, PollInterval, 0) == TimedOut(12)
  {
    NeverReadyFrom(taskId, 0);
  }

  // ---------------------------------------------------------------------------
  // runBacklinkAudit and calculateAvgRank

  /** calculateAvgRank: the mean rank rounded to the nearest integer, halves rounding
      up, with a missing rank counted as 0; 0 for no backlinks. */
  function CalculateAvgRank(backlinks: seq<Backlink>): (r: int)
    ensures |backlinks| == 0 ==> r == 0
    ensures |backlinks| > 0 ==>
      var n := |backlinks|;
      2 * n * r <= 2 * Sum(backlinks, RankOf) + n < 2 * n * r + 2 * n
  {
    if |backlinks| == 0 then 0 else RoundDiv(Sum(backlinks, RankOf), |backlinks|)
  }

  /** The average lies within the range of the ranks it averages. */
  lemma AvgRankWithinRanks(backlinks: seq<Backlink>, lo: int, hi: int)
    requires |backlinks| > 0 && lo <= hi
    requires forall i :: 0 <= i < |backlinks| ==> lo <= RankOf(backlinks[i]) <= hi
    ensures lo <= CalculateAvgRank(backlinks) <= hi
  {
    forall x | x in backlinks
      ensures lo <= RankOf(x) <= hi
    {
      var i :| 0 <= i < |backlinks| && backlinks[i] == x;
    }
    SumBetween(backlinks, RankOf, lo, hi);
    RoundDivBetween(Sum(backlinks, RankOf), |backlinks|, lo, hi);
  }

  /** Ranks 10, missing and 21 average to 31 / 3, which rounds to 10. */
  lemma AvgRankCountsMissingRankAsZero()
    ensures CalculateAvgRank([Backlink(Some(10), None, None), Backlink(None, None, None),
                              Backlink(Some(21), None, None)]) == 10
  {
    var a, b, c := Backlink(Some(10), None, None), Backlink(None, None, None), Backlink(Some(21), None, None);
    assert [a, b, c][..2] == [a, b] && [a, b][..1] == [a] && [a][..0] == [];
    assert Sum([a], RankOf) == 10;
    assert Sum([a, b], RankOf) == Sum([a], RankOf) + RankOf(b) == 10;
    assert Sum([a, b, c], RankOf) == Sum([a, b], RankOf) + RankOf(c) == 31;
  }

  /** A mean of one half rounds up: ranks 1 and 2 average to 2. */
  lemma AvgRankRoundsHalfUp()
    ensures CalculateAvgRank([Backlink(Some(1), None, None), Backlink(Some(2), None, None)]) == 2
  {
    var a, b := Backlink(Some(1), None, None), Backlink(Some(2), None, None);
    assert [a, b][..1] == [a] && [a][..0] == [];
    assert Sum([a], RankOf) == 1;
    assert Sum([a, b], RankOf) == Sum([a], RankOf) + RankOf(b) == 3;
  }

  /** The record runBacklinkAudit returns. */
  datatype BacklinkData = BacklinkData(
    totalBacklinks: int, referringDomains: int, dofollowLinks: int, nofollowLinks: int,
    toxicLinks: int, avgDomainRank: int)

  /** What runBacklinkAudit computes from the summary reply and the backlink list reply. */
  function BacklinkPhase(summaryReply: Reply<RawBacklinkSummary>, linksReply: Reply<Backlink>): (r: Result<BacklinkData, ApiFailure>)
    ensures r.Success? <==> IsOk(summaryReply.status) && IsOk(linksReply.status)
    ensures !IsOk(summaryReply.status) ==> r == Failure(HttpError(summaryReply.status))
    ensures IsOk(summaryReply.status) && !IsOk(linksReply.status) ==> r == Failure(HttpError(linksReply.status))
    ensures r.Success? ==>
      var links := ResultList(linksReply.tasks);
      && 0 <= r.value.toxicLinks <= 3 * |links|
      && r.value.avgDomainRank == CalculateAvgRank(links)
    ensures r.Success? ==>
      var s := GetBacklinkSummary(summaryReply).value;
      && r.value.toxicLinks == Toxicity(ResultList(linksReply.tasks))
      && r.value.totalBacklinks == s.totalBacklinks && r.value.referringDomains == s.referringDomains
      && r.value.dofollowLinks == s.dofollow && r.value.nofollowLinks == s.nofollow
  {
    match GetBacklinkSummary(summaryReply)
    case Failure(e) => Failure(e)
    case Success(summary) =>
      match GetResultList(linksReply)
      case Failure(e) => Failure(e)
      case Success(links) =>
        ToxicityBounds(links);
        Success(BacklinkData(summary.totalBacklinks, summary.referringDomains, summary.dofollow,
                             summary.nofollow, Toxicity(links), CalculateAvgRank(links)))
  }

  // ---------------------------------------------------------------------------
  // generateAISummary

  /** The three lists of the language model's analysis. */
  datatype AiSummary = AiSummary(critical: seq<string>, warnings: seq<string>, good: seq<string>)

  /** What became of the language model call, as far as the engine can tell. */
  datatype LlmReply =
    | CallFailed                  // invokeLLM threw, or its reply had no first choice
    | NoContent                   // the content was "" or undefined, so the default document is parsed
    | NotJson                     // the content did not parse as JSON
    | NullJson                    // the content was null or the text "null", which parses to null
    | Analysis(summary: AiSummary) // the content parsed as the requested object

  /** generateAISummary: the parsed analysis (None for a null document), the empty
      analysis when there was no content, or the failure the call or parse threw. */
  function SummaryPhase(reply: LlmReply): (r: Result<Option<AiSummary>, AuditError>)
    ensures r.Failure? <==> reply.CallFailed? || reply.NotJson?
    ensures r.Failure? ==> r.error == SummaryFailed
    ensures reply.NoContent? ==> r == Success(Some(AiSummary([], [], [])))
    ensures reply.Analysis? ==> r == Success(Some(reply.summary))
    ensures r == Success(None) <==> reply.NullJson?
  {
    match reply
    case CallFailed => Failure(SummaryFailed)
    case NotJson => Failure(SummaryFailed)
    case NoContent => Success(Some(AiSummary([], [], [])))
    case NullJson => Success(None)
    case Analysis(summary) => Success(Some(summary))
  }

  // ---------------------------------------------------------------------------
  // The audits and auditReports tables

  datatype Status = Pending | Running | Completed | Failed

  /** The columns of an audits row that the engine writes. */
  datatype AuditRow = AuditRow(status: Status, creditsUsed: int, startedAt: Option<int>, completedAt: Option<int>)

  /** The three updateAudit calls of runFullAudit. */
  datatype AuditPatch =
    | SetRunning(startedAt: int)
    | SetCompleted(completedAt: int, credits: int)
    | SetFailed(completedAt: int, credits: int)

  function ApplyPatch(row: AuditRow, patch: AuditPatch): (r: AuditRow)
    ensures r.status != Pending
    ensures patch.SetRunning? ==>
      r == row.(status := Running, startedAt := Some(patch.startedAt))
    ensures patch.SetCompleted? ==>
      r == row.(status := Completed, completedAt := Some(patch.completedAt), creditsUsed := patch.credits)
    ensures patch.SetFailed? ==>
      r == row.(status := Failed, completedAt := Some(patch.completedAt), creditsUsed := patch.credits)
  {
    match patch
    case SetRunning(at) => row.(status := Running, startedAt := Some(at))
    case SetCompleted(at, credits) => row.(status := Completed, completedAt := Some(at), creditsUsed := credits)
    case SetFailed(at, credits) => row.(status := Failed, completedAt := Some(at), creditsUsed := credits)
  }

  /** updateAudit: an update keyed by id, which changes nothing when no row has that id. */
  function PatchAudit(audits: map<int, AuditRow>, id: int, patch: AuditPatch): (r: map<int, AuditRow>)
    ensures r.Keys == audits.Keys
    ensures id in audits ==> r[id] == ApplyPatch(audits[id], patch)
    ensures forall j :: j in audits && j != id ==> r[j] == audits[j]
  {
    if id in audits then audits[id := ApplyPatch(audits[id], patch)] else audits
  }

  /** An auditReports row: the zero defaults until the final update fills it in. */
  datatype Report = Report(onPage: Option<OnPageMetrics>, backlinks: Option<BacklinkData>, summary: Option<AiSummary>)

  /** The row createAuditReport inserts: only auditId is given, every metric keeps its default. */
  const EmptyReport := Report(None, None, None)

  /** updateAuditReport: an update keyed by auditId, which changes nothing when there is no such row. */
  function PatchReport(reports: map<int, Report>, id: int, report: Report): (r: map<int, Report>)
    ensures r.Keys == reports.Keys
    ensures id in reports ==> r[id] == report
    ensures forall j :: j in reports && j != id ==> r[j] == reports[j]
  {
    if id in reports then reports[id := report] else reports
  }

  /** The writes of runFullAudit, each of which may throw (no database, or the query failed). */
  datatype Write = StartWrite | ShellWrite | ReportWrite | CompleteWrite | FailWrite

  /** Why an audit failed. */
  datatype AuditError =
    | Api(failure: ApiFailure)   // a provider request failed, or the crawl did not start
    | TaskTimeout                // the crawl was not reported finished in time
    | SummaryFailed              // the language model call or the parse of its reply threw
    | SummaryNull                // the analysis was null, so reading its lists threw
    | DatabaseUnavailable        // a database write threw
    | DuplicateReport            // a report row for this audit already existed (auditId is unique)

  /** The tables the engine writes. */
  class AuditStore {
    var audits: map<int, AuditRow>
    var reports: map<int, Report>

    constructor(audits: map<int, AuditRow>, reports: map<int, Report>)
      ensures this.audits == audits && this.reports == reports
    {
      this.audits := audits;
      this.reports := reports;
    }

    /** updateAudit */
    method UpdateAudit(id: int, patch: AuditPatch, broken: bool) returns (ok: bool)
      modifies this
      ensures ok == !broken
      ensures audits == if ok then PatchAudit(old(audits), id, patch) else old(audits)
      ensures reports == old(reports)
    {
      if broken {
        return false;
      }
      audits := PatchAudit(audits, id, patch);
      return true;
    }

    /** createAuditReport: inserts the empty report, unless the write fails or one exists. */
    method CreateAuditReport(id: int, broken: bool) returns (error: Option<AuditError>)
      modifies this
      ensures error == CreateReportError(old(reports), id, broken)
      ensures reports == if error.None? then old(reports)[id := EmptyReport] else old(reports)
      ensures audits == old(audits)
    {
      if broken {
        return Some(DatabaseUnavailable);
      }
      if id in reports {
        return Some(DuplicateReport);
      }
      reports := reports[id := EmptyReport];
      return None;
    }

    /** updateAuditReport */
    method UpdateAuditReport(id: int, report: Report, broken: bool) returns (ok: bool)
      modifies this
      ensures ok == !broken
      ensures reports == if ok then PatchReport(old(reports), id, report) else old(reports)
      ensures audits == old(audits)
    {
      if broken {
        return false;
      }
      reports := PatchReport(reports, id, report);
      return true;
    }
  }

  /** Why createAuditReport throws, if it does. */
  function CreateReportError(reports: map<int, Report>, id: int, broken: bool): (r: Option<AuditError>)
    ensures r.None? <==> !broken && id !in reports
    ensures r == Some(DuplicateReport) <==> !broken && id in reports
  {
    if broken then Some(DatabaseUnavailable)
    else if id in reports then Some(DuplicateReport)
    else None
  }

  // ---------------------------------------------------------------------------
  // runFullAudit

  /** Everything outside the engine that one run observes. */
  datatype World = World(
    crawlStart: Reply<TaskPost>,           // on_page/task_post
    readiness: nat -> Reply<ReadyTask>,    // on_page/tasks_ready, poll by poll
    clock: nat -> int,                     // Date.now() readings of waitForTask
    onPageSummary: Reply<CrawlSummary>,    // on_page/summary
    onPagePages: Reply<Page>,              // on_page/pages
    backlinkSummary: Reply<RawBacklinkSummary>, // backlinks/summary/live
    backlinks: Reply<Backlink>,            // backlinks/backlinks/live
    llm: LlmReply,                         // invokeLLM and JSON.parse
    startedAt: int,                        // new Date() when the audit starts running
    finishedAt: int,                       // new Date() when the audit completes or fails
    brokenWrites: set<Write>)              // the database writes that throw

  /** What runOnPageAudit computes: start the crawl, wait for it, then aggregate its pages. */
  function OnPagePhase(w: World): (r: Result<OnPageMetrics, AuditError>)
    requires ClockSteady(w.clock, PollInterval)
    ensures StartOnPageCrawl(w.crawlStart).Failure? ==> r == Failure(Api(StartOnPageCrawl(w.crawlStart).error))
    ensures StartOnPageCrawl(w.crawlStart).Success? ==>
      var wait := WaitFrom(w.clock, w.readiness, StartOnPageCrawl(w.crawlStart).value, CrawlTimeout, PollInterval, 0);
      && (wait.TimedOut? ==> r == Failure(TaskTimeout))
      && (wait.PollFailed? ==> r == Failure(Api(wait.error)))
    ensures
      && StartOnPageCrawl(w.crawlStart).Success?
      && WaitFrom(w.clock, w.readiness, StartOnPageCrawl(w.crawlStart).value, CrawlTimeout, PollInterval, 0).Ready?
      ==>
      && (!IsOk(w.onPageSummary.status) ==> r == Failure(Api(HttpError(w.onPageSummary.status))))
      && (IsOk(w.onPageSummary.status) && !IsOk(w.onPagePages.status) ==>
            r == Failure(Api(HttpError(w.onPagePages.status))))
      && (IsOk(w.onPageSummary.status) && IsOk(w.onPagePages.status) ==> r.Success?)
    ensures r.Success? ==> StartOnPageCrawl(w.crawlStart).Success?
    ensures r.Success? ==>
      WaitFrom(w.clock, w.readiness, StartOnPageCrawl(w.crawlStart).value, CrawlTimeout, PollInterval, 0).Ready?
    ensures r.Success? ==>
      r.value == Metrics(ResultList(w.onPagePages.tasks), FirstResult(w.onPageSummary.tasks))
  {
    match StartOnPageCrawl(w.crawlStart)
    case Failure(e) => Failure(Api(e))
    case Success(taskId) =>
      match WaitFrom(w.clock, w.readiness, taskId, CrawlTimeout, PollInterval, 0)
      case PollFailed(e, _) => Failure(Api(e))
      case TimedOut(_) => Failure(TaskTimeout)
      case Ready(_) =>
        match GetOnPageSummary(w.onPageSummary)
        case Failure(e) => Failure(Api(e))
        case Success(summary) =>
          match GetResultList(w.onPagePages)
          case Failure(e) => Failure(Api(e))
          case Success(pages) => Success(Metrics(pages, summary))
  }

  /** The report the final updateAuditReport writes. */
  function FinalReport(onPage: OnPageMetrics, backlinks: BacklinkData, summary: AiSummary): Report
  {
    Report(Some(onPage), Some(backlinks), Some(summary))
  }

  /** What one run observes, phase by phase: the three phases' results, the two
      timestamps and the writes that throw. */
  datatype Observed = Observed(
    onPage: Result<OnPageMetrics, AuditError>,
    backlinks: Result<BacklinkData, ApiFailure>,
    summary: Result<Option<AiSummary>, AuditError>,
    startedAt: int, finishedAt: int, brokenWrites: set<Write>)

  /** The phase results a world yields. Every request is answered by its own reply, so
      a phase that the run does not reach has no effect on the outcome. */
  function Observe(w: World): Observed
    requires ClockSteady(w.clock, PollInterval)
  {
    Observed(OnPagePhase(w), BacklinkPhase(w.backlinkSummary, w.backlinks), SummaryPhase(w.llm),
             w.startedAt, w.finishedAt, w.brokenWrites)
  }

  /** The state the try block of runFullAudit leaves: the error it threw, if any,
      the engine's credit counter and the two tables. */
  datatype Attempt = Attempt(error: Option<AuditError>, credits: int, audits: map<int, AuditRow>, reports: map<int, Report>)

  /** The try block of runFullAudit, from the given credit counter and tables. */
  function TryAudit(id: int, credits: int, audits: map<int, AuditRow>, reports: map<int, Report>, w: Observed): Attempt
  {
    if StartWrite in w.brokenWrites then Attempt(Some(DatabaseUnavailable), credits, audits, reports)
    else
      var running := PatchAudit(audits, id, SetRunning(w.startedAt));
      var created := CreateReportError(reports, id, ShellWrite in w.brokenWrites);
      if created.Some? then Attempt(created, credits, running, reports)
      else RunPhases(id, credits, running, reports[id := EmptyReport], w)
  }

  /** The three phases, each charged once it has returned, and the final writes. */
  function RunPhases(id: int, credits: int, audits: map<int, AuditRow>, reports: map<int, Report>, w: Observed): Attempt
  {
    match w.onPage
    case Failure(e) => Attempt(Some(e), credits, audits, reports)
    case Success(onPage) =>
      match w.backlinks
      case Failure(e) => Attempt(Some(Api(e)), credits + OnPageCredits, audits, reports)
      case Success(backlinks) =>
        match w.summary
        case Failure(e) => Attempt(Some(e), credits + OnPageCredits + BacklinkCredits, audits, reports)
        case Success(summary) =>
          var charged := credits + OnPageCredits + BacklinkCredits + SummaryCredits;
          if summary.None? then Attempt(Some(SummaryNull), charged, audits, reports)
          else if ReportWrite in w.brokenWrites then Attempt(Some(DatabaseUnavailable), charged, audits, reports)
          else
            var saved := PatchReport(reports, id, FinalReport(onPage, backlinks, summary.value));
            if CompleteWrite in w.brokenWrites then Attempt(Some(DatabaseUnavailable), charged, audits, saved)
            else Attempt(None, charged, PatchAudit(audits, id, SetCompleted(w.finishedAt, charged)), saved)
  }

  /** What runFullAudit resolves to. */
  datatype AuditResult = AuditResult(success: bool, creditsUsed: int, error: Option<AuditError>)

  /** The state after runFullAudit: its result (None when the promise rejects because
      the write in the catch block threw too), the credit counter and the tables. */
  datatype Outcome = Outcome(result: Option<AuditResult>, credits: int, audits: map<int, AuditRow>, reports: map<int, Report>)

  /** runFullAudit: the try block, and on any error the catch block's failed-status write. */
  function Orchestrate(id: int, credits: int, audits: map<int, AuditRow>, reports: map<int, Report>, w: Observed): Outcome
  {
    var a := TryAudit(id, credits, audits, reports, w);
    if a.error.None? then Outcome(Some(AuditResult(true, a.credits, None)), a.credits, a.audits, a.reports)
    else if FailWrite in w.brokenWrites then Outcome(None, a.credits, a.audits, a.reports)
    else Outcome(Some(AuditResult(false, a.credits, a.error)), a.credits,
                 PatchAudit(a.audits, id, SetFailed(w.finishedAt, a.credits)), a.reports)
  }

  // ---------------------------------------------------------------------------
  // Properties of runFullAudit

  /** Credits are charged per finished phase, so a run adds 0, 250, 295 or 345, and the
      result reports the counter; a successful run has charged all three phases. */
  lemma CreditsCharged(id: int, credits: int, audits: map<int, AuditRow>, reports: map<int, Report>, w: Observed)
    ensures var o := Orchestrate(id, credits, audits, reports, w);
      && (o.credits == credits || o.credits == credits + 250
          || o.credits == credits + 295 || o.credits == credits + 345)
      && (o.result.Some? ==> o.result.value.creditsUsed == o.credits)
      && (o.result.Some? && o.result.value.success ==> o.credits == credits + 345)
  {
  }

  /** A run succeeds exactly when every write, every provider request and the summary
      succeed and no report exists yet; the audit is then completed with 345 more
      credits and the report holds the three phases' results. */
  lemma CompletedIffEverythingSucceeds(id: int, credits: int, audits: map<int, AuditRow>, reports: map<int, Report>, w: Observed)
    ensures var o := Orchestrate(id, credits, audits, reports, w);
      (o.result.Some? && o.result.value.success) <==>
        && StartWrite !in w.brokenWrites && ShellWrite !in w.brokenWrites
        && ReportWrite !in w.brokenWrites && CompleteWrite !in w.brokenWrites
        && id !in reports
        && w.onPage.Success?
        && w.backlinks.Success?
        && w.summary.Success? && w.summary.value.Some?
    ensures var o := Orchestrate(id, credits, audits, reports, w);
      o.result.Some? && o.result.value.success ==>
        && o.reports == reports[id := FinalReport(w.onPage.value, w.backlinks.value,
                                                  w.summary.value.value)]
        && (id in audits ==>
              o.audits[id] == audits[id].(status := Completed, creditsUsed := credits + 345,
                                          startedAt := Some(w.startedAt), completedAt := Some(w.finishedAt)))
  {
  }

  /** When the catch block's write succeeds the run resolves, and then the audit row
      ends completed or failed, as the result says, recording the credit counter. */
  lemma EndsInTerminalState(id: int, credits: int, audits: map<int, AuditRow>, reports: map<int, Report>, w: Observed)
    requires id in audits
    ensures var o := Orchestrate(id, credits, audits, reports, w);
      FailWrite !in w.brokenWrites ==> o.result.Some?
    ensures var o := Orchestrate(id, credits, audits, reports, w);
      o.result.Some? ==>
        && o.audits[id].status == (if o.result.value.success then Completed else Failed)
        && o.audits[id].creditsUsed == o.credits
        && o.audits[id].completedAt == Some(w.finishedAt)
  {
  }

  /** The run never writes the pending status: a pending row after the run is one it left untouched. */
  lemma NeverBackToPending(id: int, credits: int, audits: map<int, AuditRow>, reports: map<int, Report>, w: Observed)
    requires id in audits
    ensures var o := Orchestrate(id, credits, audits, reports, w);
      id in o.audits && (o.audits[id].status == Pending ==> o.audits[id] == audits[id])
  {
  }

  /** The two tables after the try block differ from the given ones at most in the rows of `id`. */
  predicate OnlyRowsOf(id: int, audits: map<int, AuditRow>, reports: map<int, Report>,
                       audits': map<int, AuditRow>, reports': map<int, Report>)
  {
    && audits'.Keys == audits.Keys
    && (forall j :: j in audits && j != id ==> audits'[j] == audits[j])
    && reports.Keys <= reports'.Keys <= reports.Keys + {id}
    && (forall j :: j in reports && j != id ==> reports'[j] == reports[j])
  }

  lemma PhasesTouchOnlyOwnRows(id: int, credits: int, audits: map<int, AuditRow>, reports: map<int, Report>, w: Observed)
    ensures var a := RunPhases(id, credits, audits, reports, w);
      OnlyRowsOf(id, audits, reports, a.audits, a.reports)
  {
  }

  /** The run touches only its own audit row and report row. */
  lemma OnlyOwnRowsChange(id: int, credits: int, audits: map<int, AuditRow>, reports: map<int, Report>, w: Observed)
    ensures var o := Orchestrate(id, credits, audits, reports, w);
      OnlyRowsOf(id, audits, reports, o.audits, o.reports)
  {
    if StartWrite !in w.brokenWrites {
      var running := PatchAudit(audits, id, SetRunning(w.startedAt));
      if CreateReportError(reports, id, ShellWrite in w.brokenWrites).None? {
        PhasesTouchOnlyOwnRows(id, credits, running, reports[id := EmptyReport], w);
      }
    }
  }

  /** Once the audit is running and its empty report exists, a failing phase stops the
      run with the credits of the phases before it, and the report stays empty. */
  lemma FailedPhaseKeepsEarlierCredits(id: int, credits: int, audits: map<int, AuditRow>, reports: map<int, Report>, w: Observed)
    requires StartWrite !in w.brokenWrites && ShellWrite !in w.brokenWrites && id !in reports
    ensures var o := Orchestrate(id, credits, audits, reports, w);
      w.onPage.Failure? ==>
        && o.credits == credits && o.reports[id] == EmptyReport
        && (FailWrite !in w.brokenWrites ==> o.result == Some(AuditResult(false, credits, Some(w.onPage.error))))
    ensures var o := Orchestrate(id, credits, audits, reports, w);
      w.onPage.Success? && w.backlinks.Failure? ==>
        && o.credits == credits + 250 && o.reports[id] == EmptyReport
        && (FailWrite !in w.brokenWrites ==>
              o.result == Some(AuditResult(false, credits + 250, Some(Api(w.backlinks.error)))))
    ensures var o := Orchestrate(id, credits, audits, reports, w);
      w.onPage.Success? && w.backlinks.Success? && w.summary.Failure? ==>
        && o.credits == credits + 295 && o.reports[id] == EmptyReport
        && (FailWrite !in w.brokenWrites ==> o.result == Some(AuditResult(false, credits + 295, Some(w.summary.error))))
  {
  }

  /** A crawl that is not reported finished in time fails the audit with nothing charged. */
  lemma CrawlTimeoutFailsAudit(id: int, credits: int, audits: map<int, AuditRow>, reports: map<int, Report>, w: World)
    requires ClockSteady(w.clock, PollInterval)
    requires StartWrite !in w.brokenWrites && ShellWrite !in w.brokenWrites && FailWrite !in w.brokenWrites
    requires id in audits && id !in reports
    requires StartOnPageCrawl(w.crawlStart).Success?
    requires WaitFrom(w.clock, w.readiness, StartOnPageCrawl(w.crawlStart).value, CrawlTimeout, PollInterval, 0).TimedOut?
    ensures var o := Orchestrate(id, credits, audits, reports, Observe(w));
      && o.result == Some(AuditResult(false, credits, Some(TaskTimeout)))
      && o.audits[id].status == Failed && o.audits[id].creditsUsed == credits
      && o.reports[id] == EmptyReport
  {
    FailedPhaseKeepsEarlierCredits(id, credits, audits, reports, Observe(w));
  }

  /** A null analysis (the JSON literal null, see SummaryPhase) throws only after all three
      phases were charged: the audit fails with 345 more credits and an empty report. */
  lemma NullAnalysisFailsFullyCharged(id: int, credits: int, audits: map<int, AuditRow>, reports: map<int, Report>, w: Observed)
    requires StartWrite !in w.brokenWrites && ShellWrite !in w.brokenWrites && FailWrite !in w.brokenWrites
    requires id in audits && id !in reports
    requires w.onPage.Success? && w.backlinks.Success? && w.summary == Success(None)
    ensures var o := Orchestrate(id, credits, audits, reports, w);
      && o.result == Some(AuditResult(false, credits + 345, Some(SummaryNull)))
      && o.audits[id].status == Failed && o.audits[id].creditsUsed == credits + 345
      && o.reports[id] == EmptyReport
  {
  }

  /** The audit engine of one audit, with its credit counter. */
  class Engine {
    const auditId: int
    const domain: string
    var creditsUsed: int

    constructor(auditId: int, domain: string)
      ensures this.auditId == auditId && this.domain == domain && creditsUsed == 0
    {
      this.auditId := auditId;
      this.domain := domain;
      creditsUsed := 0;
    }

    /** waitForTask: poll until the task is reported finished or the deadline passes. */
    method WaitForTask(clock: nat -> int, replies: nat -> Reply<ReadyTask>, taskId: string,
                       timeout: int, interval: int) returns (w: Wait)
      requires interval > 0 && ClockSteady(clock, interval)
      ensures w == WaitFrom(clock, replies, taskId, timeout, interval, 0)
    {
      var startTime := clock(0);
      var polls: nat := 0;
      while clock(polls + 1) - startTime < timeout
        invariant WaitFrom(clock, replies, taskId, timeout, interval, polls)
               == WaitFrom(clock, replies, taskId, timeout, interval, 0)
        decreases timeout - (clock(polls + 1) - startTime)
      {
        var status := GetTaskStatus(replies(polls), taskId);
        assert IntervalPassed(clock, interval, polls + 1);
        polls := polls + 1;
        if status.Failure? {
          return PollFailed(status.error, polls);
        }
        if status.value.Some? && status.value.value.statusCode == Some(TaskReadyCode) {
          return Ready(polls);
        }
      }
      return TimedOut(polls);
    }

    /** runOnPageAudit */
    method RunOnPageAudit(w: World) returns (r: Result<OnPageMetrics, AuditError>)
      requires ClockSteady(w.clock, PollInterval)
      ensures r == OnPagePhase(w)
    {
      var started := StartOnPageCrawl(w.crawlStart);
      if started.Failure? {
        return Failure(Api(started.error));
      }
      var taskId := started.value;
      var wait := WaitForTask(w.clock, w.readiness, taskId, CrawlTimeout, PollInterval);
      if wait.PollFailed? {
        return Failure(Api(wait.error));
      }
      if wait.TimedOut? {
        return Failure(TaskTimeout);
      }
      var summary := GetOnPageSummary(w.onPageSummary);
      if summary.Failure? {
        return Failure(Api(summary.error));
      }
      var pages := GetResultList(w.onPagePages);
      if pages.Failure? {
        return Failure(Api(pages.error));
      }
      var metrics := AnalyzePages(pages.value, summary.value);
      return Success(metrics);
    }

    /** runBacklinkAudit */
    method RunBacklinkAudit(w: World) returns (r: Result<BacklinkData, ApiFailure>)
      ensures r == BacklinkPhase(w.backlinkSummary, w.backlinks)
    {
      var summary := GetBacklinkSummary(w.backlinkSummary);
      if summary.Failure? {
        return Failure(summary.error);
      }
      var backlinks := GetResultList(w.backlinks);
      if backlinks.Failure? {
        return Failure(backlinks.error);
      }
      var toxicLinks := AnalyzeBacklinkToxicity(backlinks.value);
      var s := summary.value;
      return Success(BacklinkData(s.totalBacklinks, s.referringDomains, s.dofollow, s.nofollow,
                                  toxicLinks, CalculateAvgRank(backlinks.value)));
    }

    /** The try block of runFullAudit. */
    method TryFullAudit(store: AuditStore, w: World) returns (error: Option<AuditError>)
      requires ClockSteady(w.clock, PollInterval)
      modifies this, store
      ensures var a := TryAudit(auditId, old(creditsUsed), old(store.audits), old(store.reports), Observe(w));
        && error == a.error && creditsUsed == a.credits
        && store.audits == a.audits && store.reports == a.reports
    {
      var ok := store.UpdateAudit(auditId, SetRunning(w.startedAt), StartWrite in w.brokenWrites);
      if !ok {
        return Some(DatabaseUnavailable);
      }
      error := store.CreateAuditReport(auditId, ShellWrite in w.brokenWrites);
      if error.Some? {
        return;
      }
      error := RunPhasesAndSave(store, w);
    }

    /** The phases of runFullAudit, each charged once it has returned, and the final writes. */
    method RunPhasesAndSave(store: AuditStore, w: World) returns (error: Option<AuditError>)
      requires ClockSteady(w.clock, PollInterval)
      modifies this, store
      ensures var a := RunPhases(auditId, old(creditsUsed), old(store.audits), old(store.reports), Observe(w));
        && error == a.error && creditsUsed == a.credits
        && store.audits == a.audits && store.reports == a.reports
    {
      var onPage := RunOnPageAudit(w);
      if onPage.Failure? {
        return Some(onPage.error);
      }
      creditsUsed := creditsUsed + OnPageCredits;

      var backlinks := RunBacklinkAudit(w);
      if backlinks.Failure? {
        return Some(Api(backlinks.error));
      }
      creditsUsed := creditsUsed + BacklinkCredits;

      var summary := SummaryPhase(w.llm);
      if summary.Failure? {
        return Some(summary.error);
      }
      creditsUsed := creditsUsed + SummaryCredits;

      if summary.value.None? {
        return Some(SummaryNull);
      }
      var report := FinalReport(onPage.value, backlinks.value, summary.value.value);
      var ok := store.UpdateAuditReport(auditId, report, ReportWrite in w.brokenWrites);
      if !ok {
        return Some(DatabaseUnavailable);
      }
      ok := store.UpdateAudit(auditId, SetCompleted(w.finishedAt, creditsUsed), CompleteWrite in w.brokenWrites);
      if !ok {
        return Some(DatabaseUnavailable);
      }
      return None;
    }

    /** runFullAudit */
    method RunFullAudit(store: AuditStore, w: World) returns (result: Option<AuditResult>)
      requires ClockSteady(w.clock, PollInterval)
      modifies this, store
      ensures var o := Orchestrate(auditId, old(creditsUsed), old(store.audits), old(store.reports), Observe(w));
        && result == o.result && creditsUsed == o.credits
        && store.audits == o.audits && store.reports == o.reports
    {
      var error := TryFullAudit(store, w);
      if error.None? {
        return Some(AuditResult(true, creditsUsed, None));
      }
      var ok := store.UpdateAudit(auditId, SetFailed(w.finishedAt, creditsUsed), FailWrite in w.brokenWrites);
      if !ok {
        return None;
      }
      return Some(AuditResult(false, creditsUsed, error));
    }
  }
}
