/** The system diagnostics page (src/app/pro/diagnostics/page.tsx): the
    summary counts over a report's checks, and the state sequence of a
    diagnostics run. */
module DiagnosticsPage {
  import opened Common

  const UnknownError := "An unknown error occurred."

  /** A check's `status`: `'ok' | 'error' | 'pending'`. */
  datatype CheckStatus = CheckOk | CheckError | CheckPending

  /** The report: its overall status and the statuses of its checks, as
      `Object.values(checks)` lists them. */
  datatype Report = Report(overallStatus: string, checks: seq<CheckStatus>)

  datatype Counts = Counts(ok: nat, error: nat, total: nat)

  /** `checks.filter(c => c.status === st).length` */
  function CountOf(s: seq<CheckStatus>, st: CheckStatus): (n: nat)
    ensures n <= |s|
    ensures n == multiset(s)[st]
  {
    if s == [] then 0
    else
      assert s == [s[0]] + s[1..];
      (if s[0] == st then 1 else 0) + CountOf(s[1..], st)
  }

  /** `statusCounts`: zeros without a report, otherwise the checks that
      passed, those that failed, and all of them. */
  function StatusCounts(report: Option<Report>): (c: Counts)
    ensures report.None? ==> c == Counts(0, 0, 0)
    ensures report.Some? ==>
      && c.ok == multiset(report.value.checks)[CheckOk]
      && c.error == multiset(report.value.checks)[CheckError]
      && c.total == |report.value.checks|
    ensures c.ok + c.error <= c.total
  {
    match report
    case None => Counts(0, 0, 0)
    case Some(r) =>
      EveryCheckCounted(r.checks);
      Counts(CountOf(r.checks, CheckOk), CountOf(r.checks, CheckError), |r.checks|)
  }

  /** Every check has exactly one status, so the three counts add up to the total. */
  lemma {:induction false} EveryCheckCounted(s: seq<CheckStatus>)
    ensures CountOf(s, CheckOk) + CountOf(s, CheckError) + CountOf(s, CheckPending) == |s|
  {
    if s != [] {
      EveryCheckCounted(s[1..]);
    }
  }

  /** A pending check counts only towards the total. */
  lemma PendingCountsOnlyInTotal(r: Report)
    ensures var c, d := StatusCounts(Some(r)), StatusCounts(Some(r.(checks := r.checks + [CheckPending])));
            d == Counts(c.ok, c.error, c.total + 1)
  {
    assert multiset(r.checks + [CheckPending]) == multiset(r.checks) + multiset{CheckPending};
  }

  /** The page's state. */
  class Diagnostics {
    var isLoading: bool
    var report: Option<Report>
    var suggestions: Option<string>
    var error: Option<string>

    constructor ()
      ensures !isLoading && report.None? && suggestions.None? && error.None?
    {
      isLoading, report, suggestions, error := false, None, None, None;
    }

    /** The synchronous part of `handleRunDiagnostics`: without a user
        nothing changes; otherwise the previous outcome is cleared and
        loading starts. */
    method BeginRun(hasUser: bool) returns (started: bool)
      modifies this
      ensures started == hasUser
      ensures !hasUser ==> unchanged(this)
      ensures hasUser ==> isLoading && error.None? && report.None? && suggestions.None?
    {
      if !hasUser {
        return false;
      }
      isLoading := true;
      error := None;
      report := None;
      suggestions := None;
      return true;
    }

    /** The rest of the run, given the callable's outcome and the
        suggestion agent as a function of the report: the report is
        stored as soon as it arrives, the suggestions after it, any
        failure records its message, and loading ends in every case.
        After `BeginRun` the fields not named here are the cleared ones. */
    method CompleteRun(fetched: Result<Report>, suggest: Report -> Result<string>)
      modifies this
      ensures !isLoading
      ensures fetched.Err? ==>
        && report == old(report) && suggestions == old(suggestions)
        && error == Some(MessageOf(fetched.error, UnknownError))
      ensures fetched.Ok? ==> report == Some(fetched.value)
      ensures fetched.Ok? && suggest(fetched.value).Ok? ==>
        suggestions == Some(suggest(fetched.value).value) && error == old(error)
      ensures fetched.Ok? && suggest(fetched.value).Err? ==>
        && suggestions == old(suggestions)
        && error == Some(MessageOf(suggest(fetched.value).error, UnknownError))
    {
      match fetched {
        case Err(e) =>
          error := Some(MessageOf(e, UnknownError));
        case Ok(r) =>
          report := Some(r);
          match suggest(r) {
            case Ok(s) => suggestions := Some(s);
            case Err(e) => error := Some(MessageOf(e, UnknownError));
          }
      }
      isLoading := false;
    }

    /** The summary shown for the current report. */
    function Summary(): (c: Counts)
      reads this
      ensures report.None? ==> c.total == 0
      ensures c.ok + c.error <= c.total
    {
      StatusCounts(report)
    }
  }
}
