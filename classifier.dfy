/**
 * The outer `except` of `request`: upstream failures are re-raised as they are, after reporting a
 * 401 to the token service; any other `Exception` becomes an upstream failure with status 502.
 */
module Classifier {
  import opened Wrappers
  import opened Exceptions
  import opened Envelope

  const AuthFailedReason: string := "assets_download_auth_failed"

  /** A call of `TokenService.record_fail(token, status, reason)`. */
  datatype FailReport = FailReport(token: string, status: int, reason: string)

  /** How the `record_fail` call ended: normally, or by raising. */
  datatype Notice = Recorded | NoticeRaised(error: Exc)

  datatype Classified = Classified(outcome: Result<Response, Exc>, reports: seq<FailReport>)

  /** `record_fail` is awaited inside `try/except Exception: pass`, so only a `BaseException` escapes it. */
  predicate NoticeEscapes(notice: Notice) {
    notice.NoticeRaised? && !IsException(notice.error)
  }

  /** The upstream failure that stands for an unclassified exception `e`: status 502 and `str(e)`. */
  function Wrapped(text: string): (e: Exc)
    ensures e.UpstreamException? && e.details.Keys == {"status", "error"}
    ensures StatusOf(e) == VInt(502) && e.details["error"] == VStr(text)
    ensures e.message == FailurePrefix + text
  {
    UpstreamException(FailurePrefix + text, map["status" := VInt(502), "error" := VStr(text)], VNone)
  }

  /** Needs a report to the token service: an upstream failure whose status is 401. */
  predicate IsAuthFailure(e: Exc) {
    e.UpstreamException? && StatusOf(e) == VInt(401)
  }

  /**
   * What `request` returns or raises, given what the body of its `try` returned or raised, and the
   * reports it files; `notice` is how the `record_fail` call, if made, ends.
   */
  function Classify(r: Result<Response, Exc>, token: string, notice: Notice): (c: Classified)
    ensures r.Success? ==> c == Classified(r, [])
    ensures c.outcome.Failure? <==> r.Failure?
    ensures c.outcome.Failure? ==> c.outcome.error.UpstreamException? || c.outcome.error.BaseException?
    ensures |c.reports| <= 1
    ensures |c.reports| == 1 <==> r.Failure? && IsAuthFailure(r.error)
    ensures c.reports != [] ==> c.reports[0] == FailReport(token, 401, AuthFailedReason)
    ensures r.Failure? && r.error.UpstreamException? && (!IsAuthFailure(r.error) || !NoticeEscapes(notice)) ==> c.outcome == r
    ensures r.Failure? && IsAuthFailure(r.error) && NoticeEscapes(notice) ==> c.outcome == Failure(notice.error)
    ensures r.Failure? && r.error.BaseException? ==> c.outcome == r
    ensures r.Failure? && r.error.OtherException? ==> c.outcome == Failure(Wrapped(r.error.text))
  {
    match r
    case Success(_) => Classified(r, [])
    case Failure(e) =>
      match e
      case BaseException(_) => Classified(r, [])
      case OtherException(_, text) => Classified(Failure(Wrapped(text)), [])
      case UpstreamException(_, _, _) =>
        if StatusOf(e) == VInt(401) then
          var report := [FailReport(token, 401, AuthFailedReason)];
          if NoticeEscapes(notice) then Classified(Failure(notice.error), report) else Classified(r, report)
        else
          Classified(r, [])
  }

  /** Whether `record_fail` succeeded or raised an `Exception` makes no difference to the caller. */
  lemma RecordFailErrorSwallowed(r: Result<Response, Exc>, token: string, n1: Notice, n2: Notice)
    requires !NoticeEscapes(n1) && !NoticeEscapes(n2)
    ensures Classify(r, token, n1) == Classify(r, token, n2)
  {
  }
}
