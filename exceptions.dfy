/**
 * The exceptions that cross the download adapter. Python's `except Exception` catches
 * `UpstreamException` and every other `Exception`, but not a `BaseException` that is not an
 * `Exception` (task cancellation, for one); the three constructors keep those apart.
 */
module Exceptions {
  import opened PyText

  /** A value stored in an exception's `details` mapping or in its `status_code` attribute. */
  datatype Value = VInt(i: int) | VStr(s: string) | VNone

  datatype Exc =
    | UpstreamException(message: string, details: map<string, Value>, statusCode: Value)
    | OtherException(typeName: string, text: string)
    | BaseException(typeName: string)

  /** Caught by a Python `except Exception` clause. */
  predicate IsException(e: Exc) {
    !e.BaseException?
  }

  const FailurePrefix: string := "AssetsDownloadReverse: Download failed, "

  /**
   * The status an upstream failure reports: `details["status"]` when the details hold one,
   * otherwise the `status_code` attribute (`VNone` when the attribute is absent).
   * An empty `details` mapping is falsy in Python and so falls through to the attribute.
   */
  function StatusOf(e: Exc): (s: Value)
    requires e.UpstreamException?
    ensures "status" in e.details ==> s == e.details["status"]
    ensures "status" !in e.details ==> s == e.statusCode
  {
    if e.details != map[] && "status" in e.details then e.details["status"] else e.statusCode
  }

  /**
   * The `UpstreamException` raised for a non-200 answer: its message names the status and its
   * details are exactly `{"status": status}`. The `status_code` attribute that the exception class
   * assigns is outside this model and is left unset here; `StatusOf` never reads it for these.
   */
  function DownloadFailed(status: int): (e: Exc)
    ensures e.UpstreamException? && e.details.Keys == {"status"}
    ensures StatusOf(e) == VInt(status)
    ensures StartsWith(e.message, FailurePrefix)
  {
    UpstreamException(FailurePrefix + IntToDecimal(status), map["status" := VInt(status)], VNone)
  }
}
