/**
 * `callOpenAI`: runs a request to the completion service and maps a quota or billing
 * failure to the one recognisable error `openai_quota`; every other error is rethrown
 * unchanged and a result passes through untouched. The request itself is not modelled:
 * its outcome is a value given to the model.
 */
module OpenAI {
  import opened Text
  import opened Options

  /**
   * A thrown error: `message` is the error's own `message` ("" when it has none) and
   * `detail` is the service's nested `error.message`, when present.
   */
  datatype ApiError = ApiError(message: string, detail: Option<string>)

  /** What a request does: returns a value or throws an error. */
  datatype Outcome<+T> = Returned(value: T) | Threw(error: ApiError)

  const QuotaMarkers := ["insufficient_quota", "billing_hard_limit", "You exceeded"]

  /** The error `new Error("openai_quota")`. */
  const QuotaError := ApiError("openai_quota", None)

  /** `err?.error?.message || err.message || "unknown error"`: the first non-empty one. */
  function ErrorText(e: ApiError): string {
    if e.detail.Some? && e.detail.value != "" then e.detail.value
    else if e.message != "" then e.message
    else "unknown error"
  }

  /** The error text names a quota or billing exhaustion (a case-sensitive substring test). */
  predicate IsQuotaExhausted(e: ApiError) {
    ContainsAny(ErrorText(e), QuotaMarkers)
  }

  function CallOpenAI<T>(o: Outcome<T>): (r: Outcome<T>)
    ensures o.Returned? ==> r == o
    ensures o.Threw? && IsQuotaExhausted(o.error) ==> r == Threw(QuotaError)
    ensures o.Threw? && !IsQuotaExhausted(o.error) ==> r == o
  {
    match o
    case Returned(_) => o
    case Threw(e) => if IsQuotaExhausted(e) then Threw(QuotaError) else o
  }

  /** The caller's test `err.message === "openai_quota"`. */
  predicate IsQuotaSignal(e: ApiError) {
    e.message == "openai_quota"
  }

  /**
   * The caller sees the quota signal exactly when the service reported a quota or
   * billing exhaustion, or when some other error already carried that very message;
   * a successful request never produces it.
   */
  lemma QuotaSignalIff<T>(o: Outcome<T>)
    ensures CallOpenAI(o).Threw? && IsQuotaSignal(CallOpenAI(o).error) <==>
            o.Threw? && (IsQuotaExhausted(o.error) || IsQuotaSignal(o.error))
    ensures CallOpenAI(o).Threw? <==> o.Threw?
  {
  }

  /** A message from the billing system, however it is worded around the marker, becomes the quota error. */
  lemma QuotaMarkerInDetail<T>(e: ApiError, k: nat, i: nat)
    requires k < |QuotaMarkers| && e.detail.Some? && IsAt(e.detail.value, i, QuotaMarkers[k])
    ensures CallOpenAI<T>(Threw(e)) == Threw(QuotaError)
  {
    assert e.detail.value != "";
    assert Contains(ErrorText(e), QuotaMarkers[k]);
  }
}
