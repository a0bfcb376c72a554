/** The two axios interceptors of the client (src/keepa-client.ts:48-100):
    the rate limiter that spaces requests `rateLimitDelay` milliseconds
    apart, and the classifier that turns every failed call into a
    KeepaError. The clock is an explicit parameter; the sleep itself is not
    modelled, only the wait it is asked for. */
module Transport {
  import opened Wrappers
  import opened Text
  import opened KeepaTypes

  // ---- rate limiting ----

  /** How long requestInterceptor sleeps: what remains of the delay since the
      previous request, nothing once the delay has passed. */
  function WaitTime(last: int, delay: int, now: int): (w: int)
    ensures w >= 0
    ensures w == 0 <==> now - last >= delay
    ensures w > 0 ==> now + w == last + delay
  {
    var since := now - last;
    if since < delay then delay - since else 0
  }

  /** Whenever the clock after the sleep has advanced by at least the wait,
      the new request starts at least one delay after the previous one. */
  lemma PacedRequestsAreSpaced(last: int, delay: int, now: int, resumedAt: int)
    requires resumedAt >= now + WaitTime(last, delay, now)
    ensures resumedAt >= last + delay
  {
    if WaitTime(last, delay, now) == 0 {
      assert now - last >= delay;
    }
  }

  /** The client's pacing state: the time of the last request. */
  class RequestPacer {
    var lastRequestTime: int
    const rateLimitDelay: int

    /** `config.rateLimitDelay || 1000`, and no request yet. */
    constructor(delay: Option<int>)
      ensures rateLimitDelay == OrElse(delay, 1000)
      ensures lastRequestTime == 0
    {
      rateLimitDelay := OrElse(delay, 1000);
      lastRequestTime := 0;
    }

    /** requestInterceptor at clock `now`: asks for the wait, then records
        the clock read after it, `resumedAt`. */
    method Pace(now: int, resumedAt: int) returns (wait: int)
      modifies this
      ensures wait == WaitTime(old(lastRequestTime), rateLimitDelay, now)
      ensures lastRequestTime == resumedAt
      ensures resumedAt >= now + wait ==> lastRequestTime >= old(lastRequestTime) + rateLimitDelay
    {
      var since := now - lastRequestTime;
      wait := 0;
      if since < rateLimitDelay {
        wait := rateLimitDelay - since;
      }
      PacedRequestsAreSpaced(lastRequestTime, rateLimitDelay, now, if resumedAt >= now + wait then resumedAt else now + wait);
      lastRequestTime := resumedAt;
    }
  }

  // ---- error classification ----

  /** The `error` field of a Keepa error body, by its JavaScript type; an
      object arrives with its `JSON.stringify` text. */
  datatype ErrorField = TextField(text: string) | ObjectField(json: string) | OtherField

  /** `error.response.data`: status code, error field, remaining tokens. */
  datatype ErrorBody = ErrorBody(statusCode: Option<int>, error: ErrorField, tokensLeft: Option<int>)

  /** What reaches errorInterceptor: a response carrying data, or a thrown
      string, object (with its `message` and its JSON text) or other value. */
  datatype HttpFailure =
    | WithResponseData(body: ErrorBody)
    | ThrownText(text: string)
    | ThrownObject(message: string, json: string)
    | ThrownOther

  const ExhaustionPrefix := "\U{26A0}\U{FE0F} KEEPA TOKEN EXHAUSTION: You have "
  const ExhaustionSuffix := " tokens remaining. Please wait for tokens to refresh or upgrade your Keepa plan. Check your token status at https://keepa.com/#!api"

  function ExhaustionMessage(tokensLeft: int): string {
    ExhaustionPrefix + IntToString(tokensLeft) + ExhaustionSuffix
  }

  /** The count of remaining tokens can be read back from the message. */
  lemma ExhaustionReportsCount(tokensLeft: int)
    ensures var m := ExhaustionMessage(tokensLeft);
      && |m| >= |ExhaustionPrefix| + |ExhaustionSuffix|
      && m[..|ExhaustionPrefix|] == ExhaustionPrefix
      && m[|m| - |ExhaustionSuffix|..] == ExhaustionSuffix
      && IsIntText(m[|ExhaustionPrefix|..|m| - |ExhaustionSuffix|])
      && IntValue(m[|ExhaustionPrefix|..|m| - |ExhaustionSuffix|]) == tokensLeft
  {
    var m := ExhaustionMessage(tokensLeft);
    var n := IntToString(tokensLeft);
    assert m[|ExhaustionPrefix|..|m| - |ExhaustionSuffix|] == n;
    IntRoundTrip(tokensLeft);
  }

  predicate Exhausted(body: ErrorBody) {
    body.tokensLeft.Some? && body.tokensLeft.value <= 0
  }

  /** The message of an ordinary error body. */
  function BodyMessage(field: ErrorField): string {
    match field
    case TextField(text) => text
    case ObjectField(json) => json
    case OtherField => "API request failed"
  }

  /** errorInterceptor: every failure becomes a thrown KeepaError. A body
      reporting no tokens left gets the exhaustion message; any other body
      its own message with its status code and token count; anything else
      a bare message. The low-token warning only logs, so a body with a few
      tokens left is an ordinary error. */
  function ErrorInterceptor(failure: HttpFailure): (e: KeepaError)
    ensures failure.WithResponseData? ==>
      e.statusCode == failure.body.statusCode && e.tokensLeft == failure.body.tokensLeft
    ensures failure.WithResponseData? && Exhausted(failure.body) ==>
      e.message == ExhaustionMessage(failure.body.tokensLeft.value)
    ensures failure.WithResponseData? && !Exhausted(failure.body) ==>
      e.message == BodyMessage(failure.body.error)
    ensures !failure.WithResponseData? ==> e.statusCode.None? && e.tokensLeft.None?
    ensures failure.ThrownText? ==> e.message == failure.text
    ensures failure.ThrownObject? ==> e.message == if failure.message != "" then failure.message else failure.json
    ensures failure.ThrownOther? ==> e.message == "Network error"
  {
    match failure
    case WithResponseData(body) =>
      if Exhausted(body) then
        KeepaError(ExhaustionMessage(body.tokensLeft.value), body.statusCode, body.tokensLeft)
      else
        KeepaError(BodyMessage(body.error), body.statusCode, body.tokensLeft)
    case ThrownText(text) => KeepaError(text, None, None)
    case ThrownObject(message, json) => KeepaError(if message != "" then message else json, None, None)
    case ThrownOther => KeepaError("Network error", None, None)
  }

  /** A body with between 1 and 4 tokens left is not exhaustion: the call
      still fails, with the body's own message and counts. */
  lemma LowTokensStillFail(body: ErrorBody)
    requires body.tokensLeft.Some? && 0 < body.tokensLeft.value < 5
    ensures ErrorInterceptor(WithResponseData(body)) == KeepaError(BodyMessage(body.error), body.statusCode, body.tokensLeft)
  {
  }
}
