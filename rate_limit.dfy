/** `services/rate_limit.py`: back off when the API quota runs low.  The
    header values come in as the text the HTTP response carried (`None`
    when absent), `float()` on them is a parameter, and the sleep itself
    is the decision this model returns. */
module RateLimit {
  import opened Wrappers

  const DefaultThreshold: real := 10.0
  const DefaultBuffer: real := 5.0

  /** `_parse_header_value`: absent, or text `float()` rejects, is `None`. */
  function ParseHeaderValue(value: Option<string>, toReal: string -> Option<real>): (r: Option<real>)
    ensures value.None? ==> r.None?
    ensures value.Some? ==> r == toReal(value.value)
  {
    if value.None? then None else toReal(value.value)
  }

  /** `max(reset + buffer, buffer)`. */
  function SleepFor(reset: real, buffer: real): (r: real)
    ensures r >= buffer && r >= reset + buffer
    ensures r == buffer || r == reset + buffer
  {
    if reset + buffer >= buffer then reset + buffer else buffer
  }

  /** No sleep, or a sleep of `seconds`. */
  datatype Backoff = NoBackoff | Sleep(seconds: real)

  /** What `maybe_backoff_if_low` does: no sleep when a header is missing or
      unparsable or the quota is above the threshold; otherwise a sleep of
      `max(reset + buffer, buffer)` seconds, unless that is negative, when
      `time.sleep` raises and the exception handler returns 0. */
  function MaybeBackoff(remaining: Option<string>, reset: Option<string>, toReal: string -> Option<real>,
                        threshold: real, buffer: real): (b: Backoff)
    ensures ParseHeaderValue(remaining, toReal).None? || ParseHeaderValue(reset, toReal).None? ==> b.NoBackoff?
    ensures ParseHeaderValue(remaining, toReal).Some? && ParseHeaderValue(remaining, toReal).value > threshold ==> b.NoBackoff?
    ensures b.Sleep? ==>
      && ParseHeaderValue(remaining, toReal).Some? && ParseHeaderValue(reset, toReal).Some?
      && ParseHeaderValue(remaining, toReal).value <= threshold
      && b.seconds >= 0.0 && b.seconds >= buffer
      && b.seconds >= ParseHeaderValue(reset, toReal).value + buffer
  {
    var left := ParseHeaderValue(remaining, toReal);
    var wait := ParseHeaderValue(reset, toReal);
    if left.None? || wait.None? then NoBackoff
    else if left.value > threshold then NoBackoff
    else
      var sleepFor := SleepFor(wait.value, buffer);
      if sleepFor < 0.0 then NoBackoff else Sleep(sleepFor)
  }

  /** The value `maybe_backoff_if_low` returns: the seconds slept, or 0. */
  function Returned(b: Backoff): (r: real)
    ensures b.NoBackoff? ==> r == 0.0
    ensures b.Sleep? ==> r == b.seconds
  {
    match b
    case NoBackoff => 0.0
    case Sleep(seconds) => seconds
  }

  /** With a non-negative buffer and a low quota, the sleep always happens,
      lasts at least the buffer, and is what is returned. */
  lemma LowQuotaSleepsAtLeastBuffer(remaining: string, reset: string, toReal: string -> Option<real>,
                                    threshold: real, buffer: real)
    requires buffer >= 0.0
    requires toReal(remaining).Some? && toReal(reset).Some?
    requires toReal(remaining).value <= threshold
    ensures var b := MaybeBackoff(Some(remaining), Some(reset), toReal, threshold, buffer);
      && b.Sleep?
      && b.seconds == SleepFor(toReal(reset).value, buffer)
      && Returned(b) >= buffer
  {
  }

  /** With the default threshold and buffer, a quota of at most 10 requests
      always sleeps, for at least 5 seconds and at least the reset time plus 5. */
  lemma DefaultBackoff(remaining: string, reset: string, toReal: string -> Option<real>)
    requires toReal(remaining).Some? && toReal(reset).Some?
    requires toReal(remaining).value <= DefaultThreshold
    ensures var b := MaybeBackoff(Some(remaining), Some(reset), toReal, DefaultThreshold, DefaultBuffer);
      && b.Sleep? && Returned(b) >= 5.0 && Returned(b) >= toReal(reset).value + 5.0
  {
    LowQuotaSleepsAtLeastBuffer(remaining, reset, toReal, DefaultThreshold, DefaultBuffer);
  }

  /** The returned value is never negative and is positive only after a sleep. */
  lemma ReturnedNonNegative(remaining: Option<string>, reset: Option<string>, toReal: string -> Option<real>,
                            threshold: real, buffer: real)
    ensures var b := MaybeBackoff(remaining, reset, toReal, threshold, buffer);
      Returned(b) >= 0.0 && (Returned(b) > 0.0 ==> b.Sleep?)
  {
  }
}
