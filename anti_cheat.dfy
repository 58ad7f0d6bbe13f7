/** The anti-cheat plausibility gate applied to one player's submitted
    result: two threshold checks, either of which rejects it. */
module AntiCheat {

  /** Any result faster than this is rejected. */
  const InhumanWpmThreshold: real := 300.0
  /** A result with exactly 100 % accuracy faster than this is rejected. */
  const PerfectAccuracyWpmThreshold: real := 150.0

  /** The verdict for one result; `rawWpm` and `duration` are accepted but
      not consulted. */
  function ValidateRankedResult(wpm: real, accuracy: real, rawWpm: real, duration: real): (valid: bool)
    ensures wpm > InhumanWpmThreshold ==> !valid
    ensures accuracy == 100.0 && wpm > PerfectAccuracyWpmThreshold ==> !valid
    ensures wpm <= PerfectAccuracyWpmThreshold ==> valid
    ensures accuracy != 100.0 && wpm <= InhumanWpmThreshold ==> valid
  {
    if wpm > InhumanWpmThreshold then false
    else if accuracy == 100.0 && wpm > PerfectAccuracyWpmThreshold then false
    else true
  }

  /** Both thresholds are strict: 300 wpm passes at any other accuracy, and
      150 wpm passes at perfect accuracy; one step above either fails. */
  lemma BoundariesAreStrict(accuracy: real, rawWpm: real, duration: real)
    requires accuracy != 100.0
    ensures ValidateRankedResult(300.0, accuracy, rawWpm, duration)
    ensures !ValidateRankedResult(301.0, accuracy, rawWpm, duration)
    ensures ValidateRankedResult(150.0, 100.0, rawWpm, duration)
    ensures !ValidateRankedResult(151.0, 100.0, rawWpm, duration)
  {
  }

  /** The verdict ignores the raw speed and the duration. */
  lemma IgnoresRawWpmAndDuration(wpm: real, accuracy: real, raw1: real, dur1: real, raw2: real, dur2: real)
    ensures ValidateRankedResult(wpm, accuracy, raw1, dur1) == ValidateRankedResult(wpm, accuracy, raw2, dur2)
  {
  }

  /** A result that passes still passes at any lower speed with the same accuracy. */
  lemma MonotoneInWpm(wpm: real, lower: real, accuracy: real, rawWpm: real, duration: real)
    requires lower <= wpm
    requires ValidateRankedResult(wpm, accuracy, rawWpm, duration)
    ensures ValidateRankedResult(lower, accuracy, rawWpm, duration)
  {
  }
}
