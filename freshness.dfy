/**
 * Receipt freshness: the timestamp classifiers the verifiers run over
 * (ts, now, maxAge, maxSkew), and the per-profile thresholds.
 */
module Freshness {

  const SECOND_MS := 1000
  const MINUTE_MS := 60 * SECOND_MS
  const HOUR_MS := 60 * MINUTE_MS
  const DAY_MS := 24 * HOUR_MS

  const PROFILE_LITE := "tecp-lite"
  const PROFILE_V01 := "tecp-v0.1"
  const PROFILE_STRICT := "tecp-strict"

  /** The timestamp verdict; `Skew` is "in the future", `Expired` is "too old". */
  datatype TimestampStatus = OK | Skew | Expired

  /** Within tolerance: no older than `maxAge` and no further ahead than `maxSkew`, both ends inclusive. */
  predicate InWindow(ts: int, now: int, maxAge: int, maxSkew: int) {
    now - maxAge <= ts <= now + maxSkew
  }

  /** The core verifier's order: the future-skew test first, then the age test. */
  function ClassifySkewFirst(ts: int, now: int, maxAge: int, maxSkew: int): TimestampStatus {
    if ts > now + maxSkew then Skew
    else if now - ts > maxAge then Expired
    else OK
  }

  /** The SDK clients' order: `age > maxAge` first, then `skew > maxSkew`. */
  function ClassifyAgeFirst(ts: int, now: int, maxAge: int, maxSkew: int): TimestampStatus {
    var age, skew := now - ts, ts - now;
    if age > maxAge then Expired
    else if skew > maxSkew then Skew
    else OK
  }

  /** Both classifiers accept exactly the receipts inside the window. */
  lemma ClassifiersAcceptWindow(ts: int, now: int, maxAge: int, maxSkew: int)
    ensures ClassifySkewFirst(ts, now, maxAge, maxSkew) == OK <==> InWindow(ts, now, maxAge, maxSkew)
    ensures ClassifyAgeFirst(ts, now, maxAge, maxSkew) == OK <==> InWindow(ts, now, maxAge, maxSkew)
  {
  }

  /**
   * The "too old" and "in the future" conditions exclude each other whenever
   * the window is not empty, so the two orders give the same verdict.
   */
  lemma ClassifiersAgree(ts: int, now: int, maxAge: int, maxSkew: int)
    requires maxAge + maxSkew >= 0
    ensures !(ts > now + maxSkew && now - ts > maxAge)
    ensures ClassifySkewFirst(ts, now, maxAge, maxSkew) == ClassifyAgeFirst(ts, now, maxAge, maxSkew)
  {
  }

  /** The boundaries: `ts == now`, `now + maxSkew` and `now - maxAge` are accepted; one past either end is not. */
  lemma ClassifierBoundaries(now: int, maxAge: int, maxSkew: int)
    requires maxAge >= 0 && maxSkew >= 0
    ensures ClassifySkewFirst(now, now, maxAge, maxSkew) == OK
    ensures ClassifySkewFirst(now + maxSkew, now, maxAge, maxSkew) == OK
    ensures ClassifySkewFirst(now - maxAge, now, maxAge, maxSkew) == OK
    ensures ClassifySkewFirst(now + maxSkew + 1, now, maxAge, maxSkew) == Skew
    ensures ClassifySkewFirst(now - maxAge - 1, now, maxAge, maxSkew) == Expired
  {
  }

  datatype Limits = Limits(maxAgeMs: int, maxSkewMs: int)

  /** The profile table: lite 7 d / 15 min, strict 1 h / 1 min, anything else 24 h / 5 min. */
  function ProfileLimits(profile: string): (l: Limits)
    ensures profile == PROFILE_LITE ==> l == Limits(7 * DAY_MS, 15 * MINUTE_MS)
    ensures profile == PROFILE_STRICT ==> l == Limits(HOUR_MS, MINUTE_MS)
    ensures profile != PROFILE_LITE && profile != PROFILE_STRICT ==> l == Limits(DAY_MS, 5 * MINUTE_MS)
    ensures 0 < l.maxSkewMs < l.maxAgeMs
  {
    if profile == PROFILE_LITE then Limits(7 * DAY_MS, 15 * MINUTE_MS)
    else if profile == PROFILE_STRICT then Limits(HOUR_MS, MINUTE_MS)
    else Limits(DAY_MS, 5 * MINUTE_MS)
  }

  /** Only the strict profile refuses an empty policy list. */
  predicate RequiresPolicies(profile: string) {
    profile == PROFILE_STRICT
  }

  /** The windows nest: fresh under strict implies fresh under v0.1, which implies fresh under lite. */
  lemma ProfileWindowsNest(ts: int, now: int)
    ensures var s, v, l := ProfileLimits(PROFILE_STRICT), ProfileLimits(PROFILE_V01), ProfileLimits(PROFILE_LITE);
      (InWindow(ts, now, s.maxAgeMs, s.maxSkewMs) ==> InWindow(ts, now, v.maxAgeMs, v.maxSkewMs)) &&
      (InWindow(ts, now, v.maxAgeMs, v.maxSkewMs) ==> InWindow(ts, now, l.maxAgeMs, l.maxSkewMs))
  {
  }
}
