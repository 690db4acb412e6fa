/**
 * Instants, the ACR/AAD expiry reconciliation and the staleness decision
 * for the cached AAD access token.
 *
 * Time is an integer number of nanoseconds, as Go's time package counts it,
 * and the current instant is always an explicit argument.
 */
module Expiry {

  type Instant = int

  const Second: int := 1_000_000_000
  const Minute: int := 60 * Second
  const Hour: int := 60 * Minute

  /** The bounds the tests put on the ACR default token lifetime. */
  predicate ValidACRWindow(acrWindow: int) {
    12 * Minute < acrWindow < 12 * Hour
  }

  /**
   * The bounds the tests put on the refresh margin: an expiry equal to now
   * must be stale and an expiry one hour ahead must be fresh.
   */
  predicate ValidRefreshMargin(margin: int) {
    0 <= margin < Hour
  }

  /**
   * getACRExpiryIfEarlier: the ACR token expires acrWindow after now; the
   * credential's expiry is whichever of that and the AAD expiry comes first.
   */
  function GetACRExpiryIfEarlier(aadExpiry: Instant, now: Instant, acrWindow: int): (r: Instant)
    ensures r <= aadExpiry && r <= now + acrWindow
    ensures r == aadExpiry || r == now + acrWindow
  {
    var acrExpiry := now + acrWindow;
    if aadExpiry < acrExpiry then aadExpiry else acrExpiry
  }

  /** The two cases of TestGetEarliestExpiration, for any admissible window. */
  lemma ACRExpiryTestCases(now: Instant, acrWindow: int)
    requires ValidACRWindow(acrWindow)
    ensures GetACRExpiryIfEarlier(now + 12 * Hour, now, acrWindow) != now + 12 * Hour
    ensures GetACRExpiryIfEarlier(now + 12 * Hour, now, acrWindow) == now + acrWindow
    ensures GetACRExpiryIfEarlier(now + 12 * Minute, now, acrWindow) == now + 12 * Minute
  {
  }

  /** The cached AAD token must be refreshed when it expires within margin of now. */
  predicate IsStale(expiresOn: Instant, now: Instant, margin: int) {
    expiresOn <= now + margin
  }

  /**
   * The two cached tokens of the Provide tests: one expiring now is stale,
   * one expiring an hour from now is fresh, for any admissible margin.
   */
  lemma StalenessTestCases(now: Instant, margin: int)
    requires ValidRefreshMargin(margin)
    ensures IsStale(now, now, margin)
    ensures !IsStale(now + Hour, now, margin)
  {
  }
}
