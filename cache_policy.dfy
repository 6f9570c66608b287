/**
 * The cache freshness rule: a cached feed stays valid for seven calendar days after
 * its timestamp, exclusive of the boundary itself (`FeedCachePolicy.validate(_:against:)`).
 *
 * Calendar arithmetic is fixed here as 86400 seconds per day (daylight-saving shifts are
 * not modelled). The calendar's addition may return nil, and `validate` then answers false.
 * This model's own stand-in for that nil is a sum outside `Date.distantPast` ..
 * `Date.distantFuture`; Foundation's calendar itself computes dates beyond both.
 */
module CachePolicy {
  import opened Wrappers
  import opened FeedModel

  const SecondsPerDay: int := 86400
  const MaxCacheAgeInDays: int := 7

  /** `Date.distantPast` and `Date.distantFuture`, in seconds since the reference date. */
  const DistantPast: Date := -63114076800
  const DistantFuture: Date := 63113904000

  /**
   * `calendar.date(byAdding: .day, value: days, to: date)`, with the nil result taken to
   * happen outside `Date.distantPast` .. `Date.distantFuture` (an assumption of this model).
   */
  function AddingDays(date: Date, days: int): (r: Option<Date>)
    ensures r.Some? <==> DistantPast <= date + days * SecondsPerDay <= DistantFuture
    ensures r.Some? ==> r.value - date == days * SecondsPerDay
  {
    var t := date + days * SecondsPerDay;
    if DistantPast <= t <= DistantFuture then Some(t) else None
  }

  /** True when a cache stamped `timestamp` is still valid at `date`. */
  function Validate(timestamp: Date, date: Date): (valid: bool)
    ensures valid <==> (AddingDays(timestamp, MaxCacheAgeInDays).Some?
                        && date < timestamp + 7 * 86400)
  {
    match AddingDays(timestamp, MaxCacheAgeInDays)
    case None => false
    case Some(maxCacheAge) => date < maxCacheAge
  }

  /** When the calendar has no date seven days on, nothing is valid. */
  lemma FailedAdditionIsInvalid(timestamp: Date, date: Date)
    requires AddingDays(timestamp, MaxCacheAgeInDays).None?
    ensures !Validate(timestamp, date)
  {
  }

  /** The boundary is exclusive: exactly seven days on, the cache has expired. */
  lemma ExpiresAtBoundary(timestamp: Date, maxCacheAge: Date)
    requires AddingDays(timestamp, MaxCacheAgeInDays) == Some(maxCacheAge)
    ensures !Validate(timestamp, maxCacheAge)
    ensures Validate(timestamp, maxCacheAge - 1)
  {
  }

  /**
   * Against a fixed `now`: the timestamp seven days back has expired, one second newer
   * is valid and one second older is not.
   */
  lemma SevenDaysBack(now: Date, expiration: Date)
    requires AddingDays(now, -MaxCacheAgeInDays) == Some(expiration)
    requires now < DistantFuture
    ensures !Validate(expiration, now)
    ensures Validate(expiration + 1, now)
    ensures !Validate(expiration - 1, now)
  {
  }

  /** A cache valid at `date` was valid at every earlier date. */
  lemma ValidEarlier(timestamp: Date, date: Date, earlier: Date)
    requires Validate(timestamp, date) && earlier <= date
    ensures Validate(timestamp, earlier)
  {
  }

  /** A newer timestamp whose expiry the calendar can compute is valid wherever an older one is. */
  lemma NewerStaysValid(timestamp: Date, newer: Date, date: Date)
    requires Validate(timestamp, date) && timestamp <= newer
    requires AddingDays(newer, MaxCacheAgeInDays).Some?
    ensures Validate(newer, date)
  {
  }
}
