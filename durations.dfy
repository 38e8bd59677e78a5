/**
 * The plugin's fixed durations and its two remaining-time calculators.
 * Instants and durations are integer milliseconds; `now` replaces
 * `Instant.now()`.
 */
module Durations {
  import opened Wrappers

  const Minute: int := 60_000
  const Hour: int := 60 * Minute

  const TotalGrowthTime: int := 3 * Hour
  const HungerTime: int := 30 * Minute
  const AttentionTimeStroke: int := 39 * Minute
  const AttentionTimeWool: int := 65 * Minute

  const HungerNotificationThreshold: int := 3 * Minute
  const AttentionNotificationThreshold: int := 7 * Minute

  function Max(a: int, b: int): int { if a >= b then a else b }

  /**
   * Time left on a countdown that started at `lastActionTime` and lasts
   * `totalDuration`: unknown when either is unknown, and never below zero.
   */
  function TimeRemaining(lastActionTime: Option<int>, totalDuration: Option<int>, now: int): (r: Option<int>)
    ensures r.None? <==> lastActionTime.None? || totalDuration.None?
    ensures r.Some? ==> r.value == Max(0, totalDuration.value - (now - lastActionTime.value))
    ensures r.Some? ==> r.value >= 0
  {
    if lastActionTime.None? || totalDuration.None? then None
    else
      var elapsed := now - lastActionTime.value;
      if elapsed >= totalDuration.value then Some(0) else Some(totalDuration.value - elapsed)
  }

  /**
   * Growth left: the growth reported at `growthSyncTime` plus the time since,
   * measured against the three-hour total, never below zero.
   */
  function GrowthTimeRemaining(growthSyncTime: Option<int>, syncedGrowthDuration: Option<int>, now: int): (r: Option<int>)
    ensures r.None? <==> growthSyncTime.None? || syncedGrowthDuration.None?
    ensures r.Some? ==> r.value == Max(0, TotalGrowthTime - (syncedGrowthDuration.value + (now - growthSyncTime.value)))
    ensures r.Some? ==> 0 <= r.value
  {
    if growthSyncTime.None? || syncedGrowthDuration.None? then None
    else
      var currentGrowth := syncedGrowthDuration.value + (now - growthSyncTime.value);
      if currentGrowth >= TotalGrowthTime then Some(0) else Some(TotalGrowthTime - currentGrowth)
  }

  /** A countdown never goes up as time passes. */
  lemma RemainingNonIncreasing(t: Option<int>, total: Option<int>, now1: int, now2: int)
    requires now1 <= now2
    ensures TimeRemaining(t, total, now2).Some? ==> TimeRemaining(t, total, now2).value <= TimeRemaining(t, total, now1).value
  {
  }

  /** Neither does the growth countdown. */
  lemma GrowthNonIncreasing(t: Option<int>, synced: Option<int>, now1: int, now2: int)
    requires now1 <= now2
    ensures GrowthTimeRemaining(t, synced, now2).Some? ==> GrowthTimeRemaining(t, synced, now2).value <= GrowthTimeRemaining(t, synced, now1).value
  {
  }

  /** Until it reaches zero a countdown loses exactly the time that passed. */
  lemma RemainingLosesElapsed(t: Option<int>, total: Option<int>, now: int, d: nat)
    requires TimeRemaining(t, total, now).Some? && TimeRemaining(t, total, now).value >= d
    ensures TimeRemaining(t, total, now + d) == Some(TimeRemaining(t, total, now).value - d)
  {
  }
}
