/**
 * Time arithmetic of the 24-hour daily-gain cooldown
 * (core/views.py, `check_and_apply_daily_gain` and the countdown in `tarefa`).
 *
 * Instants are integers counting microseconds, the resolution of Python's
 * `datetime`, so that every comparison the source makes is exact.
 */
module Cooldown {
  import opened Wrappers

  const MICROS_PER_SECOND: int := 1_000_000
  const MICROS_PER_HOUR: int := 60 * 60 * MICROS_PER_SECOND
  const SECONDS_PER_DAY: int := 24 * 60 * 60
  /** `timedelta(hours=24)` */
  const COOLDOWN: int := SECONDS_PER_DAY * MICROS_PER_SECOND

  /** `last_daily_gain_date or purchase_date`: a datetime is always truthy,
      so the purchase date is used only when no gain was ever applied. */
  function ReferenceTime(lastGain: Option<int>, purchaseDate: int): int {
    match lastGain
    case Some(t) => t
    case None => purchaseDate
  }

  function NextGainTime(lastGain: Option<int>, purchaseDate: int): int {
    ReferenceTime(lastGain, purchaseDate) + COOLDOWN
  }

  predicate GainDue(now: int, lastGain: Option<int>, purchaseDate: int) {
    now >= NextGainTime(lastGain, purchaseDate)
  }

  /** The pair returned by one accrual check on a level purchase:
      whether the gain is applied, and the next-gain instant reported. */
  function AccrualCheck(lastGain: Option<int>, purchaseDate: int, now: int): (r: (bool, int))
    ensures r.0 <==> now - ReferenceTime(lastGain, purchaseDate) >= COOLDOWN
    ensures r.0 ==> r.1 == now + COOLDOWN
    ensures !r.0 ==> now < r.1 && r.1 - COOLDOWN == ReferenceTime(lastGain, purchaseDate)
  {
    if GainDue(now, lastGain, purchaseDate) then (true, now + COOLDOWN)
    else (false, NextGainTime(lastGain, purchaseDate))
  }

  /** Once a gain is applied at `now`, the purchase date no longer matters and
      the next one is due exactly one cooldown later: a second check at any
      instant before that is a no-op. */
  lemma GainRestartsCooldown(now: int, purchaseDate: int, later: int)
    ensures GainDue(later, Some(now), purchaseDate) <==> later >= now + COOLDOWN
    ensures !GainDue(now, Some(now), purchaseDate)
  {
  }

  /** When the reference instant is not in the future, the reported next-gain
      instant lies within one cooldown ahead of `now`. */
  lemma NextGainWithinOneCooldown(lastGain: Option<int>, purchaseDate: int, now: int)
    requires ReferenceTime(lastGain, purchaseDate) <= now
    ensures now < AccrualCheck(lastGain, purchaseDate, now).1 <= now + COOLDOWN
  {
  }

  /**
   * `cooldown_seconds_remaining` of the `tarefa` page: zero unless there is an
   * active level and the next gain is still in the future, otherwise the whole
   * seconds left, truncated as `int(timedelta.total_seconds())` does.
   */
  function CooldownSecondsRemaining(hasActiveLevel: bool, nextGain: Option<int>, now: int): (s: nat)
    ensures hasActiveLevel && nextGain.Some? && nextGain.value > now ==>
              s * MICROS_PER_SECOND <= nextGain.value - now < (s + 1) * MICROS_PER_SECOND
    ensures !(hasActiveLevel && nextGain.Some? && nextGain.value > now) ==> s == 0
  {
    if hasActiveLevel && nextGain.Some? && nextGain.value > now then
      (nextGain.value - now) / MICROS_PER_SECOND
    else
      0
  }

  /** The countdown shown after a check at `checkedAt` and read at `now` never
      exceeds one day, whether or not the check applied the gain. */
  lemma CountdownAtMostOneDay(lastGain: Option<int>, purchaseDate: int, checkedAt: int, now: int)
    requires ReferenceTime(lastGain, purchaseDate) <= checkedAt <= now
    ensures CooldownSecondsRemaining(true, Some(AccrualCheck(lastGain, purchaseDate, checkedAt).1), now) <= SECONDS_PER_DAY
  {
    NextGainWithinOneCooldown(lastGain, purchaseDate, checkedAt);
  }

  /**
   * Successive accrual checks on one level purchase at the instants `times`:
   * the number of gains applied and the last-gain instant left behind.
   */
  function AccrualRun(lastGain: Option<int>, purchaseDate: int, times: seq<int>): (r: (nat, Option<int>))
    ensures r.0 == 0 ==> r.1 == lastGain
    ensures r.0 == 0 <==> forall i :: 0 <= i < |times| ==> !GainDue(times[i], lastGain, purchaseDate)
    decreases |times|
  {
    if times == [] then (0, lastGain)
    else if AccrualCheck(lastGain, purchaseDate, times[0]).0 then
      var rest := AccrualRun(Some(times[0]), purchaseDate, times[1..]);
      (rest.0 + 1, rest.1)
    else
      AccrualRun(lastGain, purchaseDate, times[1..])
  }

  /**
   * At most one gain per cooldown: however the checks are timed, and in
   * whatever order they arrive, `n` gains need `n` full cooldowns between the
   * reference instant and the latest check.
   */
  lemma {:induction false} AccrualAtMostOncePerCooldown(lastGain: Option<int>, purchaseDate: int, times: seq<int>, horizon: int)
    requires forall i :: 0 <= i < |times| ==> times[i] <= horizon
    ensures var r := AccrualRun(lastGain, purchaseDate, times);
            ReferenceTime(r.1, purchaseDate) - ReferenceTime(lastGain, purchaseDate) >= r.0 * COOLDOWN
            && (r.0 > 0 ==> ReferenceTime(r.1, purchaseDate) <= horizon)
    ensures AccrualRun(lastGain, purchaseDate, times).0 > 0 ==>
              AccrualRun(lastGain, purchaseDate, times).0 * COOLDOWN <= horizon - ReferenceTime(lastGain, purchaseDate)
    decreases |times|
  {
    if times != [] {
      if GainDue(times[0], lastGain, purchaseDate) {
        assert times[0] <= horizon;
        AccrualAtMostOncePerCooldown(Some(times[0]), purchaseDate, times[1..], horizon);
      } else {
        AccrualAtMostOncePerCooldown(lastGain, purchaseDate, times[1..], horizon);
      }
    }
  }
}
