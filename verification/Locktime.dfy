/** Absolute refund locktimes in the two forms of BIP 65: a block height below the threshold, else Unix seconds. */
module Locktime {
  import opened Common

  const HEIGHT_THRESHOLD := 500_000_000
  const CLTV_IMMATURE_RETRY_SEC := 60

  predicate IsBlockHeight(locktime: int) { locktime < HEIGHT_THRESHOLD }

  /** A height with no known tip counts as not reached. */
  predicate LocktimeReached(locktime: int, tip: Option<int>, now: int) {
    if IsBlockHeight(locktime) then tip.Some? && tip.value >= locktime else now >= locktime
  }

  /** When to look again at a locktime that is not reached. */
  function RefundRetryAt(locktime: int, now: int): int {
    if IsBlockHeight(locktime) then now + CLTV_IMMATURE_RETRY_SEC else locktime
  }

  /** The claim side's reading: what cannot be established counts as reached. */
  predicate MayBeReached(locktime: Option<int>, tip: Option<int>, now: int) {
    || locktime.None?
    || (IsBlockHeight(locktime.value) && tip.None?)
    || LocktimeReached(locktime.value, tip, now)
  }

  /**
   The three readings in plain integers: below 500000000 a height, against the tip; else seconds,
   against the clock.
   */
  lemma ReadingsIff(locktime: int, tip: Option<int>, now: int)
    ensures locktime < 500_000_000 ==>
              && (LocktimeReached(locktime, tip, now) <==> tip.Some? && locktime <= tip.value)
              && (MayBeReached(Some(locktime), tip, now) <==> tip.None? || locktime <= tip.value)
              && RefundRetryAt(locktime, now) == now + 60
    ensures locktime >= 500_000_000 ==>
              && (LocktimeReached(locktime, tip, now) <==> locktime <= now)
              && (MayBeReached(Some(locktime), tip, now) <==> locktime <= now)
              && RefundRetryAt(locktime, now) == locktime
    ensures MayBeReached(None, tip, now)
  {
  }
}
