/**
 The refund loop over a lockup's VTXOs: each is settled or deferred, and the deferrals say when to
 come back. The pacing of the retries meets the clamped delays of the swap manager.
 */
module RefundLoop {
  import opened Common
  import opened Locktime
  import RecoveryScan
  import SwapMachine

  type Vtxo = RecoveryScan.Vtxo

  /** `settleRefundWithoutReceiver`: done, refused as not yet mature, or failed. */
  datatype Settling = Done | Immature | SettleFails

  /** The cooperative refund through Boltz: done, rejected by Boltz, or failed. */
  datatype Cosigning = Cosigned | Rejected | CosignFails

  /** What the loop meets at one VTXO: clocks and tips as it reads them, and the answers it would get. */
  datatype Turn = Turn(now: int, cosigning: Cosigning, recheckTip: Option<int>, recheckNow: int, settling: Settling,
      deferNow: int)

  datatype Fate = Swept | Deferred(at: int) | Throws

  /** What is asked of the outside for one VTXO, in order. */
  datatype Action = Settle | Cosign

  function SettleFate(t: Turn): Fate {
    match t.settling
    case Done => Swept
    case Immature => Deferred(t.deferNow + CLTV_IMMATURE_RETRY_SEC)
    case SettleFails => Throws
  }

  function FateOf(v: Vtxo, locktime: int, tip: Option<int>, t: Turn): Fate {
    if LocktimeReached(locktime, tip, t.now) then SettleFate(t)
    else if v.isRecoverable then Deferred(RefundRetryAt(locktime, t.deferNow))
    else match t.cosigning
      case Cosigned => Swept
      case CosignFails => Throws
      case Rejected =>
        if LocktimeReached(locktime, t.recheckTip, t.recheckNow) then SettleFate(t)
        else Deferred(RefundRetryAt(locktime, t.deferNow))
  }

  function ActionsOf(v: Vtxo, locktime: int, tip: Option<int>, t: Turn): seq<Action> {
    if LocktimeReached(locktime, tip, t.now) then [Settle]
    else if v.isRecoverable then []
    else if t.cosigning == Rejected && LocktimeReached(locktime, t.recheckTip, t.recheckNow) then [Cosign, Settle]
    else [Cosign]
  }

  predicate Succeeds(t: Turn, a: Action) {
    match a
    case Settle => t.settling == Done
    case Cosign => t.cosigning == Cosigned
  }

  /** One request as it was made, and whether it was granted. */
  datatype Request = Request(action: Action, granted: bool)

  function Requests(acts: seq<Action>, t: Turn): (asked: seq<Request>)
    ensures |asked| == |acts| && forall k | 0 <= k < |asked| :: asked[k] == Request(acts[k], Succeeds(t, acts[k]))
  {
    seq(|acts|, k requires 0 <= k < |acts| => Request(acts[k], Succeeds(t, acts[k])))
  }

  /** None is granted but perhaps the last. */
  predicate LastAlone(asked: seq<Request>) { forall k | 0 <= k < |asked| - 1 :: !asked[k].granted }

  /**
   A VTXO is swept exactly when its last request is granted, and no earlier one is; the sender's own
   leaf is used only past its locktime, the counterparty only before it and never for a swept output.
   */
  lemma SettledByLastRequest(v: Vtxo, locktime: int, tip: Option<int>, t: Turn)
    ensures
      var acts := ActionsOf(v, locktime, tip, t);
      var asked := Requests(acts, t);
      && LastAlone(asked) && (FateOf(v, locktime, tip, t) == Swept <==> asked != [] && asked[|asked| - 1].granted)
      && (Settle in acts ==>
            LocktimeReached(locktime, tip, t.now) || LocktimeReached(locktime, t.recheckTip, t.recheckNow))
      && (Cosign in acts ==> !v.isRecoverable && !LocktimeReached(locktime, tip, t.now))
  {
  }

  /**
   What is asked for a VTXO and what becomes of it. Its own leaf when the locktime has
   passed, by the first reading or, after a rejection, by a second one; co-signing before that unless it
   is swept. What cannot be done yet is deferred: to the locktime, or for a minute.
   */
  lemma FateMeans(v: Vtxo, locktime: int, tip: Option<int>, t: Turn)
    ensures
      var acts, fate := ActionsOf(v, locktime, tip, t), FateOf(v, locktime, tip, t);
      var before := !LocktimeReached(locktime, tip, t.now);
      var later := if locktime < 500_000_000 then t.deferNow + 60 else locktime;
      && (Cosign in acts <==> before && !v.isRecoverable)
      && (Settle in acts <==>
            || !before
            || (!v.isRecoverable && t.cosigning == Rejected && LocktimeReached(locktime, t.recheckTip, t.recheckNow)))
      && (Settle in acts ==>
            && acts[|acts| - 1] == Settle
            && (t.settling == Done ==> fate == Swept) && (t.settling == SettleFails ==> fate == Throws)
            && (t.settling == Immature ==> fate == Deferred(t.deferNow + 60)))
      && (acts == [] ==> fate == Deferred(later))
      && (acts == [Cosign] ==>
            && (t.cosigning == Cosigned ==> fate == Swept) && (t.cosigning == CosignFails ==> fate == Throws)
            && (t.cosigning == Rejected ==> fate == Deferred(later)))
  {
  }

  // ---- The loop ----

  datatype Outcome = Outcome(swept: nat, skipped: nat, retryAt: Option<int>)

  function Fates(vtxos: seq<Vtxo>, locktime: int, tip: Option<int>, turns: nat -> Turn): (f: seq<Fate>)
    ensures |f| == |vtxos| && forall i | 0 <= i < |f| :: f[i] == FateOf(vtxos[i], locktime, tip, turns(i))
  {
    seq(|vtxos|, i requires 0 <= i < |vtxos| => FateOf(vtxos[i], locktime, tip, turns(i)))
  }

  /** `trace[i]` is what was asked for VTXO `i`, for the first `done` of them. */
  ghost predicate Asked(vtxos: seq<Vtxo>, locktime: int, tip: Option<int>, turns: nat -> Turn,
      trace: seq<seq<Request>>, done: nat)
  {
    && |trace| == done <= |vtxos|
    && forall i | 0 <= i < done :: trace[i] == Requests(ActionsOf(vtxos[i], locktime, tip, turns(i)), turns(i))
  }

  /** The trace with one more VTXO's requests at its end. */
  lemma Recorded(vtxos: seq<Vtxo>, locktime: int, tip: Option<int>, turns: nat -> Turn, trace: seq<seq<Request>>,
      done: nat, asked: seq<Request>)
    returns (more: seq<seq<Request>>)
    requires Asked(vtxos, locktime, tip, turns, trace, done) && done < |vtxos|
    requires asked == Requests(ActionsOf(vtxos[done], locktime, tip, turns(done)), turns(done))
    ensures Asked(vtxos, locktime, tip, turns, more, done + 1)
  {
    more := trace + [asked];
  }

  /** No two granted requests spend one outpoint. */
  ghost predicate OncePerOutpoint(vtxos: seq<Vtxo>, trace: seq<seq<Request>>) {
    && |trace| <= |vtxos|
    && forall i, j, k, l | 0 <= i < |trace| && 0 <= j < |trace| && 0 <= k < |trace[i]| && 0 <= l < |trace[j]|
                           && trace[i][k].granted && trace[j][l].granted && (i != j || k != l) ::
         vtxos[i].outpoint != vtxos[j].outpoint
  }

  ghost predicate Distinct(vtxos: seq<Vtxo>) {
    forall i, j | 0 <= i < j < |vtxos| :: vtxos[i].outpoint != vtxos[j].outpoint
  }

  predicate Granted(asked: seq<Request>) { exists r | r in asked :: r.granted }

  /**
   What the loop asks for, however far it gets: a VTXO is granted exactly when it is swept, by one
   request, and when the list names no outpoint twice none is spent twice.
   */
  lemma SettledAtMostOnce(vtxos: seq<Vtxo>, locktime: int, tip: Option<int>, turns: nat -> Turn,
      trace: seq<seq<Request>>, done: nat)
    requires Asked(vtxos, locktime, tip, turns, trace, done)
    ensures forall i | 0 <= i < done ::
              LastAlone(trace[i]) && (Granted(trace[i]) <==> Fates(vtxos, locktime, tip, turns)[i] == Swept)
    ensures Distinct(vtxos) ==> OncePerOutpoint(vtxos, trace)
  {
    forall i | 0 <= i < done
      ensures LastAlone(trace[i]) && (Granted(trace[i]) <==> Fates(vtxos, locktime, tip, turns)[i] == Swept)
    {
      SettledByLastRequest(vtxos[i], locktime, tip, turns(i));
      var asked := trace[i];
      if asked != [] { assert asked[|asked| - 1] in asked; }
    }
  }

  /** The indices with a given kind of fate. */
  function SweptIn(fates: seq<Fate>): set<nat> { set i: nat | i < |fates| && fates[i].Swept? }

  function DeferredIn(fates: seq<Fate>): set<nat> { set i: nat | i < |fates| && fates[i].Deferred? }

  /** `at` is the earliest of the deferrals, and there is one exactly when something was deferred. */
  ghost predicate Earliest(fates: seq<Fate>, at: Option<int>) {
    match at
    case None => forall f | f in fates :: !f.Deferred?
    case Some(t) => Deferred(t) in fates && forall f | f in fates && f.Deferred? :: t <= f.at
  }

  /** Every VTXO is swept or skipped, each counted once, and the time to come back is the earliest deferral. */
  ghost predicate Tallied(fates: seq<Fate>, o: Outcome) {
    && Throws !in fates
    && o.swept == |SweptIn(fates)| && o.skipped == |DeferredIn(fates)| && o.swept + o.skipped == |fates|
    && Earliest(fates, o.retryAt)
  }

  /** A failure ends it at the first VTXO that fails; otherwise all of them are tallied. */
  ghost predicate Ended(fates: seq<Fate>, r: Option<Outcome>, done: nat) {
    && done <= |fates| && (r.None? <==> Throws in fates)
    && match r
       case None => done > 0 && fates[done - 1] == Throws && Throws !in fates[..done - 1]
       case Some(o) => done == |fates| && Tallied(fates, o)
  }

  /** One turn of the loop, with the requests it makes. */
  method RefundOne(v: Vtxo, locktime: int, tip: Option<int>, t: Turn) returns (fate: Fate, ghost asked: seq<Request>)
    ensures fate == FateOf(v, locktime, tip, t)
    ensures asked == Requests(ActionsOf(v, locktime, tip, t), t)
  {
    asked := [];
    if LocktimeReached(locktime, tip, t.now) {
      fate, asked := TrySettle(t);
      return;
    }
    if v.isRecoverable { return Deferred(RefundRetryAt(locktime, t.deferNow)), asked; }
    asked := asked + [Request(Cosign, t.cosigning == Cosigned)];
    match t.cosigning
    case Cosigned => fate := Swept;
    case CosignFails => fate := Throws;
    case Rejected =>
      if !LocktimeReached(locktime, t.recheckTip, t.recheckNow) {
        fate := Deferred(RefundRetryAt(locktime, t.deferNow));
      } else {
        ghost var settled;
        fate, settled := TrySettle(t);
        asked := asked + settled;
      }
  }

  method TrySettle(t: Turn) returns (fate: Fate, ghost asked: seq<Request>)
    ensures fate == SettleFate(t) && asked == Requests([Settle], t)
  {
    asked := [Request(Settle, t.settling == Done)];
    match t.settling
    case Done => fate := Swept;
    case Immature => fate := Deferred(t.deferNow + CLTV_IMMATURE_RETRY_SEC);
    case SettleFails => fate := Throws;
  }

  /**
   The loop itself. A failure ends it at the first VTXO that fails; otherwise every VTXO is counted
   once, as swept or as skipped, and the time to come back is the earliest deferral. `trace` is
   what it asked for, VTXO by VTXO up to where it ended.
   */
  method RefundVtxos(vtxos: seq<Vtxo>, locktime: int, tip: Option<int>, turns: nat -> Turn)
    returns (r: Option<Outcome>, ghost trace: seq<seq<Request>>, ghost done: nat)
    ensures Asked(vtxos, locktime, tip, turns, trace, done)
    ensures Ended(Fates(vtxos, locktime, tip, turns), r, done)
  {
    ghost var fates := Fates(vtxos, locktime, tip, turns);
    var swept, skipped, retryAt: Option<int> := 0, 0, None;
    var i := 0;
    trace, done := [], 0;
    while i < |vtxos|
      invariant 0 <= i <= |vtxos| && done == i && Asked(vtxos, locktime, tip, turns, trace, done)
      invariant Throws !in fates[..i] && Outcome(swept, skipped, retryAt) == TallyOf(fates[..i])
    {
      ghost var asked;
      var fate;
      fate, asked := RefundOne(vtxos[i], locktime, tip, turns(i));
      trace := Recorded(vtxos, locktime, tip, turns, trace, done, asked);
      done := i + 1;
      if fate == Throws {
        EndedByThrow(fates, i);
        return None, trace, done;
      }
      TallyMore(fates, i);
      if fate == Swept {
        swept := swept + 1;
      } else {
        skipped := skipped + 1;
        retryAt := Sooner(retryAt, fate.at);
      }
      i := i + 1;
    }
    EndedWhole(fates);
    return Some(Outcome(swept, skipped, retryAt)), trace, done;
  }

  function AddTo(o: Outcome, f: Fate): Outcome
    requires f != Throws
  {
    if f.Swept? then Outcome(o.swept + 1, o.skipped, o.retryAt)
        else Outcome(o.swept, o.skipped + 1, Sooner(o.retryAt, f.at))
  }

  /** The loop's three variables after these fates. */
  function TallyOf(fates: seq<Fate>): Outcome
    requires Throws !in fates
  {
    if fates == [] then Outcome(0, 0, None) else AddTo(TallyOf(fates[..|fates| - 1]), fates[|fates| - 1])
  }

  lemma {:induction false} TallyTallies(fates: seq<Fate>)
    requires Throws !in fates
    ensures Tallied(fates, TallyOf(fates))
  {
    if fates != [] {
      var front, f := fates[..|fates| - 1], fates[|fates| - 1];
      TallyTallies(front);
      assert fates == front + [f];
      CountMore(front, f);
      EarliestMore(front, f, TallyOf(front).retryAt);
    }
  }

  lemma TallyMore(fates: seq<Fate>, i: nat)
    requires i < |fates| && fates[i] != Throws && Throws !in fates[..i]
    ensures Throws !in fates[..i + 1] && TallyOf(fates[..i + 1]) == AddTo(TallyOf(fates[..i]), fates[i])
  {
    var more := fates[..i + 1];
    assert more == fates[..i] + [fates[i]] && more[..|more| - 1] == fates[..i];
  }

  lemma EndedByThrow(fates: seq<Fate>, i: nat)
    requires i < |fates| && fates[i] == Throws && Throws !in fates[..i]
    ensures Ended(fates, None, i + 1)
  {
  }

  lemma EndedWhole(fates: seq<Fate>)
    requires Throws !in fates[..|fates|]
    ensures Ended(fates, Some(TallyOf(fates[..|fates|])), |fates|)
  {
    assert fates[..|fates|] == fates;
    TallyTallies(fates);
  }

  lemma CountMore(fates: seq<Fate>, f: Fate)
    requires f != Throws
    ensures |SweptIn(fates + [f])| == |SweptIn(fates)| + if f.Swept? then 1 else 0
    ensures |DeferredIn(fates + [f])| == |DeferredIn(fates)| + if f.Deferred? then 1 else 0
  {
    var more := fates + [f];
    if f.Swept? {
      assert SweptIn(more) == SweptIn(fates) + {|fates|};
      assert DeferredIn(more) == DeferredIn(fates);
    } else {
      assert SweptIn(more) == SweptIn(fates);
      assert DeferredIn(more) == DeferredIn(fates) + {|fates|};
    }
  }

  function Sooner(retryAt: Option<int>, at: int): Option<int> {
    Some(if retryAt.None? then at else Min(retryAt.value, at))
  }

  lemma EarliestMore(fates: seq<Fate>, f: Fate, retryAt: Option<int>)
    requires f != Throws && Earliest(fates, retryAt)
    ensures Earliest(fates + [f], if f.Swept? then retryAt else Sooner(retryAt, f.at))
  {
    var more := fates + [f];
    assert forall x | x in more :: x in fates || x == f;
    assert more[|fates|] == f && forall x | x in fates :: x in more;
  }

  // ---- What is recorded ----

  /** The stored swap's refund flags. */
  class PendingSwap {
    const claimed: bool
    var refundable: bool
    var refunded: bool

    constructor (claimed: bool)
      ensures this.claimed == claimed && !refundable && !refunded
    {
      this.claimed := claimed;
      refundable, refunded := false, false;
    }

    /**
     With nothing at the lockup it throws. A swap that was claimed keeps its history; any other
     records whether everything came back. Whatever the two lists repeat and however the loop
     ends, no outpoint is spent twice.
     */
    method RefundVHTLC(spendable: seq<Vtxo>, recoverable: seq<Vtxo>, locktime: int, tip: Option<int>,
        turns: nat -> Turn)
      returns (r: Option<Outcome>, ghost trace: seq<seq<Request>>)
      modifies this
      ensures
        var vtxos := RecoveryScan.Dedupe(spendable + recoverable);
        var fates := Fates(vtxos, locktime, tip, turns);
        && (r.None? <==> vtxos == [] || Throws in fates)
        && (r.Some? && !claimed ==> refundable && (refunded <==> forall f | f in fates :: f == Swept))
        && (r.None? || claimed ==> refundable == old(refundable) && refunded == old(refunded))
        && (r.Some? ==> Tallied(fates, r.value))
        && Asked(vtxos, locktime, tip, turns, trace, |trace|) && OncePerOutpoint(vtxos, trace)
    {
      var vtxos := RecoveryScan.Dedupe(spendable + recoverable);
      ghost var fates := Fates(vtxos, locktime, tip, turns);
      if |vtxos| == 0 { return None, []; }
      RecoveryScan.DedupeKeepsLast(spendable + recoverable);
      ghost var done;
      r, trace, done := RefundVtxos(vtxos, locktime, tip, turns);
      SettledAtMostOnce(vtxos, locktime, tip, turns, trace, done);
      if r.None? { return; }
      if !claimed {
        NothingSkippedIff(fates);
        refundable := true;
        refunded := r.value.skipped == 0;
      }
    }
  }

  lemma NothingSkippedIff(fates: seq<Fate>)
    requires Throws !in fates
    ensures |DeferredIn(fates)| == 0 <==> forall f | f in fates :: f == Swept
  {
    if f :| f in fates && f != Swept {
      var i :| 0 <= i < |fates| && fates[i] == f;
      assert i in DeferredIn(fates);
    } else if i :| i in DeferredIn(fates) {
      assert fates[i] in fates;
    }
  }

  // ---- Pacing ----

  /** Before a timestamp locktime every deferral names the locktime itself, so that is what the outcome reports. */
  lemma EarlyRetryIsTheLocktime(vtxos: seq<Vtxo>, locktime: int, tip: Option<int>, turns: nat -> Turn,
      retryAt: Option<int>)
    requires !IsBlockHeight(locktime)
    requires forall i: nat | i < |vtxos| :: turns(i).now < locktime && turns(i).recheckNow < locktime
    requires Earliest(Fates(vtxos, locktime, tip, turns), retryAt) && retryAt.Some?
    ensures retryAt == Some(locktime)
  {
    var fates := Fates(vtxos, locktime, tip, turns);
    var i :| 0 <= i < |fates| && fates[i] == Deferred(retryAt.value);
  }

  /** When the attempts reach `retryAt` (seconds) from `now` (ms), re-arming after each: how many, and when. */
  function Arrival(retryAt: int, now: int): (r: (nat, int))
    decreases retryAt * 1000 - now
  {
    if now >= retryAt * 1000 then (0, now)
    else
      var (n, at) := Arrival(retryAt, now + SwapMachine.RetryDelay(Some(retryAt), now));
      (n + 1, at)
  }

  function CeilDiv(a: int, b: int): int
    requires b > 0
  {
    (a + b - 1) / b
  }

  /** One attempt an hour while the wait is longer than that, then one aimed at the moment, at most a minute late. */
  lemma {:induction false} PacedArrival(retryAt: int, now: int)
    requires now < retryAt * 1000
    ensures
      var (n, at) := Arrival(retryAt, now);
      n == CeilDiv(retryAt * 1000 - now, SwapMachine.MAX_RETRY_DELAY)
          && retryAt * 1000 <= at < retryAt * 1000 + SwapMachine.RETRY_DELAY
    decreases retryAt * 1000 - now
  {
    var next := now + SwapMachine.RetryDelay(Some(retryAt), now);
    if next < retryAt * 1000 { PacedArrival(retryAt, next); }
  }
}
