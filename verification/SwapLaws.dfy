/**
 What each step of the swap machine does, in plain statuses and numbers: nothing here calls the
 functions the steps are built from. The results over whole runs speak of refunds through those
 functions; these laws say what the functions are.
 */
module SwapLaws {
  import opened Common
  import opened SwapMachine

  // ---- Which action a status starts ----

  /** The statuses in which an action that begins with this phase is the one to take. */
  predicate CalledFor(w: Swap, phase: Phase) {
    match phase
    case AwaitClaim =>
      || (w.kind == Reverse(true) && w.status in {TransactionMempool, TransactionConfirmed})
      || (w.kind.Chain? && w.kind.to == Btc && w.status in {TransactionServerMempool, TransactionServerConfirmed})
    case AwaitClaimArk =>
      w.kind.Chain? && w.kind.to == Ark && w.status in {TransactionServerMempool, TransactionServerConfirmed}
    case AwaitRefund =>
      || (w.kind == Submarine(true) && w.status in {InvoiceFailedToPay, TransactionLockupFailed, SwapExpired})
      || (w.kind.Chain? && w.kind.from == Ark && w.status == SwapExpired)
    case AwaitSign =>
      w.kind.Chain? && w.status !in {TransactionServerMempool, TransactionServerConfirmed, SwapExpired}
    case _ => false
  }

  /** The steps that try to act while the lock is free, and who waits for what they start. */
  predicate Tries(s: State, step: Step, owner: Owner) {
    match step
    case Saved => s.env.auto && owner == Handler
    case Fire(_) => s.env.running && s.monitored && owner == Timer
    case ResumeAction => owner == Resume
    case _ => false
  }

  /** With the lock free, exactly the action the status calls for is started, and nothing else is. */
  lemma ActionStartsIff(s: State, step: Step, owner: Owner)
    requires Enabled(s, step) && !s.tasks.locked && Tries(s, step, owner)
    ensures
      var n := Next(s, step).tasks;
      && (forall phase :: n.actions == s.tasks.actions + [Action(owner, phase)] <==> CalledFor(s.live, phase))
      && (n.actions == s.tasks.actions <==> forall phase :: !CalledFor(s.live, phase))
      && (n.locked <==> n.actions != s.tasks.actions)
  {
    var n := Next(s, step).tasks;
    if n.actions != s.tasks.actions {
      assert CalledFor(s.live, n.actions[|s.tasks.actions|].phase);
    }
  }

  /** A refund is owed in the statuses in which one is called for. */
  lemma RefundDueIff(w: Swap)
    ensures RefundDue(w) <==> CalledFor(w, AwaitRefund)
  {
  }

  /**
   A start calls an action for a monitored swap with no retry armed exactly in the statuses in which
   there is something to claim, to refund or to co-sign; so with the lock free, and a preimage or an
   invoice to act with, one is started.
   */
  lemma StartActsIff(s: State)
    ensures Enabled(s, ResumeAction) <==>
              && s.env.auto && s.monitored && s.timers.entry.None?
              && match s.live.kind
                 case Reverse(_) => s.live.status in {TransactionMempool, TransactionConfirmed}
                 case Submarine(_) => s.live.status in {InvoiceFailedToPay, TransactionLockupFailed, SwapExpired}
                 case Chain(_, to) =>
                   || s.live.status in {TransactionServerMempool, TransactionServerConfirmed, SwapExpired}
                   || (to == Ark && s.live.status == TransactionClaimPending)
    ensures Enabled(s, ResumeAction) && !s.tasks.locked && s.live.kind in {Reverse(true), Submarine(true)} ==>
              |Next(s, ResumeAction).tasks.actions| == |s.tasks.actions| + 1
  {
    if Enabled(s, ResumeAction) && !s.tasks.locked { ActionStartsIff(s, ResumeAction, Resume); }
  }

  /** A held lock turns every caller away: only the end of the action itself, or of the process, changes it. */
  lemma LockTurnsAway(s: State, step: Step)
    requires Enabled(s, step) && s.tasks.locked && !step.Resumes? && !step.Crash?
    ensures Next(s, step).tasks.actions == s.tasks.actions && Next(s, step).tasks.locked
  {
  }

  // ---- Which swaps are monitored ----

  /** The statuses after which the provider sends nothing more. */
  function Closing(k: Kind): set<Status> {
    match k
    case Reverse(_) => {TransactionRefunded, TransactionFailed, InvoiceSettled, InvoiceExpired, SwapExpired}
    case Submarine(_) => {InvoiceFailedToPay, TransactionClaimed, SwapExpired}
    case Chain(_, _) => {TransactionRefunded, TransactionFailed, TransactionClaimed, SwapExpired}
  }

  predicate Closed(w: Swap) { w.status in Closing(w.kind) }

  /** A retry with a finite time is on the record of a swap that can be refunded. */
  ghost predicate RetryOn(w: Swap, second: int) {
    !w.kind.Reverse? && w.refundRetry == Some(Retry(true, Some(second)))
  }

  /** Every step, and what it does to the swap's place in the monitored set. */
  lemma MonitoredIff(s: State, step: Step)
    requires Enabled(s, step)
    ensures Next(s, step).monitored <==>
              match step
              case Add => true
              case Remove => false
              case Crash(_) => false
              case Start =>
                s.monitored
                || (!s.env.running && (!Closed(s.live) || (s.env.auto && exists second :: RetryOn(s.live, second))))
              case Returned => s.monitored && !(Closed(s.live) && s.timers.entry.None?)
              case FireReturned => s.monitored && !(Closed(s.live) && s.timers.entry.None?)
              case Saved => s.monitored && (s.env.auto || !(Closed(s.live) && s.timers.entry.None?))
              case NotFound => s.monitored && !(s.timers.entry.None? && s.count.notFound >= 9)
              case _ => s.monitored
  {
    if HasPendingRetry(s.live) { assert RetryOn(s.live, s.live.refundRetry.value.nextRetryAt.value); }
  }

  // ---- A refund attempt ----

  /**
   When a refund that answers is to be tried again, in milliseconds from now: at the time it gave, but
   not before a minute nor after an hour; in a minute when it gave none.
   */
  predicate Delay(outcome: Outcome, now: int, delay: int) {
    match outcome
    case Deferred(Some(second)) =>
      var wait := second * 1000 - now;
      delay == if wait < 60_000 then 60_000 else if wait > 3_600_000 then 3_600_000 else wait
    case _ => delay == 60_000
  }

  /** A wired refund is put on record to be tried again exactly when it deferred, or a chain swap's threw. */
  lemma RefundAnswerStores(s: State, i: nat, outcome: Outcome)
    requires Inv(s) && s.env.wired && i < |s.tasks.actions| && s.tasks.actions[i].phase == AwaitRefund
    ensures
      var n := Next(s, Resumes(i, outcome));
      && n.stored == n.live && n.live.status == s.live.status && n.live.kind == s.live.kind
      && n.monitored == s.monitored && n.timers == s.timers && n.tasks.locked && n.history.deferred == Again(s, outcome)
      && if Again(s, outcome) then
           exists delay, second ::
             && Delay(outcome, s.env.now, delay)
             && n.tasks.actions == [Action(s.tasks.actions[i].owner, SavingRetry(delay))]
             && n.history.target == s.env.now + delay
             && RetryOn(n.stored, second) && (second - 1) * 1000 < s.env.now + delay <= second * 1000
         else n.stored.refundRetry.None? && n.tasks.actions == [Action(s.tasks.actions[i].owner, SavingClear)]
  {
    assert s.tasks.actions[i] in s.tasks.actions;
    var n := Next(s, Resumes(i, outcome));
    if Again(s, outcome) {
      var delay := n.tasks.actions[0].phase.delay;
      assert Delay(outcome, s.env.now, delay);
      assert RetryOn(n.stored, n.stored.refundRetry.value.nextRetryAt.value);
    }
  }

  predicate Again(s: State, outcome: Outcome) { outcome.Deferred? || (outcome.Threw? && s.live.kind.Chain?) }

  /** The end of an action: the lock is free, and its caller goes on. */
  predicate Released(s: State, i: nat, n: State)
    requires i < |s.tasks.actions|
  {
    var owner := s.tasks.actions[i].owner;
    && n.tasks.actions == [] && !n.tasks.locked
    && n.tasks.returning == s.tasks.returning + (if owner == Handler then 1 else 0)
    && n.tasks.fired == s.tasks.fired + (if owner == Timer then 1 else 0)
    && n.tasks.waiting == s.tasks.waiting && n.tasks.removing == s.tasks.removing
    && n.live == s.live && n.stored == s.stored && n.monitored == s.monitored
  }

  /**
   Once the retry is saved its timer is the only one, the full delay from then. Every other end of an
   action leaves the timers alone; a claim towards Ark that worked goes on to the co-signature.
   */
  lemma ActionGoesOn(s: State, i: nat, outcome: Outcome)
    requires Inv(s) && i < |s.tasks.actions| && !(s.tasks.actions[i].phase == AwaitRefund && s.env.wired)
    ensures
      var n, a := Next(s, Resumes(i, outcome)), s.tasks.actions[i];
      if a.phase == AwaitClaimArk && outcome != Threw then
        n == s.(tasks := s.tasks.(actions := [Action(a.owner, AwaitSign)]))
      else
        && Released(s, i, n)
        && (if a.phase.SavingRetry? then
              && n.timers.entry == Some(s.timers.nextHandle)
              && n.timers.timeouts == [Timeout(s.timers.nextHandle, s.env.now + a.phase.delay)]
            else n.timers == s.timers)
  {
  }

  // ---- Timers ----

  /** A timer fires when it is due, once, and does nothing more for a swap it may not act on. */
  lemma TimerFires(s: State, i: nat)
    requires Inv(s) && Enabled(s, Fire(i))
    ensures
      var n := Next(s, Fire(i));
      && s.timers.timeouts[i].due <= s.env.now && s.tasks.returning == 0 && s.tasks.fired == 0
      && n.timers.timeouts == [] && n.timers.entry.None?
      && n.live == s.live && n.stored == s.stored && n.monitored == s.monitored
      && (!s.env.running || !s.monitored || s.tasks.locked ==> n.tasks == s.tasks)
      && (s.env.running && s.monitored && !s.tasks.locked ==>
            n.tasks.fired == s.tasks.fired + if n.tasks.actions == s.tasks.actions then 1 else 0)
  {
  }

  /** After the connection attempt: one timer for a retry on record, at its second or at once, an hour at most. */
  lemma ConnectedArms(s: State)
    requires Inv(s) && Enabled(s, Connected)
    ensures
      var n := Next(s, Connected);
      && n.env.resumed && n.env.starting == s.env.starting - 1
      && n.live == s.live && n.stored == s.stored && n.monitored == s.monitored && n.tasks == s.tasks
      && (forall second | RetryOn(s.live, second) && s.env.auto && s.monitored ::
            && n.timers.entry == Some(s.timers.nextHandle) && |n.timers.timeouts| == 1
            && n.timers.timeouts[0].handle == s.timers.nextHandle
            && var wait := second * 1000 - s.env.now;
               n.timers.timeouts[0].due == s.env.now
                   + (if wait < 0 then 0 else if wait > 3_600_000 then 3_600_000 else wait))
      && ((forall second :: !RetryOn(s.live, second)) || !s.env.auto || !s.monitored ==> n.timers == s.timers)
  {
    if HasPendingRetry(s.live) { assert RetryOn(s.live, s.live.refundRetry.value.nextRetryAt.value); }
  }

  /** Stopping and removing leave no timer; removing also clears the stored retry of a monitored swap. */
  lemma StopAndRemoveCancel(s: State, step: Step)
    requires Inv(s) && Enabled(s, step) && (step.Stop? || step.Remove?)
    ensures
      var n := Next(s, step);
      && (step.Remove? || s.env.running ==> n.timers.timeouts == [] && n.timers.entry.None?)
      && (step.Stop? && s.env.running ==>
            !n.env.running && !n.env.resumed && n.count.notFound == 0 && n.tasks == s.tasks && n.stored == s.stored)
      && (step.Stop? && !s.env.running ==> n == s)
      && (step.Remove? ==>
            && n.stored == n.live && n.live.status == s.live.status && n.tasks.removing == s.tasks.removing + 1
            && (s.monitored && !s.live.kind.Reverse? ==> n.stored.refundRetry.None?)
            && (!s.monitored || s.live.kind.Reverse? ==> n.stored == s.stored))
  {
  }

  /** A handler or timer callback that ends changes its own turn, and what `MonitoredIff` says, and nothing else. */
  lemma FinishedKeeps(s: State, step: Step)
    requires Inv(s) && Enabled(s, step) && (step.Returned? || step.FireReturned?)
    ensures
      var n := Next(s, step);
      && n.timers == s.timers && n.live == s.live && n.stored == s.stored && n.tasks.actions == s.tasks.actions
      && n.tasks.returning == s.tasks.returning - (if step.Returned? then 1 else 0)
      && n.tasks.fired == s.tasks.fired - (if step.FireReturned? then 1 else 0)
  {
  }

  // ---- What the provider says ----

  /** A new status is stored and a handler waits for it; a repeated one does nothing but restart the count. */
  lemma UpdateStores(s: State, status: Status)
    requires Inv(s)
    ensures
      var n := Next(s, Update(status));
      && n.count.notFound == 0 && n.stored == n.live == s.live.(status := status)
      && n.monitored == s.monitored && n.timers == s.timers
      && n.tasks == s.tasks.(waiting := s.tasks.waiting + if status == s.live.status then 0 else 1)
  {
  }

  /** A handler whose save is done has returned, unless it started an action or there is nothing to act for. */
  lemma SavedGoesOn(s: State)
    requires Enabled(s, Saved)
    ensures
      var n := Next(s, Saved);
      && n.tasks.waiting == s.tasks.waiting - 1 && n.live == s.live && n.stored == s.stored
      && n.tasks.returning == s.tasks.returning
           + (if s.env.auto && n.tasks.actions == s.tasks.actions then 1 else 0)
  {
  }

  /** A 404 counts only without a retry timer, and the tenth in a row expires a monitored swap. */
  lemma NotFoundCounts(s: State)
    requires Inv(s)
    ensures
      var n := Next(s, NotFound);
      if s.timers.entry.Some? then n == s
      else if s.count.notFound < 9 then
        n == s.(count := n.count) && n.count.notFound == s.count.notFound + 1
      else if s.monitored then
        && n.live.status == SwapExpired && n.stored == n.live && n.live.refundRetry == s.live.refundRetry
        && !n.monitored && n.count.notFound == 0 && n.timers == s.timers && n.tasks == s.tasks
      else n == s.(count := n.count) && n.count.notFound == 0
  {
  }

  /** A removal whose save is done restarts the count, and nothing more. */
  lemma RemovalEnds(s: State)
    requires Enabled(s, RemoveSaved)
    ensures
      var n := Next(s, RemoveSaved);
      n == s.(count := n.count, tasks := s.tasks.(removing := s.tasks.removing - 1)) && n.count.notFound == 0
  {
  }

  /** A new process holds what was stored, and nothing else of the old one. */
  lemma CrashKeepsTheStore(s: State, auto: bool)
    ensures
      var n := Next(s, Crash(auto));
      && n.live == n.stored == s.stored && !n.monitored && n.env == Env(auto, s.env.wired, s.env.now, false, false, 0)
      && n.timers.entry.None? && n.timers.timeouts == [] && n.tasks == Tasks(false, [], 0, 0, 0, 0)
      && n.count.notFound == 0
  {
  }
}
