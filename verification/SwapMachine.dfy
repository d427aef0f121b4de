/**
 One swap under the Boltz swap manager, as a machine whose steps are the stretches of code
 between two awaits. Everything the manager keeps is keyed by swap id, so a manager with many
 swaps is this machine once per id (`SwapManager` proves that, step by step).

 A save takes effect when it is issued, callbacks answer arbitrarily, and a timer callback is a
 macrotask: it does not run while a promise continuation of the same swap is ready.
 */
module SwapMachine {
  import opened Common

  // ---- Swaps ----

  datatype Status =
    | InvoiceExpired | InvoiceFailedToPay | InvoicePaid | InvoicePending | InvoiceSet | InvoiceSettled
    | SwapCreated | SwapExpired
    | TransactionClaimPending | TransactionClaimed | TransactionConfirmed | TransactionFailed
    | TransactionLockupFailed | TransactionMempool | TransactionRefunded
    | TransactionServerMempool | TransactionServerConfirmed

  datatype Side = Ark | Btc

  datatype Kind = Reverse(hasPreimage: bool) | Submarine(hasInvoice: bool) | Chain(from: Side, to: Side)

  /** `nextRetryAt` is in Unix seconds; `None` stands for a stored value that is not finite. */
  datatype Retry = Retry(pending: bool, nextRetryAt: Option<int>)

  datatype Swap = Swap(kind: Kind, status: Status, refundRetry: Option<Retry>)

  predicate IsFinal(w: Swap) {
    match w.kind
    case Reverse(_) =>
      || w.status.TransactionRefunded? || w.status.TransactionFailed? || w.status.InvoiceSettled?
      || w.status.InvoiceExpired? || w.status.SwapExpired?
    case Submarine(_) => w.status.InvoiceFailedToPay? || w.status.TransactionClaimed? || w.status.SwapExpired?
    case Chain(_, _) =>
      || w.status.TransactionRefunded? || w.status.TransactionFailed? || w.status.TransactionClaimed?
      || w.status.SwapExpired?
  }

  /** A status in which the manager's own action for this swap is a refund attempt. */
  predicate RefundDue(w: Swap) {
    match w.kind
    case Reverse(_) => false
    case Submarine(hasInvoice) =>
      hasInvoice && (w.status.InvoiceFailedToPay? || w.status.TransactionLockupFailed? || w.status.SwapExpired?)
    case Chain(from, _) => from == Ark && w.status == SwapExpired
  }

  predicate CanDefer(k: Kind) { k == Submarine(true) || (k.Chain? && k.from == Ark) }

  predicate HasPendingRetry(w: Swap) {
    !w.kind.Reverse? && w.refundRetry.Some? && w.refundRetry.value.pending
    && w.refundRetry.value.nextRetryAt.Some?
  }

  /** `clearRefundRetry`: only the swaps that can be refunded carry a retry to clear. */
  function Cleared(w: Swap): Swap { if w.kind.Reverse? then w else w.(refundRetry := None) }

  predicate MonitorOnStart(w: Swap, auto: bool) { !IsFinal(w) || (auto && HasPendingRetry(w)) }

  // ---- Delays, in milliseconds ----

  const RETRY_DELAY := 60_000
  const MAX_RETRY_DELAY := 3_600_000
  const NOT_FOUND_THRESHOLD := 10

  function RetryDelay(retryAt: Option<int>, now: int): int {
    match retryAt
    case None => RETRY_DELAY
    case Some(t) => Min(Max(t * 1000 - now, RETRY_DELAY), MAX_RETRY_DELAY)
  }

  function PersistedDelay(nextRetryAt: int, now: int): int {
    Min(Max(nextRetryAt * 1000 - now, 0), MAX_RETRY_DELAY)
  }

  /** The whole second at or after an instant in milliseconds. */
  function CeilSecond(ms: int): int { (ms + 999) / 1000 }

  // ---- State ----

  datatype Owner = Handler | Timer | Resume

  datatype Phase =
    | AwaitClaim
    | AwaitClaimArk
    | AwaitSign
    | AwaitRefund
    | SavingRetry(delay: int)
    | SavingClear

  predicate Refunding(p: Phase) { p.AwaitRefund? || p.SavingRetry? || p.SavingClear? }

  datatype Action = Action(owner: Owner, phase: Phase)

  /** The manager itself: its configuration, the clock (ms), and where `start` stands. */
  datatype Env = Env(auto: bool, wired: bool, now: int, running: bool, resumed: bool, starting: nat)

  /** The action lock, and the async calls of one swap that are suspended at an await. */
  datatype Tasks = Tasks(
    locked: bool,
    actions: seq<Action>,
    waiting: nat,    // status handlers whose save has not finished
    returning: nat,  // status handlers whose action call has returned
    fired: nat,      // timer callbacks whose action ran and has returned
    removing: nat)   // removals whose save has not finished

  const IDLE := Tasks(false, [], 0, 0, 0, 0)

  /** A timeout the event loop holds for this swap. */
  datatype Timeout = Timeout(handle: nat, due: int)

  /** The entry of the manager's timer map, and what the event loop really holds. */
  datatype Timers = Timers(entry: Option<nat>, timeouts: seq<Timeout>, nextHandle: nat)

  datatype Event = Counted | Reset | ForcedExpiry(timerArmed: bool)

  /** The 404 counter, and the log of what it counted and what restarted it. */
  datatype Count = Count(notFound: nat, log: seq<Event>)

  /** What the last refund attempt did, for stating properties only. */
  datatype History = History(
    deferred: bool,    // it left something to retry
    scheduledAt: int,
    target: int,       // the instant it scheduled the retry for
    dropped: bool := false) // since then ten 404 answers took the swap off the monitored set

  datatype State = State(
    env: Env, live: Swap, stored: Swap, monitored: bool,
    timers: Timers, count: Count, tasks: Tasks, history: History)

  predicate Init(s: State) {
    && s.stored == s.live && s.live.refundRetry.None?
    && !s.env.running && !s.env.resumed && s.env.starting == 0
    && !s.monitored && s.timers.entry.None? && s.timers.timeouts == []
    && s.count == Count(0, []) && s.tasks == IDLE && !s.history.deferred
  }

  // ---- The pieces the steps are made of ----

  function Restart(c: Count): Count { Count(0, c.log + [Reset]) }

  function SetLive(s: State, w: Swap): State { s.(live := w, stored := w) }

  function Without(ts: seq<Timeout>, handle: nat): seq<Timeout> {
    if ts == [] then []
    else if ts[0].handle == handle then ts[1..]
    else [ts[0]] + Without(ts[1..], handle)
  }

  function Cancelled(t: Timers): Timers {
    if t.entry.None? then t else t.(entry := None, timeouts := Without(t.timeouts, t.entry.value))
  }

  function Armed(t: Timers, due: int): Timers {
    Timers(Some(t.nextHandle), Cancelled(t).timeouts + [Timeout(t.nextHandle, due)], t.nextHandle + 1)
  }

  function Arm(s: State, delay: int): State { s.(timers := Armed(s.timers, s.env.now + delay)) }

  function Finalize(s: State): State {
    if s.monitored then s.(timers := Cancelled(s.timers), monitored := false) else s
  }

  /** What `executeAutonomousAction` awaits first, if anything, once it holds the lock. */
  function FirstPhase(w: Swap): Option<Phase> {
    match w.kind
    case Reverse(hasPreimage) =>
      if hasPreimage && (w.status.TransactionMempool? || w.status.TransactionConfirmed?)
      then Some(AwaitClaim) else None
    case Submarine(_) =>
      if RefundDue(w) then Some(AwaitRefund) else None
    case Chain(from, to) =>
      if w.status.TransactionServerMempool? || w.status.TransactionServerConfirmed? then
        Some(if to == Ark then AwaitClaimArk else AwaitClaim)
      else if w.status.SwapExpired? then
        if from == Ark then Some(AwaitRefund) else None
      else Some(AwaitSign)
  }

  /** The swaps `start` calls an action for, once its connection attempt is over. */
  predicate Resumable(w: Swap) {
    match w.kind
    case Reverse(_) => w.status.TransactionMempool? || w.status.TransactionConfirmed?
    case Submarine(_) => w.status.InvoiceFailedToPay? || w.status.TransactionLockupFailed? || w.status.SwapExpired?
    case Chain(_, to) =>
      || w.status.TransactionServerMempool? || w.status.TransactionServerConfirmed? || w.status.SwapExpired?
      || (to == Ark && w.status.TransactionClaimPending?)
  }

  predicate Starts(s: State) { !s.tasks.locked && FirstPhase(s.live).Some? }

  function BeginAction(s: State, owner: Owner): State {
    if Starts(s) then
      s.(tasks := s.tasks.(locked := true,
                           actions := s.tasks.actions + [Action(owner, FirstPhase(s.live).value)]))
    else s
  }

  /** The end of an action: the lock is released and its caller becomes ready. */
  function Ended(t: Tasks, i: nat): Tasks
    requires i < |t.actions|
  {
    Tasks(false, t.actions[..i] + t.actions[i + 1..], t.waiting,
          t.returning + (if t.actions[i].owner == Handler then 1 else 0),
          t.fired + (if t.actions[i].owner == Timer then 1 else 0),
          t.removing)
  }

  function EndAction(s: State, i: nat): State
    requires i < |s.tasks.actions|
  {
    s.(tasks := Ended(s.tasks, i))
  }

  function AtPhase(t: Tasks, i: nat, p: Phase): Tasks
    requires i < |t.actions|
  {
    t.(actions := t.actions[i := t.actions[i].(phase := p)])
  }

  function BeginRetry(s: State, i: nat, delay: int): State
    requires i < |s.tasks.actions|
  {
    var w := s.live.(refundRetry := Some(Retry(true, Some(CeilSecond(s.env.now + delay)))));
    s.(live := w, stored := w, tasks := AtPhase(s.tasks, i, SavingRetry(delay)),
       history := History(true, s.env.now, s.env.now + delay))
  }

  function BeginClear(s: State, i: nat): State
    requires i < |s.tasks.actions|
  {
    var w := Cleared(s.live);
    s.(live := w, stored := w, tasks := AtPhase(s.tasks, i, SavingClear),
       history := s.history.(deferred := false))
  }

  datatype Outcome = Done | Deferred(retryAt: Option<int>) | Threw

  /** A refund callback answered; an unset callback answers nothing. */
  function RefundAnswer(s: State, i: nat, outcome: Outcome): State
    requires i < |s.tasks.actions|
  {
    if !s.env.wired then EndAction(s, i)
    else match outcome
      case Deferred(retryAt) => BeginRetry(s, i, RetryDelay(retryAt, s.env.now))
      case Done => BeginClear(s, i)
      case Threw => if s.live.kind.Chain? then BeginRetry(s, i, RETRY_DELAY) else BeginClear(s, i)
  }

  /** An action resumes: its callback answered, or its save finished. */
  function Advance(s: State, i: nat, outcome: Outcome): State
    requires i < |s.tasks.actions|
  {
    match s.tasks.actions[i].phase
    case AwaitRefund => RefundAnswer(s, i, outcome)
    case SavingRetry(delay) => EndAction(Arm(s, delay), i)
    case AwaitClaimArk =>
      if outcome.Threw? then EndAction(s, i) else s.(tasks := AtPhase(s.tasks, i, AwaitSign))
    case _ => EndAction(s, i)
  }

  /** The handler's last stretch: a pending retry keeps a final swap monitored. */
  function FinishHandler(s: State): State {
    if IsFinal(s.live) && s.timers.entry.None? then Finalize(s) else s
  }

  function NotFoundAnswer(s: State): State {
    if s.timers.entry.Some? then s
    else
      var n, log := s.count.notFound + 1, s.count.log + [Counted];
      if n < NOT_FOUND_THRESHOLD then s.(count := Count(n, log))
      else if !s.monitored then s.(count := Count(0, log + [Reset]))
      else
        var w := s.live.(status := SwapExpired);
        s.(live := w, stored := w, monitored := false,
           count := Count(0, log + [ForcedExpiry(s.timers.entry.Some?)]),
           history := s.history.(dropped := true))
  }

  // ---- Steps ----

  datatype Step =
    | Tick(ms: nat)
    | Start | Connected | Stop
    | Crash(auto: bool)
    | Add | Remove | RemoveSaved
    | Update(status: Status)
    | NotFound
    | Saved | Returned
    | Fire(i: nat) | FireReturned
    | ResumeAction
    | Resumes(i: nat, outcome: Outcome)

  predicate CanFire(s: State, i: nat) {
    && i < |s.timers.timeouts| && s.timers.timeouts[i].due <= s.env.now
    && s.tasks.returning == 0 && s.tasks.fired == 0
  }

  predicate Enabled(s: State, step: Step) {
    match step
    case Connected => s.env.starting > 0
    case RemoveSaved => s.tasks.removing > 0
    case Saved => s.tasks.waiting > 0
    case Returned => s.tasks.returning > 0
    case Fire(i) => CanFire(s, i)
    case FireReturned => s.tasks.fired > 0
    case ResumeAction => s.env.auto && s.monitored && s.timers.entry.None? && Resumable(s.live)
    case Resumes(i, _) => i < |s.tasks.actions|
    case _ => true
  }

  function StartStep(s: State): State {
    if s.env.running then s
    else s.(env := s.env.(running := true, resumed := false, starting := s.env.starting + 1),
            monitored := s.monitored || MonitorOnStart(s.live, s.env.auto),
            history := s.history.(dropped := false))
  }

  function ConnectedStep(s: State): State
    requires s.env.starting > 0
  {
    var t := s.(env := s.env.(starting := s.env.starting - 1, resumed := true));
    if s.env.auto && s.monitored && HasPendingRetry(s.live)
    then Arm(t, PersistedDelay(s.live.refundRetry.value.nextRetryAt.value, s.env.now)) else t
  }

  function StopStep(s: State): State {
    if !s.env.running then s
    else s.(env := s.env.(running := false, resumed := false),
            timers := Cancelled(s.timers), count := Restart(s.count))
  }

  /** The process ends and a new one, with its own configuration, holds what was stored. */
  function CrashStep(s: State, auto: bool): State {
    s.(env := s.env.(auto := auto, running := false, resumed := false, starting := 0), live := s.stored,
        monitored := false,
       timers := s.timers.(entry := None, timeouts := []), count := Restart(s.count), tasks := IDLE)
  }

  function RemoveStep(s: State): State {
    var w := if s.monitored then Cleared(s.live) else s.live;
    s.(live := w, stored := if s.monitored then w else s.stored, monitored := false,
       timers := Cancelled(s.timers), tasks := s.tasks.(removing := s.tasks.removing + 1),
       history := s.history.(deferred := false))
  }

  function RemoveSavedStep(s: State): State
    requires s.tasks.removing > 0
  {
    s.(count := Restart(s.count), tasks := s.tasks.(removing := s.tasks.removing - 1))
  }

  function UpdateStep(s: State, status: Status): State {
    if status == s.live.status then s.(count := Restart(s.count))
    else
      var w := s.live.(status := status);
      s.(live := w, stored := w, count := Restart(s.count), tasks := s.tasks.(waiting := s.tasks.waiting + 1))
  }

  function SavedStep(s: State): State
    requires s.tasks.waiting > 0
  {
    var t := s.(tasks := s.tasks.(waiting := s.tasks.waiting - 1));
    if !s.env.auto then FinishHandler(t)
    else if Starts(t) then BeginAction(t, Handler)
    else t.(tasks := t.tasks.(returning := t.tasks.returning + 1))
  }

  function ReturnedStep(s: State): State
    requires s.tasks.returning > 0
  {
    FinishHandler(s.(tasks := s.tasks.(returning := s.tasks.returning - 1)))
  }

  function FireStep(s: State, i: nat): State
    requires i < |s.timers.timeouts|
  {
    var t := s.(timers := s.timers.(entry := None,
                                    timeouts := s.timers.timeouts[..i] + s.timers.timeouts[i + 1..]));
    if !s.env.running || !s.monitored || s.tasks.locked then t
    else if Starts(t) then BeginAction(t, Timer)
    else t.(tasks := t.tasks.(fired := t.tasks.fired + 1))
  }

  function FireReturnedStep(s: State): State
    requires s.tasks.fired > 0
  {
    FinishHandler(s.(tasks := s.tasks.(fired := s.tasks.fired - 1)))
  }

  function Next(s: State, step: Step): State
    requires Enabled(s, step)
  {
    match step
    case Tick(ms) => s.(env := s.env.(now := s.env.now + ms))
    case Start => StartStep(s)
    case Connected => ConnectedStep(s)
    case Stop => StopStep(s)
    case Crash(auto) => CrashStep(s, auto)
    case Add => s.(monitored := true)
    case Remove => RemoveStep(s)
    case RemoveSaved => RemoveSavedStep(s)
    case Update(status) => UpdateStep(s, status)
    case NotFound => NotFoundAnswer(s)
    case Saved => SavedStep(s)
    case Returned => ReturnedStep(s)
    case Fire(i) => FireStep(s, i)
    case FireReturned => FireReturnedStep(s)
    case ResumeAction => BeginAction(s, Resume)
    case Resumes(i, outcome) => Advance(s, i, outcome)
  }

  /** A run: the steps taken from `s`, and the state they lead to. */
  ghost predicate Run(s: State, steps: seq<Step>, t: State)
    decreases |steps|
  {
    if steps == [] then s == t
    else Enabled(s, steps[0]) && Run(Next(s, steps[0]), steps[1..], t)
  }

  // ---- What every step keeps ----

  predicate LockKept(t: Tasks) {
    |t.actions| <= 1 && (t.locked <==> |t.actions| == 1)
  }

  predicate TimerKept(t: Timers) {
    if t.entry.Some? then |t.timeouts| == 1 && t.timeouts[0].handle == t.entry.value else t.timeouts == []
  }

  predicate ActionsKept(t: Tasks, kind: Kind, deferred: bool) {
    forall a | a in t.actions ::
      && (Refunding(a.phase) ==> CanDefer(kind))
      && (a.phase.SavingClear? ==> !deferred)
  }

  /** A deferred refund is on record, with the second its retry was scheduled for. */
  predicate DeferKept(live: Swap, h: History, now: int) {
    h.deferred ==>
      && CanDefer(live.kind)
      && live.refundRetry == Some(Retry(true, Some(CeilSecond(h.target))))
      && h.scheduledAt <= now
      && h.target <= h.scheduledAt + MAX_RETRY_DELAY
  }

  predicate Inv(s: State) {
    && s.stored == s.live
    && LockKept(s.tasks) && TimerKept(s.timers)
    && ActionsKept(s.tasks, s.live.kind, s.history.deferred)
    && DeferKept(s.live, s.history, s.env.now)
  }

  lemma RefundAnswerKeeps(s: State, i: nat, outcome: Outcome)
    requires Inv(s) && i < |s.tasks.actions| && s.tasks.actions[i].phase.AwaitRefund?
    ensures Inv(RefundAnswer(s, i, outcome))
  {
    assert s.tasks.actions[i] in s.tasks.actions;
  }

  lemma AdvanceKeeps(s: State, i: nat, outcome: Outcome)
    requires Inv(s) && i < |s.tasks.actions|
    ensures Inv(Advance(s, i, outcome))
  {
    if s.tasks.actions[i].phase.AwaitRefund? { RefundAnswerKeeps(s, i, outcome); }
  }

  lemma SavedKeeps(s: State)
    requires Inv(s) && s.tasks.waiting > 0
    ensures Inv(SavedStep(s))
  {
  }

  lemma ReturnedKeeps(s: State)
    requires Inv(s)
    ensures s.tasks.returning > 0 ==> Inv(ReturnedStep(s))
    ensures s.tasks.fired > 0 ==> Inv(FireReturnedStep(s))
  {
  }

  lemma LifecycleKeeps(s: State, step: Step)
    requires Inv(s) && Enabled(s, step)
    requires step.Start? || step.Connected? || step.Stop? || step.Crash? || step.Remove? || step.RemoveSaved?
    ensures Inv(Next(s, step))
  {
  }

  lemma ReportKeeps(s: State, step: Step)
    requires Inv(s) && Enabled(s, step)
    requires step.Tick? || step.Add? || step.Update? || step.NotFound? || step.Fire? || step.ResumeAction?
    ensures Inv(Next(s, step))
  {
  }

  lemma InvStep(s: State, step: Step)
    requires Inv(s) && Enabled(s, step)
    ensures Inv(Next(s, step))
  {
    match step
    case Saved => SavedKeeps(s);
    case Returned => ReturnedKeeps(s);
    case FireReturned => ReturnedKeeps(s);
    case Resumes(i, outcome) => AdvanceKeeps(s, i, outcome);
    case Tick(_) => ReportKeeps(s, step);
    case Add => ReportKeeps(s, step);
    case Update(_) => ReportKeeps(s, step);
    case NotFound => ReportKeeps(s, step);
    case Fire(_) => ReportKeeps(s, step);
    case ResumeAction => ReportKeeps(s, step);
    case _ => LifecycleKeeps(s, step);
  }

  // ---- The 404 counter ----

  /** Counted 404 answers since the count last restarted. */
  function Streak(log: seq<Event>): nat {
    if log == [] then 0
    else match log[|log| - 1]
      case Counted => Streak(log[..|log| - 1]) + 1
      case Reset => 0
      case ForcedExpiry(_) => 0
  }

  ghost predicate ExpiriesEarned(log: seq<Event>) {
    forall i | 0 <= i < |log| && log[i].ForcedExpiry? ::
      Streak(log[..i]) >= NOT_FOUND_THRESHOLD && !log[i].timerArmed
  }

  ghost predicate CountKept(c: Count) { c.notFound == Streak(c.log) && ExpiriesEarned(c.log) }

  lemma StreakExtend(log: seq<Event>, e: Event)
    ensures Streak(log + [e]) == if e == Counted then Streak(log) + 1 else 0
    ensures ExpiriesEarned(log) && (e.ForcedExpiry? ==> Streak(log) >= NOT_FOUND_THRESHOLD && !e.timerArmed)
            ==> ExpiriesEarned(log + [e])
  {
    var l := log + [e];
    assert l[..|l| - 1] == log;
    forall i | 0 <= i < |log| ensures l[..i] == log[..i] { }
  }

  /** What a step can do to the 404 count and its log. */
  predicate LogStep(c: Count, d: Count) {
    || d == c
    || d == Restart(c)
    || (c.notFound + 1 < NOT_FOUND_THRESHOLD && d == Count(c.notFound + 1, c.log + [Counted]))
    || d == Count(0, c.log + [Counted] + [Reset])
    || (c.notFound + 1 >= NOT_FOUND_THRESHOLD && d == Count(0, c.log + [Counted] + [ForcedExpiry(false)]))
  }

  lemma LogChange(s: State, step: Step)
    requires Enabled(s, step)
    ensures LogStep(s.count, Next(s, step).count)
  {
  }

  lemma CountStep(s: State, step: Step)
    requires CountKept(s.count) && Enabled(s, step)
    ensures CountKept(Next(s, step).count)
  {
    LogChange(s, step);
    LogStepKeeps(s.count, Next(s, step).count);
  }

  lemma LogStepKeeps(c: Count, d: Count)
    requires CountKept(c) && LogStep(c, d)
    ensures CountKept(d)
  {
    var log := c.log;
    StreakExtend(log, Reset);
    StreakExtend(log, Counted);
    StreakExtend(log + [Counted], Reset);
    StreakExtend(log + [Counted], ForcedExpiry(false));
  }

  // ---- Main results ----

  /** At most one action per swap is ever in flight, and the lock is exactly that action's. */
  lemma {:induction false} OneActionInFlight(s: State, steps: seq<Step>, t: State)
    requires Inv(s) && Run(s, steps, t)
    ensures Inv(t)
    ensures |t.tasks.actions| <= 1 && (t.tasks.locked <==> |t.tasks.actions| == 1)
    decreases |steps|
  {
    if steps != [] {
      InvStep(s, steps[0]);
      OneActionInFlight(Next(s, steps[0]), steps[1..], t);
    }
  }

  /** A 404 forces expiry only after ten counted answers in a row, and never over an armed retry. */
  lemma {:induction false} ForcedExpiryEarned(s: State, steps: seq<Step>, t: State)
    requires CountKept(s.count) && Run(s, steps, t)
    ensures ExpiriesEarned(t.count.log) && t.count.notFound == Streak(t.count.log)
    decreases |steps|
  {
    if steps != [] {
      CountStep(s, steps[0]);
      ForcedExpiryEarned(Next(s, steps[0]), steps[1..], t);
    }
  }

  /** In every interleaving a deferred refund stays on record until an attempt settles it. */
  lemma DeferredRefundIsDurable(s: State, steps: seq<Step>, t: State)
    requires Init(s) && Run(s, steps, t) && t.history.deferred
    ensures t.stored.refundRetry == Some(Retry(true, Some(CeilSecond(t.history.target))))
    ensures HasPendingRetry(t.stored)
  {
    OneActionInFlight(s, steps, t);
  }

  // ---- A restart ----

  /** A step after which the swap is monitored, whatever it was before. */
  predicate Monitors(s: State, step: Step) {
    step.Add? || (step.Start? && !s.env.running && MonitorOnStart(s.live, s.env.auto))
  }

  /** A finished handler or timer callback that takes a final swap with no retry armed off the monitored set. */
  predicate Finalizes(s: State, step: Step) {
    && (step.Returned? || step.FireReturned? || (step.Saved? && !s.env.auto))
    && IsFinal(s.live) && s.timers.entry.None?
  }

  predicate ForcesExpiry(s: State, step: Step) {
    step.NotFound? && s.timers.entry.None? && s.count.notFound + 1 >= NOT_FOUND_THRESHOLD
  }

  /** A step after which the swap is not monitored. */
  predicate Unmonitors(s: State, step: Step) {
    step.Remove? || step.Crash? || Finalizes(s, step) || ForcesExpiry(s, step)
  }

  lemma MonitoredAfterStep(s: State, step: Step)
    requires Enabled(s, step)
    ensures Next(s, step).monitored <==> Monitors(s, step) || (s.monitored && !Unmonitors(s, step))
  {
  }

  ghost predicate Remonitored(s: State, steps: seq<Step>)
    decreases |steps|
  {
    && steps != [] && Enabled(s, steps[0])
    && (Monitors(s, steps[0]) || Remonitored(Next(s, steps[0]), steps[1..]))
  }

  /** Some step of the run takes the swap off the monitored set, and no later one puts it back. */
  ghost predicate Interrupted(s: State, steps: seq<Step>)
    decreases |steps|
  {
    && steps != [] && Enabled(s, steps[0])
    && var next := Next(s, steps[0]);
       Interrupted(next, steps[1..]) || (Unmonitors(s, steps[0]) && !Remonitored(next, steps[1..]))
  }

  lemma {:induction false} MonitoredAfterRun(s: State, steps: seq<Step>, t: State)
    requires Run(s, steps, t)
    ensures t.monitored <==> (s.monitored || Remonitored(s, steps)) && !Interrupted(s, steps)
    decreases |steps|
  {
    if steps != [] {
      MonitoredAfterStep(s, steps[0]);
      MonitoredAfterRun(Next(s, steps[0]), steps[1..], t);
    }
  }

  /** One timeout, never early, and within a second of the scheduled instant unless that has passed. */
  predicate OneTimerFor(timers: Timers, target: int, now: int) {
    && |timers.timeouts| == 1 && timers.entry == Some(timers.timeouts[0].handle)
    && target <= timers.timeouts[0].due < Max(target + 1000, now + 1)
  }

  /**
   A deferred refund across a restart: `a` is any state a process can be in before `start`, and any
   steps may come between the start and the end of its connection attempt. The retry is armed
   again, as exactly one timer, if and only if none of them took the swap off the monitored set
   for good; otherwise nothing is armed.
   */
  lemma RestartArmsOneTimerIff(s: State, before: seq<Step>, a: State, between: seq<Step>, t: State)
    requires Init(s) && Run(s, before, a) && a.history.deferred && a.env.auto && !a.env.running
    requires Run(StartStep(a), between, t) && t.history.deferred && t.env.auto && t.env.starting > 0
    ensures StartStep(a).monitored
    ensures
      var timers := ConnectedStep(t).timers;
      if Interrupted(StartStep(a), between) then timers == t.timers
      else timers.nextHandle == t.timers.nextHandle + 1 && OneTimerFor(timers, t.history.target, t.env.now)
  {
    OneActionInFlight(s, before, a);
    InvStep(a, Start);
    OneActionInFlight(StartStep(a), between, t);
    MonitoredAfterRun(StartStep(a), between, t);
  }

  // ---- A deferred refund within a run ----

  predicate Busy(s: State) {
    s.tasks.locked || s.tasks.waiting > 0 || (s.env.running && !s.env.resumed)
  }

  /** An update is being saved behind an action that is not a refund, and a refund is due. */
  predicate SkipsRefund(s: State) {
    && s.tasks.locked && s.tasks.waiting == 1 && RefundDue(s.live)
    && exists a | a in s.tasks.actions :: !Refunding(a.phase)
  }

  /**
   Enough, as guards of the steps, for a swap's retry to survive the run: no update once it is not
   monitored; not the last saved update behind the lock of another kind of action; and no removal,
   forced expiry or finalization while something of it is under way. `StrandsIff` is the exact account.
   */
  predicate Calm(s: State, step: Step) {
    match step
    case Update(status) => status == s.live.status || s.monitored
    case Saved =>
      && !SkipsRefund(s)
      && (Finalizes(s, step) && s.monitored ==>
            !s.tasks.locked && s.tasks.waiting == 1 && (s.env.running ==> s.env.resumed))
    case Remove => s.monitored ==> !Busy(s)
    case NotFound => ForcesExpiry(s, step) && s.monitored ==> !Busy(s)
    case Returned => Finalizes(s, step) && s.monitored ==> !Busy(s)
    case FireReturned => Finalizes(s, step) && s.monitored ==> !Busy(s)
    case _ => true
  }

  ghost predicate CalmRun(s: State, steps: seq<Step>)
    decreases |steps|
  {
    steps == [] || (Enabled(s, steps[0]) && Calm(s, steps[0]) && CalmRun(Next(s, steps[0]), steps[1..]))
  }

  /** Something is going to look at the deferred refund again. */
  predicate Covered(s: State) {
    s.monitored && (s.timers.entry.Some? || s.tasks.locked || s.tasks.waiting > 0)
  }

  predicate Served(s: State) {
    && (s.tasks.waiting > 0 || s.tasks.locked ==> s.monitored)
    && (RefundDue(s.live) && s.tasks.waiting == 0 ==> forall a | a in s.tasks.actions :: Refunding(a.phase))
    && (s.env.auto && s.env.running && s.history.deferred && !s.history.dropped ==>
          if !s.env.resumed then s.monitored
          else s.env.wired && RefundDue(s.live) ==> Covered(s))
  }

  lemma ServedAdvance(s: State, i: nat, outcome: Outcome)
    requires Inv(s) && Served(s) && i < |s.tasks.actions|
    ensures Served(Advance(s, i, outcome))
  {
    assert s.tasks.actions[i] in s.tasks.actions;
  }

  lemma ServedHandler(s: State, step: Step)
    requires Inv(s) && Served(s) && Enabled(s, step) && Calm(s, step)
    requires step.Saved? || step.Returned? || step.Fire? || step.FireReturned? || step.ResumeAction?
    ensures Served(Next(s, step))
  {
  }

  lemma ServedStep(s: State, step: Step)
    requires Inv(s) && Served(s) && Enabled(s, step) && Calm(s, step)
    ensures Served(Next(s, step))
  {
    match step
    case Resumes(i, outcome) => ServedAdvance(s, i, outcome);
    case Saved => ServedHandler(s, step);
    case Returned => ServedHandler(s, step);
    case Fire(_) => ServedHandler(s, step);
    case FireReturned => ServedHandler(s, step);
    case ResumeAction => ServedHandler(s, step);
    case _ =>
  }

  lemma {:induction false} ServedRun(s: State, steps: seq<Step>, t: State)
    requires Inv(s) && Served(s) && Run(s, steps, t) && CalmRun(s, steps)
    ensures Inv(t) && Served(t)
    decreases |steps|
  {
    if steps != [] {
      InvStep(s, steps[0]);
      ServedStep(s, steps[0]);
      ServedRun(Next(s, steps[0]), steps[1..], t);
    }
  }

  /** A running manager with auto actions owes the swap a refund attempt. */
  predicate Owed(s: State) {
    && s.env.auto && s.env.wired && s.env.running && s.env.resumed
    && s.history.deferred && !s.history.dropped && RefundDue(s.live)
  }

  /**
   Within a calm run a deferred refund is never left with nothing driving it, until ten 404
   answers in a row take the swap off the monitored set; the next start puts it back.
   */
  lemma NoStrandedRefund(s: State, steps: seq<Step>, t: State)
    requires Init(s) && Run(s, steps, t) && CalmRun(s, steps) && Owed(t)
    ensures Covered(t)
  {
    ServedRun(s, steps, t);
  }

  /**
   What a step that is not calm does to the account calm runs rest on: it breaks what keeps the
   refund served, or it ends the retry. For a late update this holds whatever else is the case.
   */
  lemma NotCalmBreaks(s: State, step: Step)
    requires Inv(s) && Served(s) && Enabled(s, step) && !Calm(s, step)
    requires step.Update? || (s.env.auto && s.env.running && s.history.deferred && RefundDue(s.live))
    ensures var n := Next(s, step); !Served(n) || n.history.dropped || !n.history.deferred
  {
  }

  /**
   After a calm run the one way left is a handler or a timer callback that finishes on a final
   status with no retry armed.
   */
  lemma UncoversIff(s: State, steps: seq<Step>, t: State, step: Step)
    requires Init(s) && Run(s, steps, t) && CalmRun(s, steps) && Enabled(t, step)
    requires Owed(t) && Owed(Next(t, step))
    ensures !Covered(Next(t, step)) <==> Finalizes(t, step)
  {
    ServedRun(s, steps, t);
    StrandsIff(t, step);
    if step.Resumes? { assert t.tasks.actions[step.i] in t.tasks.actions; }
  }

  // ---- Exactly when an owed refund is left behind ----

  /** A running manager that can and does act on its own. */
  predicate Acts(s: State) { s.env.auto && s.env.wired && s.env.running }

  /** An action that is no refund ends here. */
  predicate EndsOther(p: Phase, outcome: Outcome) {
    p.AwaitClaim? || p.AwaitSign? || (p.AwaitClaimArk? && outcome.Threw?)
  }

  predicate Defers(w: Swap, outcome: Outcome) { outcome.Deferred? || (outcome.Threw? && w.kind.Chain?) }

  /**
   The steps that leave an owed refund with nothing driving it, by their guards: a finalization; a
   refund of an unmonitored swap that defers; the end of another action with nothing else pending;
   the end of a connection attempt, or a status update, for a swap that is no longer monitored.
   */
  predicate Strands(s: State, step: Step) {
    Acts(s) &&
    match step
    case Returned => Owed(s) && Finalizes(s, step)
    case FireReturned => Owed(s) && Finalizes(s, step)
    case Resumes(i, outcome) =>
      && i < |s.tasks.actions|
      && var p := s.tasks.actions[i].phase;
         if p.AwaitRefund? then s.env.resumed && RefundDue(s.live) && !s.monitored && Defers(s.live, outcome)
         else EndsOther(p, outcome) && Owed(s) && s.timers.entry.None? && s.tasks.waiting == 0
    case Connected => s.history.deferred && !s.history.dropped && RefundDue(s.live) && !s.monitored
    case Update(status) =>
      && s.env.resumed && s.history.deferred && !s.history.dropped
      && RefundDue(s.live.(status := status)) && !s.monitored
    case _ => false
  }

  predicate LeftBehind(s: State) { Owed(s) && !Covered(s) }

  lemma ResumesStrandsIff(s: State, i: nat, outcome: Outcome)
    requires Inv(s) && i < |s.tasks.actions| && !LeftBehind(s)
    ensures LeftBehind(Advance(s, i, outcome)) <==> Strands(s, Resumes(i, outcome))
  {
    assert s.tasks.actions[i] in s.tasks.actions;
  }

  lemma HandlerStrandsIff(s: State, step: Step)
    requires Inv(s) && Enabled(s, step) && !LeftBehind(s)
    requires step.Saved? || step.Returned? || step.Fire? || step.FireReturned? || step.ResumeAction?
    ensures LeftBehind(Next(s, step)) <==> Strands(s, step)
  {
  }

  /** For every step from a state in which nothing is left behind, whatever went before. */
  lemma StrandsIff(s: State, step: Step)
    requires Inv(s) && Enabled(s, step) && !LeftBehind(s)
    ensures LeftBehind(Next(s, step)) <==> Strands(s, step)
  {
    match step
    case Resumes(i, outcome) => ResumesStrandsIff(s, i, outcome);
    case Saved => HandlerStrandsIff(s, step);
    case Returned => HandlerStrandsIff(s, step);
    case Fire(_) => HandlerStrandsIff(s, step);
    case FireReturned => HandlerStrandsIff(s, step);
    case ResumeAction => HandlerStrandsIff(s, step);
    case _ =>
  }

  /** In no state of the run is an owed refund left behind. */
  ghost predicate NeverLeftBehind(s: State, steps: seq<Step>)
    decreases |steps|
  {
    !LeftBehind(s) && (steps == [] || (Enabled(s, steps[0]) && NeverLeftBehind(Next(s, steps[0]), steps[1..])))
  }

  ghost predicate NeverStrands(s: State, steps: seq<Step>)
    decreases |steps|
  {
    steps == [] || (Enabled(s, steps[0]) && !Strands(s, steps[0]) && NeverStrands(Next(s, steps[0]), steps[1..]))
  }

  /**
   Over whole runs, with no condition on them: an owed refund is never left behind if and only if
   no step strands it.
   */
  lemma {:induction false} NeverLeftBehindIff(s: State, steps: seq<Step>, t: State)
    requires Inv(s) && Run(s, steps, t) && !LeftBehind(s)
    ensures NeverLeftBehind(s, steps) <==> NeverStrands(s, steps)
    decreases |steps|
  {
    if steps != [] {
      InvStep(s, steps[0]);
      StrandsIff(s, steps[0]);
      if !Strands(s, steps[0]) { NeverLeftBehindIff(Next(s, steps[0]), steps[1..], t); }
    }
  }

  lemma {:induction false} RunExtends(s: State, steps: seq<Step>, t: State, step: Step)
    requires Run(s, steps, t) && Enabled(t, step)
    ensures Run(s, steps + [step], Next(t, step))
    decreases |steps|
  {
    if steps == [] {
      assert (steps + [step])[1..] == [];
    } else {
      assert (steps + [step])[1..] == steps[1..] + [step];
      RunExtends(Next(s, steps[0]), steps[1..], t, step);
    }
  }
}
