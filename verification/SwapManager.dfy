/**
 The Boltz swap manager: one object over many swaps, updated in place by the stretches of code
 between two awaits. The source's maps and sets keyed by swap id are kept as one map of entries.
 Each method is proved to move one swap exactly as `SwapMachine` says and to leave every other
 entry alone; `StartAll`, `ResumePersistedRefundRetries`, `Elapse` and `StopAll` move them all.
 So a run of the manager is a run of the machine for every id at once, and what holds of one swap
 in every run of the machine holds of every swap in every run of the manager.
 */
module SwapManager {
  import opened Common
  import opened SwapMachine

  type Id = string

  /** What the manager and the runtime keep about one swap: the machine's state without `env`. */
  datatype Entry = Entry(
    live: Swap, stored: Swap, monitored: bool,
    timers: Timers, count: Count, tasks: Tasks, history: History)

  function Of(env: Env, e: Entry): State {
    State(env, e.live, e.stored, e.monitored, e.timers, e.count, e.tasks, e.history)
  }

  function EntryOf(s: State): Entry {
    Entry(s.live, s.stored, s.monitored, s.timers, s.count, s.tasks, s.history)
  }

  // ---- Runs of the whole manager ----

  datatype Manager = Manager(env: Env, entries: map<Id, Entry>)

  function ViewOf(m: Manager, id: Id): State
    requires id in m.entries
  {
    Of(m.env, m.entries[id])
  }

  /** The steps that move every swap. */
  predicate ForAll(step: Step) {
    step.Tick? || step.Start? || step.Connected? || step.Stop? || step.Crash?
  }

  datatype Happening = One(id: Id, step: Step) | All(step: Step)

  predicate Possible(m: Manager, h: Happening) {
    match h
    case One(id, step) => !ForAll(step) && id in m.entries && Enabled(ViewOf(m, id), step)
    case All(step) => ForAll(step) && (step.Connected? ==> m.env.starting > 0)
  }

  function EnvAfter(env: Env, step: Step): Env
    requires step.Connected? ==> env.starting > 0
  {
    match step
    case Tick(ms) => env.(now := env.now + ms)
    case Start => if env.running then env else env.(running := true, resumed := false, starting := env.starting + 1)
    case Connected => env.(starting := env.starting - 1, resumed := true)
    case Stop => if env.running then env.(running := false, resumed := false) else env
    case Crash(auto) => env.(auto := auto, running := false, resumed := false, starting := 0)
    case _ => env
  }

  function After(m: Manager, h: Happening): Manager
    requires Possible(m, h)
  {
    match h
    case One(id, step) => m.(entries := m.entries[id := EntryOf(Next(ViewOf(m, id), step))])
    case All(step) => Manager(EnvAfter(m.env, step), map id | id in m.entries :: EntryOf(Next(ViewOf(m, id), step)))
  }

  ghost predicate ManagerRun(m: Manager, happenings: seq<Happening>, n: Manager)
    decreases |happenings|
  {
    if happenings == [] then m == n
    else Possible(m, happenings[0]) && ManagerRun(After(m, happenings[0]), happenings[1..], n)
  }

  /** What a run of the manager is for one swap. */
  function Projection(happenings: seq<Happening>, id: Id): seq<Step> {
    if happenings == [] then []
    else
      (match happenings[0]
       case One(i, step) => if i == id then [step] else []
       case All(step) => [step]) + Projection(happenings[1..], id)
  }

  lemma EnvAfterStep(s: State, step: Step)
    requires Enabled(s, step)
    ensures Next(s, step).env == EnvAfter(s.env, step)
  {
  }

  lemma ViewAfter(m: Manager, h: Happening, id: Id)
    requires Possible(m, h) && id in m.entries
    ensures id in After(m, h).entries
    ensures
      match h
      case One(i, step) => ViewOf(After(m, h), id) == if i == id then Next(ViewOf(m, id), step) else ViewOf(m, id)
      case All(step) => ViewOf(After(m, h), id) == Next(ViewOf(m, id), step)
  {
    match h
    case One(i, step) => if i == id { EnvAfterStep(ViewOf(m, id), step); }
    case All(step) => EnvAfterStep(ViewOf(m, id), step);
  }

  lemma RunCons(s: State, step: Step, rest: seq<Step>, t: State)
    requires Enabled(s, step) && Run(Next(s, step), rest, t)
    ensures Run(s, [step] + rest, t)
  {
    assert ([step] + rest)[1..] == rest;
  }

  /** The manager never mixes two swaps up: for every id its run is a run of the machine. */
  lemma {:induction false} ProjectRun(m: Manager, happenings: seq<Happening>, n: Manager, id: Id)
    requires ManagerRun(m, happenings, n) && id in m.entries
    ensures id in n.entries && Run(ViewOf(m, id), Projection(happenings, id), ViewOf(n, id))
    decreases |happenings|
  {
    if happenings != [] {
      var h, rest := happenings[0], happenings[1..];
      ViewAfter(m, h, id);
      ProjectRun(After(m, h), rest, n, id);
      if h.All? {
        RunCons(ViewOf(m, id), h.step, Projection(rest, id), ViewOf(n, id));
      } else if h.id == id {
        RunCons(ViewOf(m, id), h.step, Projection(rest, id), ViewOf(n, id));
      } else {
        assert [] + Projection(rest, id) == Projection(rest, id);
      }
    }
  }

  lemma {:induction false} SameIds(m: Manager, happenings: seq<Happening>, n: Manager, id: Id)
    requires ManagerRun(m, happenings, n) && id in n.entries
    ensures id in m.entries
    decreases |happenings|
  {
    if happenings != [] { SameIds(After(m, happenings[0]), happenings[1..], n, id); }
  }

  /** Whatever is possible goes on with a run. */
  lemma {:induction false} RunGoesOn(m: Manager, happenings: seq<Happening>, n: Manager, h: Happening)
    requires ManagerRun(m, happenings, n) && Possible(n, h)
    ensures ManagerRun(m, [], m) && ManagerRun(m, happenings + [h], After(n, h))
    decreases |happenings|
  {
    var more := happenings + [h];
    if happenings == [] {
      assert more[0] == h && more[1..] == [];
    } else {
      assert more[0] == happenings[0] && more[1..] == happenings[1..] + [h];
      RunGoesOn(After(m, happenings[0]), happenings[1..], n, h);
    }
  }

  predicate Fresh(m: Manager) { forall id | id in m.entries :: Init(ViewOf(m, id)) }

  /** In every run of the manager no swap has two actions in flight, and each lock is its own action's. */
  lemma EverySwapLocked(m: Manager, happenings: seq<Happening>, n: Manager, id: Id)
    requires Fresh(m) && ManagerRun(m, happenings, n) && id in n.entries
    ensures var t := n.entries[id].tasks; |t.actions| <= 1 && (t.locked <==> |t.actions| == 1)
  {
    SameIds(m, happenings, n, id);
    ProjectRun(m, happenings, n, id);
    OneActionInFlight(ViewOf(m, id), Projection(happenings, id), ViewOf(n, id));
  }

  /** In every run of the manager, crashes included, every deferred refund is on its own record. */
  lemma EveryDeferralDurable(m: Manager, happenings: seq<Happening>, n: Manager, id: Id)
    requires Fresh(m) && ManagerRun(m, happenings, n) && id in n.entries && n.entries[id].history.deferred
    ensures n.entries[id].stored.refundRetry == Some(Retry(true, Some(CeilSecond(n.entries[id].history.target))))
    ensures HasPendingRetry(n.entries[id].stored)
  {
    SameIds(m, happenings, n, id);
    ProjectRun(m, happenings, n, id);
    DeferredRefundIsDurable(ViewOf(m, id), Projection(happenings, id), ViewOf(n, id));
  }

  /** In every run of the manager a 404 expires a swap only on ten counted answers in a row for that swap. */
  lemma EveryExpiryEarned(m: Manager, happenings: seq<Happening>, n: Manager, id: Id)
    requires Fresh(m) && ManagerRun(m, happenings, n) && id in n.entries
    ensures ExpiriesEarned(n.entries[id].count.log) && n.entries[id].count.notFound == Streak(n.entries[id].count.log)
  {
    SameIds(m, happenings, n, id);
    ProjectRun(m, happenings, n, id);
    ForcedExpiryEarned(ViewOf(m, id), Projection(happenings, id), ViewOf(n, id));
  }

  /** Every swap whose own part of the run was calm has its owed refund driven, whatever befell the others. */
  lemma EverySwapServed(m: Manager, happenings: seq<Happening>, n: Manager, id: Id)
    requires Fresh(m) && ManagerRun(m, happenings, n) && id in m.entries
    requires CalmRun(ViewOf(m, id), Projection(happenings, id))
    ensures id in n.entries && (Owed(ViewOf(n, id)) ==> Covered(ViewOf(n, id)))
  {
    ProjectRun(m, happenings, n, id);
    if Owed(ViewOf(n, id)) { NoStrandedRefund(ViewOf(m, id), Projection(happenings, id), ViewOf(n, id)); }
  }

  /** In every run of the manager a swap is left behind at some point exactly when one of its own steps strands it. */
  lemma NoSwapLeftBehindIff(m: Manager, happenings: seq<Happening>, n: Manager, id: Id)
    requires Fresh(m) && ManagerRun(m, happenings, n) && id in m.entries
    ensures
      var s, steps := ViewOf(m, id), Projection(happenings, id);
      NeverLeftBehind(s, steps) <==> NeverStrands(s, steps)
  {
    ProjectRun(m, happenings, n, id);
    NeverLeftBehindIff(ViewOf(m, id), Projection(happenings, id), ViewOf(n, id));
  }

  /**
   A restart arms every deferred refund again, each as exactly one timer, and leaves alone exactly
   those whose own swap was taken off the monitored set for good before the connection attempt ended.
   */
  lemma EverySwapRearmed(m: Manager, before: seq<Happening>, a: Manager, between: seq<Happening>, n: Manager)
    requires Fresh(m) && ManagerRun(m, before, a) && a.env.auto && !a.env.running
    requires ManagerRun(After(a, All(Start)), between, n) && n.env.auto && n.env.starting > 0
    ensures forall id | id in n.entries && id in a.entries && Deferring(a, id) && Deferring(n, id) ::
              ArmedUnless(Interrupted(StartStep(ViewOf(a, id)), Projection(between, id)), n, id)
  {
    forall id | id in n.entries && id in a.entries && Deferring(a, id) && Deferring(n, id)
      ensures ArmedUnless(Interrupted(StartStep(ViewOf(a, id)), Projection(between, id)), n, id)
    {
      SwapRearmed(m, before, a, between, n, id);
    }
  }

  predicate Deferring(m: Manager, id: Id) { id in m.entries && m.entries[id].history.deferred }

  /** Once the connection attempt is over the swap has its one timer, or its timers are as they were. */
  ghost predicate ArmedUnless(interrupted: bool, n: Manager, id: Id)
    requires id in n.entries && n.env.starting > 0
  {
    var timers := After(n, All(Connected)).entries[id].timers;
    if interrupted then timers == n.entries[id].timers
    else
      && timers.nextHandle == n.entries[id].timers.nextHandle + 1
      && OneTimerFor(timers, n.entries[id].history.target, n.env.now)
  }

  lemma SwapRearmed(m: Manager, before: seq<Happening>, a: Manager, between: seq<Happening>, n: Manager, id: Id)
    requires Fresh(m) && ManagerRun(m, before, a) && a.env.auto && !a.env.running
    requires ManagerRun(After(a, All(Start)), between, n) && n.env.auto && n.env.starting > 0
    requires Deferring(a, id) && Deferring(n, id)
    ensures ArmedUnless(Interrupted(StartStep(ViewOf(a, id)), Projection(between, id)), n, id)
  {
    SameIds(m, before, a, id);
    ProjectRun(m, before, a, id);
    ViewAfter(a, All(Start), id);
    ProjectRun(After(a, All(Start)), between, n, id);
    RestartArmsOneTimerIff(ViewOf(m, id), Projection(before, id), ViewOf(a, id),
                           Projection(between, id), ViewOf(n, id));
    ViewAfter(n, All(Connected), id);
  }

  // ---- The object ----

  /** An entry once `start` has taken the swap up. */
  function Started(e: Entry, auto: bool): Entry {
    e.(monitored := e.monitored || MonitorOnStart(e.live, auto), history := e.history.(dropped := false))
  }

  /** An entry once the connection attempt is over. */
  function Rearmed(e: Entry, env: Env): Entry {
    if env.auto && e.monitored && HasPendingRetry(e.live)
    then
      var delay := PersistedDelay(e.live.refundRetry.value.nextRetryAt.value, env.now);
      e.(timers := Armed(e.timers, env.now + delay))
    else e
  }

  lemma RearmedConnected(e: Entry, before: Env)
    requires before.starting > 0
    ensures var env := EnvAfter(before, Connected); Of(env, Rearmed(e, env)) == ConnectedStep(Of(before, e))
  {
  }

  class SwapManager {
    const enableAutoActions: bool
    const callbacksSet: bool
    var now: int
    var isRunning: bool
    var resumed: bool
    var starting: nat
    var entries: map<Id, Entry>

    ghost function EnvView(): Env
      reads this
    {
      Env(enableAutoActions, callbacksSet, now, isRunning, resumed, starting)
    }

    /** One swap as the manager holds it. */
    ghost function View(id: Id): State
      requires id in entries
      reads this
    {
      Of(EnvView(), entries[id])
    }

    ghost function Current(): Manager
      reads this
    {
      Manager(EnvView(), entries)
    }

    /** A method that moves one swap as a step of the machine is that step of the manager's run. */
    twostate lemma MovedHappened(id: Id, step: Step)
      requires old(Possible(Current(), One(id, step))) && Moved(id, Next(old(View(id)), step))
      ensures Current() == After(old(Current()), One(id, step))
    {
    }

    /** And so is one that moves them all. */
    twostate lemma AllMovedHappened(step: Step)
      requires old(Possible(Current(), All(step))) && AllMoved(step)
      ensures Current() == After(old(Current()), All(step))
    {
      var n := After(old(Current()), All(step));
      forall id | id in entries ensures n.entries[id] == entries[id] {
        assert View(id) == Next(old(View(id)), step);
      }
      assert n.entries == entries;
    }

    /** The swap is now `s`; the manager and every other swap are as they were. */
    twostate predicate Moved(id: Id, s: State)
      reads this
    {
      EnvView() == old(EnvView()) == s.env && entries == old(entries)[id := EntryOf(s)]
    }

    constructor (auto: bool, wired: bool, stored: map<Id, Swap>)
      ensures enableAutoActions == auto && callbacksSet == wired && entries.Keys == stored.Keys
      ensures forall id | id in stored :: View(id).live == stored[id]
      ensures forall id | id in stored && stored[id].refundRetry.None? :: Init(View(id))
    {
      enableAutoActions, callbacksSet := auto, wired;
      now, isRunning, resumed, starting := 0, false, false, 0;
      entries := map id | id in stored ::
        Entry(stored[id], stored[id], false, Timers(None, [], 0), Count(0, []), IDLE, History(false, 0, 0));
    }

    /** A new process over what an earlier one stored. */
    constructor Restarted(auto: bool, before: Manager)
      ensures Current() == After(before, All(Crash(auto)))
    {
      enableAutoActions, callbacksSet, now := auto, before.env.wired, before.env.now;
      isRunning, resumed, starting := false, false, 0;
      entries := map id | id in before.entries ::
        var e := before.entries[id];
        Entry(e.stored, e.stored, false, Timers(None, [], e.timers.nextHandle), Restart(e.count), IDLE, e.history);
    }

    // ---- Timers ----

    method ClearTimer(id: Id)
      requires id in entries
      modifies `entries
      ensures Moved(id, old(View(id)).(timers := Cancelled(old(View(id)).timers)))
    {
      var t := entries[id].timers;
      if t.entry.Some? {
        entries := entries[id := entries[id].(timers :=
            t.(entry := None, timeouts := Without(t.timeouts, t.entry.value)))];
      }
    }

    method ArmRefundRetryTimer(id: Id, delayMs: int)
      requires id in entries
      modifies `entries
      ensures Moved(id, Arm(old(View(id)), delayMs))
    {
      ClearTimer(id);
      var t := entries[id].timers;
      var timeouts := t.timeouts + [Timeout(t.nextHandle, now + delayMs)];
      entries := entries[id := entries[id].(timers := Timers(Some(t.nextHandle), timeouts, t.nextHandle + 1))];
    }

    method FinalizeMonitoredSwap(id: Id)
      requires id in entries
      modifies `entries
      ensures Moved(id, Finalize(old(View(id))))
    {
      if entries[id].monitored {
        ClearTimer(id);
        entries := entries[id := entries[id].(monitored := false)];
      }
    }

    // ---- Actions ----

    /** The first stretch of `executeAutonomousAction`: `ran` is its answer when it awaits nothing. */
    method ExecuteAutonomousAction(id: Id, owner: Owner) returns (ran: bool, suspended: bool)
      requires id in entries
      modifies `entries
      ensures Moved(id, BeginAction(old(View(id)), owner))
      ensures ran == !old(View(id)).tasks.locked && suspended == Starts(old(View(id)))
    {
      var t := entries[id].tasks;
      if t.locked { return false, false; }
      var phase := FirstPhase(entries[id].live);
      if phase.None? { return true, false; }
      t := t.(locked := true, actions := t.actions + [Action(owner, phase.value)]);
      entries := entries[id := entries[id].(tasks := t)];
      return true, true;
    }

    /** The `finally` of an action, and the caller it makes ready. */
    method ReleaseLock(id: Id, i: nat)
      requires id in entries && i < |entries[id].tasks.actions|
      modifies `entries
      ensures Moved(id, EndAction(old(View(id)), i))
    {
      var t := entries[id].tasks;
      var owner := t.actions[i].owner;
      t := t.(locked := false, actions := t.actions[..i] + t.actions[i + 1..]);
      if owner == Handler { t := t.(returning := t.returning + 1); }
      if owner == Timer { t := t.(fired := t.fired + 1); }
      entries := entries[id := entries[id].(tasks := t)];
    }

    method EnterPhase(id: Id, i: nat, p: Phase)
      requires id in entries && i < |entries[id].tasks.actions|
      modifies `entries
      ensures Moved(id, old(View(id)).(tasks := AtPhase(old(View(id)).tasks, i, p)))
    {
      var t := entries[id].tasks;
      entries := entries[id := entries[id].(tasks := t.(actions := t.actions[i := t.actions[i].(phase := p)]))];
    }

    method SaveSwap(id: Id, w: Swap)
      requires id in entries
      modifies `entries
      ensures Moved(id, SetLive(old(View(id)), w))
    {
      entries := entries[id := entries[id].(live := w, stored := w)];
    }

    method ScheduleRefundRetry(id: Id, i: nat, delayMs: int)
      requires id in entries && i < |entries[id].tasks.actions|
      modifies `entries
      ensures Moved(id, BeginRetry(old(View(id)), i, delayMs))
    {
      SaveSwap(id, entries[id].live.(refundRetry := Some(Retry(true, Some(CeilSecond(now + delayMs))))));
      EnterPhase(id, i, SavingRetry(delayMs));
      entries := entries[id := entries[id].(history := History(true, now, now + delayMs))];
    }

    method ClearRefundRetry(id: Id, i: nat)
      requires id in entries && i < |entries[id].tasks.actions|
      modifies `entries
      ensures Moved(id, BeginClear(old(View(id)), i))
    {
      SaveSwap(id, Cleared(entries[id].live));
      EnterPhase(id, i, SavingClear);
      entries := entries[id := entries[id].(history := entries[id].history.(deferred := false))];
    }

    method RefundAnswered(id: Id, i: nat, outcome: Outcome)
      requires id in entries && i < |entries[id].tasks.actions|
      modifies `entries
      ensures Moved(id, RefundAnswer(old(View(id)), i, outcome))
    {
      if !callbacksSet {
        ReleaseLock(id, i);
      } else {
        match outcome
        case Deferred(retryAt) => ScheduleRefundRetry(id, i, RetryDelay(retryAt, now));
        case Done => ClearRefundRetry(id, i);
        case Threw =>
          if entries[id].live.kind.Chain? {
            ScheduleRefundRetry(id, i, RETRY_DELAY);
          } else {
            ClearRefundRetry(id, i);
          }
      }
    }

    method ActionResumes(id: Id, i: nat, outcome: Outcome)
      requires id in entries && i < |entries[id].tasks.actions|
      modifies `entries
      ensures Moved(id, Next(old(View(id)), Resumes(i, outcome)))
    {
      match entries[id].tasks.actions[i].phase
      case AwaitRefund => RefundAnswered(id, i, outcome);
      case SavingRetry(delay) =>
        ArmRefundRetryTimer(id, delay);
        ReleaseLock(id, i);
      case AwaitClaimArk =>
        if outcome.Threw? { ReleaseLock(id, i); } else { EnterPhase(id, i, AwaitSign); }
      case _ => ReleaseLock(id, i);
    }

    method ResumeActionableSwap(id: Id)
      requires id in entries && Enabled(View(id), ResumeAction)
      modifies `entries
      ensures Moved(id, Next(old(View(id)), ResumeAction))
    {
      var _, _ := ExecuteAutonomousAction(id, Resume);
    }

    // ---- Status updates ----

    method HandleSwapStatusUpdate(id: Id, newStatus: Status)
      requires id in entries
      modifies `entries
      ensures Moved(id, UpdateStep(old(View(id)), newStatus))
    {
      entries := entries[id := entries[id].(count := Restart(entries[id].count))];
      if entries[id].live.status == newStatus { return; }
      SaveSwap(id, entries[id].live.(status := newStatus));
      var t := entries[id].tasks;
      entries := entries[id := entries[id].(tasks := t.(waiting := t.waiting + 1))];
    }

    /** A pending retry keeps a final swap; otherwise it leaves the monitored set. */
    method FinishIfFinal(id: Id)
      requires id in entries
      modifies `entries
      ensures Moved(id, FinishHandler(old(View(id))))
    {
      if IsFinal(entries[id].live) && entries[id].timers.entry.None? { FinalizeMonitoredSwap(id); }
    }

    /** The handler goes on once its save has finished. */
    method StatusSaved(id: Id)
      requires id in entries && entries[id].tasks.waiting > 0
      modifies `entries
      ensures Moved(id, Next(old(View(id)), Saved))
    {
      var t := entries[id].tasks;
      entries := entries[id := entries[id].(tasks := t.(waiting := t.waiting - 1))];
      if !enableAutoActions {
        FinishIfFinal(id);
      } else {
        var _, suspended := ExecuteAutonomousAction(id, Handler);
        if !suspended {
          t := entries[id].tasks;
          entries := entries[id := entries[id].(tasks := t.(returning := t.returning + 1))];
        }
      }
    }

    /** The handler goes on once its action call has returned. */
    method ActionReturned(id: Id)
      requires id in entries && entries[id].tasks.returning > 0
      modifies `entries
      ensures Moved(id, Next(old(View(id)), Returned))
    {
      var t := entries[id].tasks;
      entries := entries[id := entries[id].(tasks := t.(returning := t.returning - 1))];
      FinishIfFinal(id);
    }

    method RetryTimerFires(id: Id, i: nat)
      requires id in entries && CanFire(View(id), i)
      modifies `entries
      ensures Moved(id, Next(old(View(id)), Fire(i)))
    {
      var t := entries[id].timers;
      entries := entries[id := entries[id].(timers :=
          t.(entry := None, timeouts := t.timeouts[..i] + t.timeouts[i + 1..]))];
      if !isRunning || !entries[id].monitored { return; }
      var ran, suspended := ExecuteAutonomousAction(id, Timer);
      if ran && !suspended {
        var c := entries[id].tasks;
        entries := entries[id := entries[id].(tasks := c.(fired := c.fired + 1))];
      }
    }

    method RetryReturned(id: Id)
      requires id in entries && entries[id].tasks.fired > 0
      modifies `entries
      ensures Moved(id, Next(old(View(id)), FireReturned))
    {
      var t := entries[id].tasks;
      entries := entries[id := entries[id].(tasks := t.(fired := t.fired - 1))];
      FinishIfFinal(id);
    }

    // ---- 404 answers ----

    method HandleSwapNotFound(id: Id)
      requires id in entries
      modifies `entries
      ensures Moved(id, Next(old(View(id)), NotFound))
    {
      if entries[id].timers.entry.Some? { return; }
      var n := entries[id].count.notFound + 1;
      entries := entries[id := entries[id].(count := Count(n, entries[id].count.log + [Counted]))];
      if n >= NOT_FOUND_THRESHOLD { MarkSwapAsUnknownToProvider(id); }
    }

    method MarkSwapAsUnknownToProvider(id: Id)
      requires id in entries && entries[id].timers.entry.None?
      modifies `entries
      ensures
        var s := old(View(id));
        Moved(id, if s.monitored
                  then SetLive(s, s.live.(status := SwapExpired)).(
                         monitored := false, count := Count(0, s.count.log + [ForcedExpiry(false)]),
                         history := s.history.(dropped := true))
                  else s.(count := Restart(s.count)))
    {
      if !entries[id].monitored {
        entries := entries[id := entries[id].(count := Restart(entries[id].count))];
        return;
      }
      entries := entries[id := entries[id].(monitored := false,
                                            count := Count(0, entries[id].count.log + [ForcedExpiry(false)]),
                                            history := entries[id].history.(dropped := true))];
      SaveSwap(id, entries[id].live.(status := SwapExpired));
    }

    // ---- The manager's own lifecycle ----

    method AddSwap(id: Id)
      requires id in entries
      modifies `entries
      ensures Moved(id, Next(old(View(id)), Add))
    {
      entries := entries[id := entries[id].(monitored := true)];
    }

    method RemoveSwap(id: Id)
      requires id in entries
      modifies `entries
      ensures Moved(id, Next(old(View(id)), Remove))
    {
      var monitored := entries[id].monitored;
      ClearTimer(id);
      var t := entries[id].tasks;
      entries := entries[id := entries[id].(monitored := false, tasks := t.(removing := t.removing + 1),
                                            history := entries[id].history.(deferred := false))];
      if monitored { SaveSwap(id, Cleared(entries[id].live)); }
    }

    method RemovalSaved(id: Id)
      requires id in entries && entries[id].tasks.removing > 0
      modifies `entries
      ensures Moved(id, Next(old(View(id)), RemoveSaved))
    {
      var t := entries[id].tasks;
      entries := entries[id := entries[id].(tasks := t.(removing := t.removing - 1))];
      entries := entries[id := entries[id].(count := Restart(entries[id].count))];
    }

    /** Every swap has moved as `step` says. */
    twostate predicate AllMoved(step: Step)
      requires old(Possible(Current(), All(step)))
      reads this
    {
      && entries.Keys == old(entries.Keys) && EnvView() == EnvAfter(old(EnvView()), step)
      && forall id | id in entries :: View(id) == Next(old(View(id)), step)
    }

    /** Called with every stored swap. */
    method StartAll()
      modifies this
      ensures AllMoved(Start)
    {
      if isRunning { return; }
      isRunning, resumed, starting := true, false, starting + 1;
      var todo := entries.Keys;
      while todo != {}
        invariant todo <= entries.Keys == old(entries.Keys)
        invariant forall id | id in entries :: entries[id] == if id in todo then old(entries[id])
            else Started(old(entries[id]), enableAutoActions)
        modifies `entries
        decreases todo
      {
        var id :| id in todo;
        var e := entries[id];
        if MonitorOnStart(e.live, enableAutoActions) { e := e.(monitored := true); }
        entries := entries[id := e.(history := e.history.(dropped := false))];
        todo := todo - {id};
      }
    }

    /** One turn of the loop below, for a monitored swap. */
    method ResumePersistedRefundRetry(id: Id)
      requires id in entries && enableAutoActions && entries[id].monitored
      modifies `entries
      ensures entries == old(entries)[id := Rearmed(old(entries[id]), EnvView())]
    {
      var w := entries[id].live;
      if HasPendingRetry(w) { ArmRefundRetryTimer(id, PersistedDelay(w.refundRetry.value.nextRetryAt.value, now)); }
    }

    /** The connection attempt is over: persisted retries are armed again. */
    method ResumePersistedRefundRetries()
      requires starting > 0
      modifies this
      ensures AllMoved(Connected)
    {
      starting, resumed := starting - 1, true;
      ghost var env := EnvView();
      var todo := set id | id in entries && entries[id].monitored && enableAutoActions;
      while todo != {}
        invariant EnvView() == env && todo <= entries.Keys == old(entries.Keys)
        invariant forall id | id in entries :: entries[id] == if id in todo then old(entries[id])
            else Rearmed(old(entries[id]), env)
        decreases todo
      {
        var id :| id in todo;
        ResumePersistedRefundRetry(id);
        todo := todo - {id};
      }
      forall id | id in entries ensures View(id) == ConnectedStep(old(View(id))) {
        RearmedConnected(old(entries[id]), old(EnvView()));
      }
    }

    method Elapse(ms: nat)
      modifies `now
      ensures AllMoved(Tick(ms))
    {
      now := now + ms;
    }

    method StopAll()
      modifies this
      ensures AllMoved(Stop)
    {
      if !isRunning { return; }
      isRunning, resumed := false, false;
      ghost var env := EnvView();
      var todo := entries.Keys;
      while todo != {}
        invariant EnvView() == env && todo <= entries.Keys == old(entries.Keys)
        invariant forall id | id in todo :: entries[id] == old(entries[id])
        invariant forall id | id in entries && id !in todo :: Of(env, entries[id]) == StopStep(old(View(id)))
        decreases todo
      {
        var id :| id in todo;
        ClearTimer(id);
        entries := entries[id := entries[id].(count := Restart(entries[id].count))];
        todo := todo - {id};
      }
    }
  }
}
