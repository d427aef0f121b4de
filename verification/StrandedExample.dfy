/**
 Concrete runs in which a deferred refund is left behind by a running manager: through a handler
 turned away by the lock, across a restart, and by 404 answers. They show that the conditions of
 `SwapMachine.NoStrandedRefund` and `SwapMachine.RestartArmsOneTimerIff` are needed.
 */
module StrandedExample {
  import opened Common
  import opened SwapMachine

  /** Nothing in this process will ever look at the swap again. */
  predicate Stranded(s: State) {
    && s.history.deferred && !s.history.dropped && RefundDue(s.live)
    && s.env.auto && s.env.wired && s.env.running && s.env.resumed
    && !s.monitored && s.timers == Timers(None, [], s.timers.nextHandle) && s.tasks == IDLE
  }

  /** A submarine swap under a manager with auto actions; `retry` is the second its retry is due. */
  function Example(env: Env, status: Status, retry: Option<int>, monitored: bool, timers: Timers, log: seq<Event>,
      tasks: Tasks): State
  {
    var w := Swap(Submarine(true), status, if retry.Some? then Some(Retry(true, retry)) else None);
    var history := if retry.None? then History(false, 0, 0)
        else History(true, (retry.value - 60) * 1000, retry.value * 1000);
    State(env, w, w, monitored, timers, Count(0, log), tasks, history)
  }

  function Running(now: int): Env { Env(true, true, now, true, true, 0) }

  function NoTimer(next: nat): Timers { Timers(None, [], next) }

  function TimerAt(handle: nat, due: int): Timers { Timers(Some(handle), [Timeout(handle, due)], handle + 1) }

  function Acting(owner: Owner, phase: Phase): Tasks { Tasks(true, [Action(owner, phase)], 0, 0, 0, 0) }

  // ---- Runs as tables of states and steps ----

  /** One more line of a table. */
  lemma Grow(s: State, steps: seq<Step>, t: State, step: Step, u: State)
    requires Run(s, steps, t) && Enabled(t, step) && Next(t, step) == u
    ensures Run(s, steps + [step], u)
    ensures CalmRun(s, steps) && Calm(t, step) ==> CalmRun(s, steps + [step])
  {
    RunExtends(s, steps, t, step);
    if CalmRun(s, steps) && Calm(t, step) { CalmRunExtends(s, steps, t, step); }
  }

  lemma {:induction false} CalmRunExtends(s: State, steps: seq<Step>, t: State, step: Step)
    requires Run(s, steps, t) && CalmRun(s, steps) && Enabled(t, step) && Calm(t, step)
    ensures CalmRun(s, steps + [step])
    decreases |steps|
  {
    if steps == [] {
      assert (steps + [step])[1..] == [];
    } else {
      assert (steps + [step])[1..] == steps[1..] + [step];
      CalmRunExtends(Next(s, steps[0]), steps[1..], t, step);
    }
  }

  // ---- A handler turned away by the lock ----

  /** The states of the run; `Did(i)` leads from state `i` to the next. */
  function At(i: nat): State {
    var one, two := [Reset], [Reset] + [Reset];
    match i
    case 0 => Example(Env(true, true, 0, false, false, 0), InvoicePending, None, false, NoTimer(0), [], IDLE)
    case 1 => Example(Env(true, true, 0, true, false, 1), InvoicePending, None, true, NoTimer(0), [], IDLE)
    case 2 => Example(Running(0), InvoicePending, None, true, NoTimer(0), [], IDLE)
    case 3 => Example(Running(0), InvoiceFailedToPay, None, true, NoTimer(0), one, IDLE.(waiting := 1))
    case 4 => Example(Running(0), InvoiceFailedToPay, None, true, NoTimer(0), one, Acting(Handler, AwaitRefund))
    case 5 => Example(Running(0), InvoiceFailedToPay, Some(60), true, NoTimer(0), one,
        Acting(Handler, SavingRetry(60_000)))
    case 6 => Example(Running(0), InvoiceFailedToPay, Some(60), true, TimerAt(0, 60_000), one, IDLE.(returning := 1))
    case 7 => Example(Running(0), InvoiceFailedToPay, Some(60), true, TimerAt(0, 60_000), one, IDLE)
    case 8 => Example(Running(60_000), InvoiceFailedToPay, Some(60), true, TimerAt(0, 60_000), one, IDLE)
    case 9 => Example(Running(60_000), SwapExpired, Some(60), true, TimerAt(0, 60_000), two, IDLE.(waiting := 1))
    case 10 => Example(Running(60_000), SwapExpired, Some(60), true, NoTimer(1), two,
        Acting(Timer, AwaitRefund).(waiting := 1))
    case 11 => Example(Running(60_000), SwapExpired, Some(60), true, NoTimer(1), two,
        Acting(Timer, AwaitRefund).(returning := 1))
    case 12 => Example(Running(60_000), SwapExpired, Some(60), false, NoTimer(1), two, Acting(Timer, AwaitRefund))
    case 13 => Example(Running(60_000), SwapExpired, Some(120), false, NoTimer(1), two,
        Acting(Timer, SavingRetry(60_000)))
    case 14 => Example(Running(60_000), SwapExpired, Some(120), false, TimerAt(1, 120_000), two, IDLE.(fired := 1))
    case 15 => Example(Running(60_000), SwapExpired, Some(120), false, TimerAt(1, 120_000), two, IDLE)
    case 16 => Example(Running(120_000), SwapExpired, Some(120), false, TimerAt(1, 120_000), two, IDLE)
    case _ => Example(Running(120_000), SwapExpired, Some(120), false, NoTimer(2), two, IDLE)
  }

  function Did(i: nat): Step {
    match i
    case 0 => Start
    case 1 => Connected
    case 2 => Update(InvoiceFailedToPay)
    case 3 => Saved                         // the handler starts the refund
    case 4 => Resumes(0, Deferred(None))    // which defers for a minute
    case 5 => Resumes(0, Done)
    case 6 => Returned
    case 7 => Tick(60_000)
    case 8 => Update(SwapExpired)           // an update lands, and while it is saved
    case 9 => Fire(0)                       // the retry takes the lock
    case 10 => Saved                        // so the handler is turned away
    case 11 => Returned                     // and finalizes the swap
    case 12 => Resumes(0, Deferred(None))   // what the retry defers
    case 13 => Resumes(0, Done)
    case 14 => FireReturned
    case 15 => Tick(60_000)
    case _ => Fire(0)                       // fires for a swap nobody monitors
  }

  lemma MovesOn(i: nat)
    requires i < 17
    ensures Enabled(At(i), Did(i)) && Next(At(i), Did(i)) == At(i + 1)
  {
    if i < 4 {
      MovesFirst(i);
    } else if i < 8 {
      MovesSecond(i);
    } else if i < 12 {
      MovesThird(i);
    } else {
      MovesLast(i);
    }
  }

  lemma MovesFirst(i: nat)
    requires i < 4
    ensures Enabled(At(i), Did(i)) && Next(At(i), Did(i)) == At(i + 1) && Calm(At(i), Did(i))
  {
  }

  lemma MovesSecond(i: nat)
    requires 4 <= i < 8
    ensures Enabled(At(i), Did(i)) && Next(At(i), Did(i)) == At(i + 1) && Calm(At(i), Did(i))
  {
  }

  lemma MovesThird(i: nat)
    requires 8 <= i < 12
    ensures Enabled(At(i), Did(i)) && Next(At(i), Did(i)) == At(i + 1)
  {
  }

  lemma MovesLast(i: nat)
    requires 12 <= i < 17
    ensures Enabled(At(i), Did(i)) && Next(At(i), Did(i)) == At(i + 1)
  {
  }

  lemma StrandedEnds()
    ensures Init(At(0)) && Stranded(At(17)) && HasPendingRetry(At(17).stored)
  {
  }

  lemma {:induction false} RunTo(i: nat) returns (steps: seq<Step>)
    requires i <= 17
    ensures Run(At(0), steps, At(i))
  {
    steps := [];
    if i > 0 {
      steps := RunTo(i - 1);
      MovesOn(i - 1);
      Grow(At(0), steps, At(i - 1), Did(i - 1), At(i));
      steps := steps + [Did(i - 1)];
    }
  }

  /**
   When a retry fires while a status update is being saved, the update's handler is turned away by
   the lock, finalizes the swap, and what the retry defers is dropped by this process. The record
   still carries it.
   */
  lemma LockSkippedHandlerStrands() returns (s: State, steps: seq<Step>, t: State)
    ensures Init(s) && Run(s, steps, t) && Stranded(t) && HasPendingRetry(t.stored)
  {
    steps := RunTo(17);
    StrandedEnds();
    s, t := At(0), At(17);
  }

  // ---- The same handler across a restart ----

  function RestartAt(i: nat): State {
    var w := At(10);
    var down := Env(true, true, 60_000, false, false, 0);
    var three := [Reset] + [Reset] + [Reset];
    if i <= 10 then At(i)
    else match i
      case 11 => w.(env := down, count := Count(0, three))
      case 12 => w.(env := down.(running := true, starting := 1), count := Count(0, three))
      case 13 =>
        w.(env := down.(running := true, starting := 1), count := Count(0, three),
            tasks := Acting(Timer, AwaitRefund).(returning := 1))
      case 14 =>
        w.(env := down.(running := true, starting := 1), count := Count(0, three), tasks := Acting(Timer, AwaitRefund),
            monitored := false)
      case _ => w.(env := Running(60_000), count := Count(0, three), tasks := Acting(Timer, AwaitRefund),
          monitored := false)
  }

  function RestartDid(i: nat): Step {
    if i < 10 then Did(i)
    else match i
      case 10 => Stop
      case 11 => Start
      case 12 => Saved      // the handler of the old run is turned away by the lock
      case 13 => Returned   // finds no timer, since the stop cleared it, and finalizes the swap
      case _ => Connected   // so there is nothing to arm
  }

  lemma RestartMoves(i: nat)
    requires 10 <= i < 15
    ensures Enabled(RestartAt(i), RestartDid(i)) && Next(RestartAt(i), RestartDid(i)) == RestartAt(i + 1)
  {
  }

  lemma RestartMovesOn(i: nat)
    requires i < 15
    ensures Enabled(RestartAt(i), RestartDid(i)) && Next(RestartAt(i), RestartDid(i)) == RestartAt(i + 1)
  {
    if i < 10 { MovesOn(i); } else { RestartMoves(i); }
  }

  lemma {:induction false} RestartRunTo(i: nat) returns (steps: seq<Step>)
    requires i <= 15
    ensures Run(RestartAt(0), steps, RestartAt(i))
  {
    steps := [];
    if i > 0 {
      steps := RestartRunTo(i - 1);
      RestartMovesOn(i - 1);
      Grow(RestartAt(0), steps, RestartAt(i - 1), RestartDid(i - 1), RestartAt(i));
      steps := steps + [RestartDid(i - 1)];
    }
  }

  /**
   A handler in flight across a stop and a start takes the swap off the monitored set before the
   connection attempt ends: the deferred refund on record is not armed by this start.
   */
  lemma RestartArmsNothing() returns (s: State, steps: seq<Step>, t: State)
    ensures Init(s) && Run(s, steps, t) && HasPendingRetry(t.stored)
    ensures t.history.deferred && t.env == Running(t.env.now) && !t.monitored && t.timers.timeouts == []
  {
    steps := RestartRunTo(15);
    s, t := RestartAt(0), RestartAt(15);
  }

  // ---- A late update ----

  /** The refund of state 4 leaves nothing to retry, so the swap is done with; then one more update lands. */
  function LateAt(i: nat): State {
    var one, two := [Reset], [Reset] + [Reset];
    if i <= 4 then At(i)
    else match i
      case 5 => Example(Running(0), InvoiceFailedToPay, None, true, NoTimer(0), one, Acting(Handler, SavingClear))
      case 6 => Example(Running(0), InvoiceFailedToPay, None, true, NoTimer(0), one, IDLE.(returning := 1))
      case 7 => Example(Running(0), InvoiceFailedToPay, None, false, NoTimer(0), one, IDLE)
      case 8 => Example(Running(0), SwapExpired, None, false, NoTimer(0), two, IDLE.(waiting := 1))
      case 9 => Example(Running(0), SwapExpired, None, false, NoTimer(0), two, Acting(Handler, AwaitRefund))
      case 10 =>
        Example(Running(0), SwapExpired, Some(60), false, NoTimer(0), two, Acting(Handler, SavingRetry(60_000)))
      case 11 => Example(Running(0), SwapExpired, Some(60), false, TimerAt(0, 60_000), two, IDLE.(returning := 1))
      case 12 => Example(Running(0), SwapExpired, Some(60), false, TimerAt(0, 60_000), two, IDLE)
      case 13 => Example(Running(60_000), SwapExpired, Some(60), false, TimerAt(0, 60_000), two, IDLE)
      case _ => Example(Running(60_000), SwapExpired, Some(60), false, NoTimer(1), two, IDLE)
  }

  function LateDid(i: nat): Step {
    if i < 4 then Did(i)
    else match i
      case 4 => Resumes(0, Done)
      case 5 => Resumes(0, Done)
      case 6 => Returned              // final and nothing deferred: the swap leaves the set
      case 7 => Update(SwapExpired)   // an update the poll had already asked for
      case 8 => Saved                 // its handler attempts the refund again
      case 9 => Resumes(0, Deferred(None))
      case 10 => Resumes(0, Done)
      case 11 => Returned
      case 12 => Tick(60_000)
      case _ => Fire(0)               // fires for a swap nobody monitors
  }

  lemma LateMovesFirst(i: nat)
    requires 4 <= i < 9
    ensures Enabled(LateAt(i), LateDid(i)) && Next(LateAt(i), LateDid(i)) == LateAt(i + 1)
  {
  }

  lemma LateMovesLast(i: nat)
    requires 9 <= i < 14
    ensures Enabled(LateAt(i), LateDid(i)) && Next(LateAt(i), LateDid(i)) == LateAt(i + 1)
  {
  }

  lemma LateMovesOn(i: nat)
    requires i < 14
    ensures Enabled(LateAt(i), LateDid(i)) && Next(LateAt(i), LateDid(i)) == LateAt(i + 1)
  {
    if i < 4 {
      MovesFirst(i);
    } else if i < 9 {
      LateMovesFirst(i);
    } else {
      LateMovesLast(i);
    }
  }

  lemma {:induction false} LateRunTo(i: nat) returns (steps: seq<Step>)
    requires i <= 14
    ensures Run(LateAt(0), steps, LateAt(i))
  {
    steps := [];
    if i > 0 {
      steps := LateRunTo(i - 1);
      LateMovesOn(i - 1);
      Grow(LateAt(0), steps, LateAt(i - 1), LateDid(i - 1), LateAt(i));
      steps := steps + [LateDid(i - 1)];
    }
  }

  lemma LateEnds()
    ensures Init(LateAt(0)) && Stranded(LateAt(14)) && HasPendingRetry(LateAt(14).stored)
  {
  }

  /**
   An update handled after its swap has left the monitored set strands what it defers, with no
   handler turned away and nothing else in flight: polling does not ask whether the swap is still
   monitored.
   */
  lemma LateUpdateStrands() returns (s: State, steps: seq<Step>, t: State)
    ensures Init(s) && Run(s, steps, t) && Stranded(t) && HasPendingRetry(t.stored)
  {
    steps := LateRunTo(14);
    LateEnds();
    s, t := LateAt(0), LateAt(14);
  }

  // ---- Forgotten by the provider ----

  function Counts(n: nat): seq<Event> { if n == 0 then [Reset] + [Reset] else Counts(n - 1) + [Counted] }

  /** The deferred swap of state 7 moves to a status that is not refundable, so its retry does nothing. */
  function ForgottenAt(i: nat): State {
    var one, two := [Reset], [Reset] + [Reset];
    if i <= 7 then At(i)
    else match i
      case 8 => Example(Running(0), TransactionMempool, Some(60), true, TimerAt(0, 60_000), two, IDLE.(waiting := 1))
      case 9 => Example(Running(0), TransactionMempool, Some(60), true, TimerAt(0, 60_000), two, IDLE.(returning := 1))
      case 10 => Example(Running(0), TransactionMempool, Some(60), true, TimerAt(0, 60_000), two, IDLE)
      case 11 => Example(Running(60_000), TransactionMempool, Some(60), true, TimerAt(0, 60_000), two, IDLE)
      case 12 => Example(Running(60_000), TransactionMempool, Some(60), true, NoTimer(1), two, IDLE.(fired := 1))
      case _ =>
        if i <= 22 then
          Example(Running(60_000), TransactionMempool, Some(60), true, NoTimer(1), two,
              IDLE).(count := Count(i - 13, Counts(i - 13)))
        else
          var w := Example(Running(60_000), SwapExpired, Some(60), false, NoTimer(1), two, IDLE);
          w.(count := Count(0, Counts(10) + [ForcedExpiry(false)]), history := w.history.(dropped := true))
  }

  function ForgottenDid(i: nat): Step {
    if i < 7 then Did(i)
    else match i
      case 7 => Update(TransactionMempool)
      case 8 => Saved
      case 9 => Returned
      case 10 => Tick(60_000)
      case 11 => Fire(0)
      case 12 => FireReturned
      case _ => NotFound
  }

  lemma ForgottenStarts(i: nat)
    requires 7 <= i < 13
    ensures Enabled(ForgottenAt(i), ForgottenDid(i)) && Next(ForgottenAt(i), ForgottenDid(i)) == ForgottenAt(i + 1)
    ensures Calm(ForgottenAt(i), ForgottenDid(i))
  {
  }

  lemma ForgottenCounts(i: nat)
    requires 13 <= i < 23
    ensures Enabled(ForgottenAt(i), ForgottenDid(i)) && Next(ForgottenAt(i), ForgottenDid(i)) == ForgottenAt(i + 1)
    ensures Calm(ForgottenAt(i), ForgottenDid(i))
  {
  }

  lemma ForgottenMoves(i: nat)
    requires i < 23
    ensures Enabled(ForgottenAt(i), ForgottenDid(i)) && Next(ForgottenAt(i), ForgottenDid(i)) == ForgottenAt(i + 1)
    ensures Calm(ForgottenAt(i), ForgottenDid(i))
  {
    if i < 4 {
      MovesFirst(i);
    } else if i < 7 {
      MovesSecond(i);
    } else if i < 13 {
      ForgottenStarts(i);
    } else {
      ForgottenCounts(i);
    }
  }

  lemma {:induction false} ForgottenRunTo(i: nat) returns (steps: seq<Step>)
    requires i <= 23
    ensures Run(ForgottenAt(0), steps, ForgottenAt(i)) && CalmRun(ForgottenAt(0), steps)
  {
    steps := [];
    if i > 0 {
      steps := ForgottenRunTo(i - 1);
      ForgottenMoves(i - 1);
      Grow(ForgottenAt(0), steps, ForgottenAt(i - 1), ForgottenDid(i - 1), ForgottenAt(i));
      steps := steps + [ForgottenDid(i - 1)];
    }
  }

  /**
   What `dropped` stands for: in a calm run ten 404 answers expire a swap whose retry had nothing
   to refund when it fired. Its deferred refund is due again, on record, and nothing drives it.
   */
  lemma ForcedExpiryDrops() returns (s: State, steps: seq<Step>, t: State)
    ensures Init(s) && Run(s, steps, t) && CalmRun(s, steps) && HasPendingRetry(t.stored)
    ensures Owed(t.(history := t.history.(dropped := false))) && t.history.dropped && !Covered(t)
  {
    steps := ForgottenRunTo(23);
    s, t := ForgottenAt(0), ForgottenAt(23);
    ForgottenEnds();
  }

  lemma ForgottenEnds()
    ensures
      var t := ForgottenAt(23);
      && Init(ForgottenAt(0)) && HasPendingRetry(t.stored) && t.history.dropped && !Covered(t)
      && Owed(t.(history := t.history.(dropped := false)))
  {
  }
}
