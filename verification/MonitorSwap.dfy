/**
 The status channel of one swap: a WebSocket that may fail in any way, REST polling behind it, and
 one promise that must settle once and leave nothing running.
 */
module MonitorSwap {
  import opened Common

  /** The closed set of statuses, and whatever else the server might send. */
  datatype Status =
    | InvoiceExpired | InvoiceFailedToPay | InvoicePaid | InvoicePending | InvoiceSet | InvoiceSettled
    | SwapCreated | SwapExpired
    | ClaimPending | Claimed | Confirmed | Failed | LockupFailed | Mempool | Refunded | ServerMempool | ServerConfirmed
    | Unknown(name: string)

  /** A status as it arrives: whether it can be re-quoted, and whether the caller's callback throws on it. */
  datatype Report = Report(status: Status, negotiable: bool, throws: bool)

  /** `transaction.lockupFailed` ends the watch only when there is nothing to negotiate. */
  predicate Terminal(r: Report) {
    match r.status
    case InvoiceSettled => true
    case Claimed => true
    case Refunded => true
    case InvoiceExpired => true
    case InvoiceFailedToPay => true
    case Failed => true
    case SwapExpired => true
    case LockupFailed => !r.negotiable
    case _ => false
  }

  /** The closure's variables: which handles are held. */
  datatype Held = Held(socket: bool, polling: bool, timeout: bool)

  /** The outside: is the socket up, did it open, is the connection timeout still to fire, answers awaited. */
  datatype Outside = Outside(up: bool, wasOpen: bool, armed: bool, awaited: nat)

  /** What the caller saw: the reports it was given, and how often its promise was settled. */
  datatype Seen = Seen(reports: seq<Report>, settlements: nat)

  datatype State = State(settled: bool, lastStatus: Option<Status>, held: Held, out: Outside, seen: Seen)

  // ---- The closure's functions ----

  function Cleanup(s: State): State {
    s.(held := Held(false, false, false), out := s.out.(armed := s.out.armed && !s.held.timeout))
  }

  function Finish(s: State): State {
    if s.settled then s
    else Cleanup(s).(settled := true, seen := s.seen.(settlements := s.seen.settlements + 1))
  }

  /** A callback that throws is swallowed by the caller of this, before the channel is closed. */
  function HandleStatus(s: State, r: Report): State {
    if s.settled || s.lastStatus == Some(r.status) then s
    else
      var noted := s.(lastStatus := Some(r.status));
      if r.status.Unknown? then noted
      else
        var told := noted.(seen := s.seen.(reports := s.seen.reports + [r]));
        if Terminal(r) && !r.throws then Finish(told) else told
  }

  function ClearTimeout(s: State): State {
    if s.held.timeout then s.(held := s.held.(timeout := false), out := s.out.(armed := false)) else s
  }

  /** Starting to poll issues the first request at once. */
  function StartPolling(s: State): State {
    if s.settled || s.held.polling then s
    else s.(held := s.held.(polling := true), out := s.out.(awaited := s.out.awaited + 1))
  }

  // ---- Events, in any order ----

  datatype Event =
    | Opened
    | Errored
    | Closed
    | Message(report: Report)
    | ErrorMessage
    | TimedOut
    | Tick
    | Answer(report: Report)
    | NoAnswer

  function Start(constructed: bool): State {
    var s := State(false, None, Held(constructed, false, constructed), Outside(constructed, false, constructed, 0),
        Seen([], 0));
    if constructed then s else StartPolling(s)
  }

  predicate Enabled(s: State, e: Event) {
    match e
    case TimedOut => s.out.armed
    case Tick => s.held.polling
    case Answer(_) => s.out.awaited > 0
    case NoAnswer => s.out.awaited > 0
    case _ => true
  }

  function OnOpen(s: State): State {
    var c := ClearTimeout(s);
    c.(out := c.out.(wasOpen := true))
  }

  function OnError(s: State): State {
    var c := ClearTimeout(s);
    StartPolling(c.(held := c.held.(socket := false), out := c.out.(up := false)))
  }

  /** A closed socket's handle is kept; polling takes over all the same. */
  function OnClose(s: State): State {
    var c := ClearTimeout(s);
    StartPolling(c.(out := c.out.(up := false)))
  }

  /** The timer has fired, so nothing is left to fire; its handle stays where it was. */
  function OnTimeout(s: State): State {
    StartPolling(s.(held := s.held.(socket := false), out := s.out.(armed := false)))
  }

  function OnTick(s: State): State {
    if s.settled then s else s.(out := s.out.(awaited := s.out.awaited + 1))
  }

  function Answered(s: State): State
    requires s.out.awaited > 0
  {
    s.(out := s.out.(awaited := s.out.awaited - 1))
  }

  function Next(s: State, e: Event): State
    requires Enabled(s, e)
  {
    match e
    case Opened => OnOpen(s)
    case Errored => OnError(s)
    case Closed => OnClose(s)
    case Message(r) => HandleStatus(s, r)
    case ErrorMessage => Finish(s)
    case TimedOut => OnTimeout(s)
    case Tick => OnTick(s)
    case Answer(r) => HandleStatus(Answered(s), r)
    case NoAnswer => Answered(s)
  }

  function After(constructed: bool, events: seq<Event>): Option<State> {
    if events == [] then Some(Start(constructed))
    else
      var before := After(constructed, events[..|events| - 1]);
      if before.Some? && Enabled(before.value, events[|events| - 1])
          then Some(Next(before.value, events[|events| - 1])) else None
  }

  // ---- What every state keeps ----

  /**
   Settled leaves nothing running; unsettled is polling, or has a socket that is up and open or still
   on the clock.
   */
  ghost predicate NothingLeftNothingLost(s: State) {
    && (s.out.armed ==> s.held.timeout)
    && s.seen.settlements == (if s.settled then 1 else 0)
    && (s.settled ==> s.held == Held(false, false, false) && !s.out.armed)
    && (!s.settled && !s.held.polling ==> s.held.socket && s.out.up && (s.out.wasOpen || s.out.armed))
  }

  ghost predicate NoneAfterTerminal(s: State) {
    forall i | 0 <= i < |s.seen.reports| && Terminal(s.seen.reports[i]) && !s.seen.reports[i].throws ::
      s.settled && i == |s.seen.reports| - 1
  }

  function Latest(s: State): Option<Status> {
    if s.seen.reports == [] then None else Some(s.seen.reports[|s.seen.reports| - 1].status)
  }

  /** What was noted last is what was forwarded last, unless it was a status the channel does not know. */
  ghost predicate Noted(s: State) {
    s.lastStatus == Latest(s) || (s.lastStatus.Some? && s.lastStatus.value.Unknown?)
  }

  ghost predicate KnownOnly(s: State) { forall r | r in s.seen.reports :: !r.status.Unknown? }

  ghost predicate Inv(s: State) { NothingLeftNothingLost(s) && NoneAfterTerminal(s) && Noted(s) && KnownOnly(s) }

  lemma FinishKeeps(s: State)
    requires Inv(s)
    ensures Inv(Finish(s))
  {
  }

  lemma HandleStatusKeeps(s: State, r: Report)
    requires Inv(s)
    ensures Inv(HandleStatus(s, r))
  {
  }

  lemma NextKeeps(s: State, e: Event)
    requires Inv(s) && Enabled(s, e)
    ensures Inv(Next(s, e))
  {
    match e
    case Message(r) => HandleStatusKeeps(s, r);
    case Answer(r) => HandleStatusKeeps(Answered(s), r);
    case ErrorMessage => FinishKeeps(s);
    case _ =>
  }

  lemma {:induction false} ReachableInv(constructed: bool, events: seq<Event>)
    requires After(constructed, events).Some?
    ensures Inv(After(constructed, events).value)
  {
    if events != [] {
      ReachableInv(constructed, events[..|events| - 1]);
      NextKeeps(After(constructed, events[..|events| - 1]).value, events[|events| - 1]);
    }
  }

  // ---- What a caller may rely on ----

  /**
   The promise settles at most once; settled holds no socket, poll timer or timeout; unsettled is still
   being served.
   */
  lemma SettlesOnceAndCleansUp(constructed: bool, events: seq<Event>)
    requires After(constructed, events).Some?
    ensures
      var s := After(constructed, events).value;
      && s.seen.settlements == (if s.settled then 1 else 0)
      && (s.settled ==> !s.held.socket && !s.held.polling && !s.held.timeout && !s.out.armed)
      && (!s.settled ==> s.held.polling || (s.held.socket && s.out.up && (s.out.wasOpen || s.out.armed)))
  {
    ReachableInv(constructed, events);
  }

  /** Once settled, nothing that still arrives is told to the caller or starts anything. */
  lemma SettledIsFinal(constructed: bool, events: seq<Event>, e: Event)
    requires After(constructed, events).Some? && After(constructed, events).value.settled
        && Enabled(After(constructed, events).value, e)
    ensures
      var s := After(constructed, events).value;
      var n := Next(s, e);
      n.settled && n.seen == s.seen && n.held == s.held && n.out.awaited <= s.out.awaited
  {
    ReachableInv(constructed, events);
  }

  /** A terminal report the callback took without throwing is the last one, and it settled the promise. */
  lemma NothingAfterTerminal(constructed: bool, events: seq<Event>, i: nat)
    requires After(constructed, events).Some?
    requires i < |After(constructed, events).value.seen.reports|
    requires var r := After(constructed, events).value.seen.reports[i]; Terminal(r) && !r.throws
    ensures After(constructed, events).value.settled && i == |After(constructed, events).value.seen.reports| - 1
  {
    ReachableInv(constructed, events);
  }

  /** Telling the caller a terminal status settles the promise, exactly when the callback does not throw. */
  lemma TerminalSettlesIff(s: State, r: Report)
    requires !s.settled && s.lastStatus != Some(r.status) && Terminal(r)
    ensures HandleStatus(s, r).seen.reports == s.seen.reports + [r]
    ensures HandleStatus(s, r).settled <==> !r.throws
  {
  }

  /**
   Which reports settle the promise, status by status: news of one of the seven ends, or of a failed
   lockup that cannot be negotiated, on a channel that has not settled, and only if the callback took it.
   */
  lemma SettlesIff(s: State, r: Report)
    requires !s.settled
    ensures HandleStatus(s, r).settled <==>
              && s.lastStatus != Some(r.status) && !r.throws
              && (|| r.status in {InvoiceSettled, InvoiceExpired, InvoiceFailedToPay, SwapExpired}
                  || r.status in {Claimed, Refunded, Failed}
                  || (r.status == LockupFailed && !r.negotiable))
    ensures HandleStatus(s, r).seen.reports ==
              s.seen.reports + (if s.lastStatus == Some(r.status) || r.status.Unknown? then [] else [r])
  {
  }

  /** The loss of the socket: polling takes over with a first request, unless it already has or all is settled. */
  predicate TakesOver(s: State, n: State) {
    && n.settled == s.settled && n.lastStatus == s.lastStatus && n.seen == s.seen
    && n.held.polling == (s.held.polling || !s.settled)
    && n.out.awaited == s.out.awaited + (if s.held.polling || s.settled then 0 else 1)
  }

  /**
   The events of the connection. An error, a close or a timeout lets polling take over; an error and a
   timeout drop the socket, a close keeps its handle; all but the timeout itself stop the clock.
   */
  lemma ConnectionEvents(s: State)
    ensures
      var n := Next(s, Opened);
      && n.settled == s.settled && n.seen == s.seen && n.lastStatus == s.lastStatus && n.out.wasOpen
      && n.held == s.held.(timeout := false) && n.out.awaited == s.out.awaited && n.out.up == s.out.up
      && n.out.armed == (s.out.armed && !s.held.timeout)
    ensures
      var n := Next(s, Errored);
      && TakesOver(s, n) && !n.held.socket && !n.held.timeout && !n.out.up
      && n.out.armed == (s.out.armed && !s.held.timeout)
    ensures
      var n := Next(s, Closed);
      && TakesOver(s, n) && n.held.socket == s.held.socket && !n.held.timeout && !n.out.up
      && n.out.armed == (s.out.armed && !s.held.timeout)
    ensures s.out.armed ==>
              var n := Next(s, TimedOut);
              TakesOver(s, n) && !n.held.socket && n.held.timeout == s.held.timeout && !n.out.armed
  {
  }

  /** A socket that could be made is on the clock; otherwise polling has begun. */
  lemma StartsWith()
    ensures Start(true).held == Held(true, false, true) && Start(true).out == Outside(true, false, true, 0)
    ensures Start(false).held == Held(false, true, false) && Start(false).out == Outside(false, false, false, 1)
    ensures forall c :: !Start(c).settled && Start(c).lastStatus.None? && Start(c).seen == Seen([], 0)
  {
  }

  /** Polling asks once at every tick until the promise settles, and what is asked is answered or lost. */
  lemma PollsOn(s: State, r: Report)
    ensures Enabled(s, Tick) <==> s.held.polling
    ensures Enabled(s, TimedOut) <==> s.out.armed
    ensures Enabled(s, Answer(r)) <==> s.out.awaited > 0
    ensures Enabled(s, NoAnswer) <==> s.out.awaited > 0
    ensures Enabled(s, Tick) && !s.settled ==> Next(s, Tick) == s.(out := s.out.(awaited := s.out.awaited + 1))
    ensures Enabled(s, Tick) && s.settled ==> Next(s, Tick) == s
    ensures Enabled(s, NoAnswer) ==> Next(s, NoAnswer) == s.(out := s.out.(awaited := s.out.awaited - 1))
  {
  }

  predicate Repeats(reports: seq<Report>) {
    |reports| >= 2 && reports[|reports| - 1].status == reports[|reports| - 2].status
  }

  /** A report repeats the one before it, exactly when a status outside the closed set was noted in between. */
  lemma RepeatsIff(constructed: bool, events: seq<Event>, r: Report)
    requires After(constructed, events).Some?
    ensures
      var s := After(constructed, events).value;
      var n := HandleStatus(s, r);
      n.seen.reports != s.seen.reports && Repeats(n.seen.reports) <==>
        !s.settled && s.lastStatus.Some? && s.lastStatus.value.Unknown? && Latest(s) == Some(r.status)
  {
    ReachableInv(constructed, events);
  }

  lemma AfterOne(constructed: bool, events: seq<Event>, e: Event)
    requires After(constructed, events).Some? && Enabled(After(constructed, events).value, e)
    ensures After(constructed, events + [e]) == Some(Next(After(constructed, events).value, e))
  {
    assert (events + [e])[..|events|] == events;
  }

  /** Such a run: the same status twice, with one the channel does not know between. */
  lemma RepeatExample(name: string)
    ensures
      var m, u := Report(Mempool, false, false), Report(Unknown(name), false, false);
      var s := After(true, [] + [Message(m)] + [Message(u)] + [Message(m)]);
      s.Some? && s.value.seen.reports == [m, m]
  {
    var m, u := Report(Mempool, false, false), Report(Unknown(name), false, false);
    AfterOne(true, [], Message(m));
    AfterOne(true, [] + [Message(m)], Message(u));
    AfterOne(true, [] + [Message(m)] + [Message(u)], Message(m));
  }

  /** A run whose callback throws on a terminal status: the channel stays open and forwards more. */
  lemma ThrowingCallbackExample()
    ensures
      var c, m := Report(Claimed, false, true), Report(Mempool, false, false);
      var s := After(true, [] + [Message(c)] + [Message(m)]);
      s.Some? && !s.value.settled && s.value.seen.reports == [] + [c] + [m]
  {
    var c, m := Report(Claimed, false, true), Report(Mempool, false, false);
    var s1 := Start(true).(lastStatus := Some(Claimed), seen := Seen([] + [c], 0));
    AfterOne(true, [], Message(c));
    assert After(true, [] + [Message(c)]) == Some(s1);
    AfterOne(true, [] + [Message(c)], Message(m));
    assert HandleStatus(s1, m).seen.reports == [] + [c] + [m];
  }

  predicate Reports(e: Event) { e.Message? || e.Answer? }

  ghost predicate ClosedSet(events: seq<Event>) {
    forall e | e in events && Reports(e) :: !e.report.status.Unknown?
  }

  /** Over the closed status set, no status is forwarded twice in a row. */
  lemma {:induction false} NoStatusTwiceInARow(constructed: bool, events: seq<Event>)
    requires After(constructed, events).Some? && ClosedSet(events)
    ensures
      var s := After(constructed, events).value;
      && s.lastStatus == Latest(s)
      && forall i, j | 0 <= i < |s.seen.reports| && j == i + 1 && j < |s.seen.reports| ::
           s.seen.reports[i].status != s.seen.reports[j].status
  {
    if events != [] {
      var front, e := events[..|events| - 1], events[|events| - 1];
      assert e in events && forall x | x in front :: x in events;
      NoStatusTwiceInARow(constructed, front);
      var s := After(constructed, front).value;
      if !Reports(e) { OnlyReportsAreTold(s, e); }
    }
  }

  lemma OnlyReportsAreTold(s: State, e: Event)
    requires Enabled(s, e) && !Reports(e)
    ensures Next(s, e).seen.reports == s.seen.reports && Next(s, e).lastStatus == s.lastStatus
  {
  }

  // ---- The closure ----

  class Monitor {
    var settled: bool
    var lastStatus: Option<Status>
    var socket: bool
    var pollTimer: bool
    var connectionTimeout: bool
    ghost var out: Outside
    ghost var seen: Seen

    ghost function View(): State reads this {
      State(settled, lastStatus, Held(socket, pollTimer, connectionTimeout), out, seen)
    }

    constructor (constructed: bool)
      ensures View() == Start(constructed)
    {
      settled, lastStatus, socket, pollTimer, connectionTimeout := false, None, constructed, !constructed, constructed;
      out, seen := Outside(constructed, false, constructed, if constructed then 0 else 1), Seen([], 0);
    }

    method FinishNow()
      modifies this
      ensures View() == Finish(old(View()))
    {
      if settled { return; }
      settled := true;
      if connectionTimeout { connectionTimeout, out := false, out.(armed := false); }
      pollTimer, socket := false, false;
      seen := seen.(settlements := seen.settlements + 1);
    }

    method Handle(r: Report)
      modifies this
      ensures View() == HandleStatus(old(View()), r)
    {
      if settled || lastStatus == Some(r.status) { return; }
      lastStatus := Some(r.status);
      if r.status.Unknown? { return; }
      seen := seen.(reports := seen.reports + [r]);
      if Terminal(r) && !r.throws { FinishNow(); }
    }

    method Poll()
      modifies this
      ensures View() == StartPolling(old(View()))
    {
      if settled || pollTimer { return; }
      pollTimer := true;
      out := out.(awaited := out.awaited + 1);
    }

    method StopTimeout()
      modifies this
      ensures View() == ClearTimeout(old(View()))
    {
      if connectionTimeout { connectionTimeout, out := false, out.(armed := false); }
    }

    method Open()
      modifies this
      ensures View() == Next(old(View()), Opened)
    {
      StopTimeout();
      out := out.(wasOpen := true);
    }

    method Error()
      modifies this
      ensures View() == Next(old(View()), Errored)
    {
      StopTimeout();
      socket, out := false, out.(up := false);
      Poll();
    }

    method Close()
      modifies this
      ensures View() == Next(old(View()), Closed)
    {
      StopTimeout();
      out := out.(up := false);
      if !settled && !pollTimer { Poll(); }
    }

    method Timeout()
      requires out.armed
      modifies this
      ensures View() == Next(old(View()), TimedOut)
    {
      out := out.(armed := false);
      socket := false;
      Poll();
    }

    method PollAnswer(r: Option<Report>)
      requires out.awaited > 0
      modifies this
      ensures View() == Next(old(View()), if r.Some? then Answer(r.value) else NoAnswer)
    {
      out := out.(awaited := out.awaited - 1);
      if r.Some? { Handle(r.value); }
    }
  }
}
