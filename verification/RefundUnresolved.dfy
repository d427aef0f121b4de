/**
 Ask first, then fall back: watch a swap until the solver resolves it, and once the refund locktime
 has passed take the lockup back. A polling loop over whatever the solver, the indexer and the
 server answer.
 */
module RefundUnresolved {
  import opened Common

  datatype Outpoint = Outpoint(txid: string, vout: nat)

  datatype Listed = Listed(outpoint: Outpoint, value: int)

  datatype LockupVtxo = LockupVtxo(outpoint: Outpoint, value: int, recoverable: bool)

  // ---- What is at the lockup ----

  predicate Seen(out: seq<LockupVtxo>, o: Outpoint) { exists v | v in out :: v.outpoint == o }

  function Merge(out: seq<LockupVtxo>, vtxos: seq<Listed>, recoverable: bool): seq<LockupVtxo>
    decreases |vtxos|
  {
    if vtxos == [] then out
    else
      var v := vtxos[0];
      var next := if Seen(out, v.outpoint) then out else out + [LockupVtxo(v.outpoint, v.value, recoverable)];
      Merge(next, vtxos[1..], recoverable)
  }

  function Found(spendable: seq<Listed>, recoverable: seq<Listed>): seq<LockupVtxo> {
    Merge(Merge([], spendable, false), recoverable, true)
  }

  method MergeInto(out: seq<LockupVtxo>, vtxos: seq<Listed>, recoverable: bool) returns (r: seq<LockupVtxo>)
    ensures r == Merge(out, vtxos, recoverable)
  {
    r := out;
    ghost var all := Merge(out, vtxos, recoverable);
    var i := 0;
    while i < |vtxos|
      invariant 0 <= i <= |vtxos|
      invariant Merge(r, vtxos[i..], recoverable) == all
    {
      if !Seen(r, vtxos[i].outpoint) { r := r + [LockupVtxo(vtxos[i].outpoint, vtxos[i].value, recoverable)]; }
      i := i + 1;
    }
  }

  method FindLockupVtxos(spendable: seq<Listed>, recoverable: seq<Listed>) returns (out: seq<LockupVtxo>)
    ensures out == Found(spendable, recoverable)
  {
    out := MergeInto([], spendable, false);
    out := MergeInto(out, recoverable, true);
  }

  ghost predicate Distinct(out: seq<LockupVtxo>) {
    forall i, j | 0 <= i < j < |out| :: out[i].outpoint != out[j].outpoint
  }

  predicate Names(vtxos: seq<Listed>, o: Outpoint) { exists v | v in vtxos :: v.outpoint == o }

  /** Merging keeps what is there, adds each new outpoint once, and adds nothing else. */
  lemma {:induction false} MergeExact(out: seq<LockupVtxo>, vtxos: seq<Listed>, recoverable: bool)
    requires Distinct(out)
    ensures Distinct(Merge(out, vtxos, recoverable)) && out <= Merge(out, vtxos, recoverable)
    ensures forall o :: Seen(Merge(out, vtxos, recoverable), o) <==> Seen(out, o) || Names(vtxos, o)
    ensures forall v | v in Merge(out, vtxos, recoverable) ::
              v in out || (v.recoverable == recoverable && !Seen(out, v.outpoint)
                  && Listed(v.outpoint, v.value) in vtxos)
    decreases |vtxos|
  {
    if vtxos != [] {
      var v := vtxos[0];
      var entry := LockupVtxo(v.outpoint, v.value, recoverable);
      var next := if Seen(out, v.outpoint) then out else out + [entry];
      assert Distinct(next) by {
        if !Seen(out, v.outpoint) { assert forall i | 0 <= i < |out| :: out[i] in out; }
      }
      MergeExact(next, vtxos[1..], recoverable);
      SeenNext(out, v, recoverable);
      forall o ensures Names(vtxos, o) <==> o == v.outpoint || Names(vtxos[1..], o) {
        NamesCons(vtxos, o);
      }
    }
  }

  lemma NamesCons(vtxos: seq<Listed>, o: Outpoint)
    requires vtxos != []
    ensures Names(vtxos, o) <==> o == vtxos[0].outpoint || Names(vtxos[1..], o)
  {
    assert vtxos[0] in vtxos && forall v | v in vtxos :: v == vtxos[0] || v in vtxos[1..];
  }

  lemma SeenNext(out: seq<LockupVtxo>, v: Listed, recoverable: bool)
    ensures
      var next := if Seen(out, v.outpoint) then out else out + [LockupVtxo(v.outpoint, v.value, recoverable)];
      && (forall o :: Seen(next, o) <==> Seen(out, o) || o == v.outpoint)
      && (forall e | e in next ::
            e in out || (e.outpoint == v.outpoint && e.value == v.value && e.recoverable == recoverable))
  {
    var entry := LockupVtxo(v.outpoint, v.value, recoverable);
    assert entry in out + [entry] && forall e | e in out :: e in out + [entry];
  }

  /** Every outpoint either list names, once; recoverable exactly when the spendable list does not name it. */
  lemma FoundExact(spendable: seq<Listed>, recoverable: seq<Listed>)
    ensures
      var out := Found(spendable, recoverable);
      && Distinct(out)
      && (forall o :: Seen(out, o) <==> Names(spendable, o) || Names(recoverable, o))
      && (forall v | v in out :: v.recoverable <==> !Names(spendable, v.outpoint))
      && (forall v | v in out :: Listed(v.outpoint, v.value) in if v.recoverable then recoverable else spendable)
  {
    MergeExact([], spendable, false);
    var live := Merge([], spendable, false);
    MergeExact(live, recoverable, true);
    forall v | v in Found(spendable, recoverable)
      ensures v.recoverable <==> !Names(spendable, v.outpoint)
      ensures Listed(v.outpoint, v.value) in if v.recoverable then recoverable else spendable
    {
      if v in live { assert Seen(live, v.outpoint); }
    }
  }

  // ---- One pass ----

  datatype State = Settled | Refunded | Refused | Expired | Stuck | InProgress

  predicate IsResolved(s: State) { s == Settled || s == Refunded }

  /** What one pass meets: the solver's answer, the clock, the indexer's two lists, the push, the clock again. */
  datatype Pass = Pass(
    status: Result<Option<State>, string>, now: int, lists: Result<(seq<Listed>, seq<Listed>), string>,
    push: Result<(), string>, later: int)

  datatype Terms = Terms(refundLocktime: int, attemptDeadline: int)

  const REFUND_MTP_LAG_SECONDS := 7200

  function TermsFor(refundLocktime: int, attemptDeadline: Option<int>): Terms {
    Terms(refundLocktime, if attemptDeadline.Some? then attemptDeadline.value
        else refundLocktime + REFUND_MTP_LAG_SECONDS)
  }

  datatype Outcome =
    | Resolved(state: State)
    | TakenBack(amount: int)
    | NothingToRefund
    | NeedsRecovery(swept: seq<Outpoint>)
    | Thrown(error: string)

  function Sum(vtxos: seq<LockupVtxo>): int {
    if vtxos == [] then 0 else vtxos[0].value + Sum(vtxos[1..])
  }

  function Swept(vtxos: seq<LockupVtxo>): seq<Outpoint> {
    if vtxos == [] then [] else (if vtxos[0].recoverable then [vtxos[0].outpoint] else []) + Swept(vtxos[1..])
  }

  /** What a pass ends the wait with, if it ends it. */
  function Step(p: Pass, t: Terms): Option<Outcome> {
    if p.status.Err? then Some(Thrown(p.status.error))
    else if p.status.value.Some? && IsResolved(p.status.value.value) then Some(Resolved(p.status.value.value))
    else if p.now < t.refundLocktime then None
    else if p.lists.Err? then Some(Thrown(p.lists.error))
    else
      var vtxos := Found(p.lists.value.0, p.lists.value.1);
      if vtxos == [] then Some(NothingToRefund)
      else if Swept(vtxos) != [] then Some(NeedsRecovery(Swept(vtxos)))
      else if p.push.Ok? then Some(TakenBack(Sum(vtxos)))
      else if p.later >= t.attemptDeadline then Some(Thrown(p.push.error))
      else None
  }

  /** A pass that saw the swap not resolved. */
  predicate Unresolved(p: Pass) {
    p.status.Ok? && p.status.value != Some(Settled) && p.status.value != Some(Refunded)
  }

  predicate Late(p: Pass, t: Terms) { p.now >= Max(t.refundLocktime, t.attemptDeadline) }

  // ---- The loop ----

  /**
   `pushRefundWithoutReceiver` as far as it decides: refusal of swept outputs, and the amount.
   `issued`: it submitted.
   */
  method PushRefund(vtxos: seq<LockupVtxo>, push: Result<(), string>)
      returns (r: Result<int, Outcome>, ghost issued: bool)
    requires vtxos != []
    ensures issued <==> Swept(vtxos) == []
    ensures r == if Swept(vtxos) != [] then Err(NeedsRecovery(Swept(vtxos)))
                 else if push.Ok? then Ok(Sum(vtxos)) else Err(Thrown(push.error))
  {
    var swept: seq<Outpoint>, amount := [], 0;
    var i := |vtxos|;
    while i > 0
      invariant 0 <= i <= |vtxos|
      invariant swept == Swept(vtxos[i..]) && amount == Sum(vtxos[i..])
    {
      i := i - 1;
      if vtxos[i].recoverable { swept := [vtxos[i].outpoint] + swept; }
      amount := vtxos[i].value + amount;
    }
    assert vtxos[0..] == vtxos;
    issued := false;
    if |swept| > 0 { return Err(NeedsRecovery(swept)), issued; }
    issued := true;
    if push.Err? { return Err(Thrown(push.error)), issued; }
    return Ok(amount), issued;
  }

  /** One pass: what it ends the wait with, and whether it submitted a refund. */
  method OnePass(p: Pass, t: Terms) returns (end: Option<Outcome>, ghost issued: bool)
    ensures end == Step(p, t)
    ensures issued || end.None? ==> Unresolved(p)
    ensures end.Some? && end.value.Resolved? <==> p.status.Ok? && !Unresolved(p)
    ensures end.Some? && end.value.Resolved? ==> p.status.value == Some(end.value.state)
    ensures issued ==> p.now >= t.refundLocktime
    ensures issued && p.push.Ok? <==> end.Some? && end.value.TakenBack?
  {
    issued := false;
    if p.status.Err? { return Some(Thrown(p.status.error)), issued; }
    if p.status.value.Some? && IsResolved(p.status.value.value) { return Some(Resolved(p.status.value.value)), issued; }
    if p.now < t.refundLocktime { return None, issued; }
    if p.lists.Err? { return Some(Thrown(p.lists.error)), issued; }
    var vtxos := FindLockupVtxos(p.lists.value.0, p.lists.value.1);
    if |vtxos| == 0 { return Some(NothingToRefund), issued; }
    var pushed;
    pushed, issued := PushRefund(vtxos, p.push);
    if pushed.Ok? { return Some(TakenBack(pushed.value)), issued; }
    if pushed.error.NeedsRecovery? || p.later >= t.attemptDeadline { return Some(pushed.error), issued; }
    return None, issued;
  }

  /** The passes at which the loop submitted a refund, in order: each due, none after a resolved answer or a success. */
  ghost predicate PushedInTime(passes: nat -> Pass, t: Terms, pushes: seq<nat>) {
    && (forall k, l | 0 <= k < l < |pushes| :: pushes[k] < pushes[l] && passes(pushes[k]).push.Err?)
    && (forall k | 0 <= k < |pushes| :: passes(pushes[k]).now >= t.refundLocktime)
    && (forall k, i: nat | 0 <= k < |pushes| && i <= pushes[k] :: Unresolved(passes(i)))
  }

  lemma PushedOneMore(passes: nat -> Pass, t: Terms, pushes: seq<nat>, last: nat)
    requires PushedInTime(passes, t, pushes)
    requires forall k | 0 <= k < |pushes| :: pushes[k] < last && passes(pushes[k]).push.Err?
    requires passes(last).now >= t.refundLocktime && forall i: nat | i <= last :: Unresolved(passes(i))
    ensures PushedInTime(passes, t, pushes + [last])
  {
  }

  /** Every pass before `last` decided nothing. */
  ghost predicate Undecided(passes: nat -> Pass, t: Terms, last: nat) {
    forall i: nat | i < last :: Step(passes(i), t) == None && !Late(passes(i), t)
  }

  /** None of them saw the swap resolved, and what they submitted was refused. */
  ghost predicate SoFarRefused(passes: nat -> Pass, t: Terms, last: nat, pushes: seq<nat>) {
    && (forall i: nat | i < last :: Unresolved(passes(i)))
    && PushedInTime(passes, t, pushes)
    && (forall k | 0 <= k < |pushes| :: pushes[k] < last && passes(pushes[k]).push.Err?)
  }

  function More(pushes: seq<nat>, last: nat, issued: bool): seq<nat> { if issued then pushes + [last] else pushes }

  lemma RefusedMore(passes: nat -> Pass, t: Terms, last: nat, pushes: seq<nat>, issued: bool)
    requires SoFarRefused(passes, t, last, pushes) && Unresolved(passes(last))
    requires issued ==> passes(last).now >= t.refundLocktime && passes(last).push.Err?
    ensures SoFarRefused(passes, t, last + 1, More(pushes, last, issued))
  {
    if issued { PushedOneMore(passes, t, pushes, last); }
  }

  lemma NotLate(p: Pass, t: Terms)
    requires Step(p, t) == None && p.now <= p.later
    ensures !Late(p, t)
  {
  }

  /** What was submitted by the end of the wait; only the last can have gone through, and then it is the outcome. */
  ghost predicate Pushed(passes: nat -> Pass, t: Terms, last: nat, outcome: Outcome, pushes: seq<nat>) {
    && PushedInTime(passes, t, pushes) && (forall k | 0 <= k < |pushes| :: pushes[k] <= last)
    && (outcome.TakenBack? <==> pushes != [] && passes(pushes[|pushes| - 1]).push.Ok?)
  }

  lemma PushedAtEnd(passes: nat -> Pass, t: Terms, last: nat, outcome: Outcome, pushes: seq<nat>, issued: bool)
    requires SoFarRefused(passes, t, last, pushes)
    requires issued ==> Unresolved(passes(last)) && passes(last).now >= t.refundLocktime
    requires issued && passes(last).push.Ok? <==> outcome.TakenBack?
    ensures Pushed(passes, t, last, outcome, More(pushes, last, issued))
  {
    if issued { PushedOneMore(passes, t, pushes, last); }
  }

  /**
   The wait ends with what its last pass decided, no pass before it decided anything, and it ends
   no later than the first pass at or after both deadlines. No refund is submitted early, after the
   swap was seen resolved, or after one that went through.
   */
  method RefundIfUnresolved(passes: nat -> Pass, refundLocktime: int, attemptDeadline: Option<int>, ghost horizon: nat)
    returns (outcome: Outcome, last: nat, ghost pushes: seq<nat>)
    requires forall i :: passes(i).now <= passes(i).later
    requires Late(passes(horizon), TermsFor(refundLocktime, attemptDeadline))
    ensures Ends(passes, TermsFor(refundLocktime, attemptDeadline), last, outcome)
    ensures
      var deadline := match attemptDeadline case Some(d) => d case None => refundLocktime + 7200;
      forall i: nat | refundLocktime <= passes(i).now && deadline <= passes(i).now :: last <= i
    ensures Pushed(passes, TermsFor(refundLocktime, attemptDeadline), last, outcome, pushes)
  {
    var t := TermsFor(refundLocktime, attemptDeadline);
    last, pushes := 0, [];
    while true
      invariant Undecided(passes, t, last) && SoFarRefused(passes, t, last, pushes)
      decreases horizon - last
    {
      ghost var issued;
      var end;
      end, issued := OnePass(passes(last), t);
      if end.Some? {
        PushedAtEnd(passes, t, last, end.value, pushes, issued);
        pushes := More(pushes, last, issued);
        return end.value, last, pushes;
      }
      NotLate(passes(last), t);
      RefusedMore(passes, t, last, pushes, issued);
      pushes := More(pushes, last, issued);
      last := last + 1;
    }
  }

  // ---- What a caller may rely on ----

  ghost predicate Ends(passes: nat -> Pass, t: Terms, last: nat, outcome: Outcome) {
    Step(passes(last), t) == Some(outcome) && forall i | 0 <= i < last :: Step(passes(i), t) == None
  }

  lemma {:induction false} NothingSweptIff(vtxos: seq<LockupVtxo>)
    ensures Swept(vtxos) == [] <==> forall v | v in vtxos :: !v.recoverable
    ensures forall o :: o in Swept(vtxos) <==> exists v | v in vtxos :: v.recoverable && v.outpoint == o
  {
    if vtxos != [] {
      NothingSweptIff(vtxos[1..]);
      assert vtxos[0] in vtxos && forall v | v in vtxos :: v == vtxos[0] || v in vtxos[1..];
    }
  }

  /** A reported refund: every outpoint the indexer named, each once, all of them live, and their exact sum. */
  lemma TakenBackExact(passes: nat -> Pass, t: Terms, last: nat, amount: int)
    requires Ends(passes, t, last, TakenBack(amount))
    ensures passes(last).lists.Ok? && passes(last).push.Ok? && passes(last).now >= t.refundLocktime
    ensures
      var (spendable, recoverable) := passes(last).lists.value;
      var taken := Found(spendable, recoverable);
      && amount == Sum(taken) && Distinct(taken)
      && (forall v | v in taken :: !v.recoverable && Listed(v.outpoint, v.value) in spendable)
      && (forall o :: Names(spendable, o) || Names(recoverable, o) <==> Seen(taken, o))
  {
    var (spendable, recoverable) := passes(last).lists.value;
    FoundExact(spendable, recoverable);
    NothingSweptIff(Found(spendable, recoverable));
  }

  /**
   A pass that finds its window open reports recovery exactly when some output is only in the swept
   list, and names all of those.
   */
  lemma NeedsRecoveryIff(p: Pass, t: Terms)
    requires Unresolved(p)
    requires p.now >= t.refundLocktime && p.lists.Ok?
    ensures
      var (spendable, recoverable) := p.lists.value;
      && (Step(p, t).Some? && Step(p, t).value.NeedsRecovery? <==>
          exists v | v in recoverable :: !Names(spendable, v.outpoint))
      && (Step(p, t).Some? && Step(p, t).value.NeedsRecovery? ==>
            forall o :: o in Step(p, t).value.swept <==> Names(recoverable, o) && !Names(spendable, o))
  {
    var (spendable, recoverable) := p.lists.value;
    var vtxos := Found(spendable, recoverable);
    FoundExact(spendable, recoverable);
    NothingSweptIff(vtxos);
    SweptAreNamed(spendable, recoverable);
    forall v | v in recoverable && !Names(spendable, v.outpoint) ensures v.outpoint in Swept(vtxos) {
      assert Names(recoverable, v.outpoint);
    }
    if Swept(vtxos) != [] {
      var o := Swept(vtxos)[0];
      assert o in Swept(vtxos);
      var v :| v in recoverable && v.outpoint == o;
    }
  }

  /** An amount is nothing for nothing, and otherwise adds up. */
  lemma {:induction false} SumIs(a: seq<LockupVtxo>, b: seq<LockupVtxo>, v: LockupVtxo)
    ensures Sum([]) == 0 && Sum([v]) == v.value && Sum(a + b) == Sum(a) + Sum(b)
  {
    if a == [] {
      assert a + b == b;
    } else {
      SumIs(a[1..], b, v);
      assert (a + b)[1..] == a[1..] + b;
    }
  }

  /**
   Which passes end the wait as resolved, or with nothing to refund: those that see the swap settled or
   refunded, and those past the locktime that find both lists empty.
   */
  lemma EndsWithoutRefundIff(p: Pass, t: Terms)
    ensures forall state :: Step(p, t) == Some(Resolved(state)) <==>
              p.status == Ok(Some(state)) && (state == Settled || state == Refunded)
    ensures Step(p, t) == Some(NothingToRefund) <==>
              Unresolved(p) && t.refundLocktime <= p.now && p.lists.Ok? && p.lists.value == ([], [])
  {
    if p.lists.Ok? {
      var (spendable, recoverable) := p.lists.value;
      FoundExact(spendable, recoverable);
      var vtxos := Found(spendable, recoverable);
      if spendable != [] { assert Names(spendable, spendable[0].outpoint) && Seen(vtxos, spendable[0].outpoint); }
      if recoverable != [] {
        assert Names(recoverable, recoverable[0].outpoint) && Seen(vtxos, recoverable[0].outpoint);
      }
    }
  }

  /**
   A refund the server refuses is tried again until the attempt deadline, by default 7200 s past the
   locktime, and then its own error ends the wait; before the locktime nothing does.
   */
  lemma GivesUpIff(p: Pass, refundLocktime: int, attemptDeadline: Option<int>)
    requires Unresolved(p) && p.lists.Ok? && p.push.Err? && p.lists.value.0 != []
    requires forall v | v in p.lists.value.1 :: Names(p.lists.value.0, v.outpoint)
    ensures
      var deadline := match attemptDeadline case Some(d) => d case None => refundLocktime + 7200;
      Step(p, TermsFor(refundLocktime, attemptDeadline)) ==
        if p.now < refundLocktime || p.later < deadline then None else Some(Thrown(p.push.error))
  {
    var (spendable, recoverable) := p.lists.value;
    FoundExact(spendable, recoverable);
    SweptAreNamed(spendable, recoverable);
    var vtxos := Found(spendable, recoverable);
    assert spendable[0] in spendable && Names(spendable, spendable[0].outpoint) && Seen(vtxos, spendable[0].outpoint);
    if Swept(vtxos) != [] { assert Swept(vtxos)[0] in Swept(vtxos); }
  }

  lemma SweptAreNamed(spendable: seq<Listed>, recoverable: seq<Listed>)
    ensures forall o :: o in Swept(Found(spendable, recoverable)) <==> Names(recoverable, o) && !Names(spendable, o)
  {
    var vtxos := Found(spendable, recoverable);
    FoundExact(spendable, recoverable);
    NothingSweptIff(vtxos);
    forall o ensures o in Swept(vtxos) <==> Names(recoverable, o) && !Names(spendable, o) {
      if Names(recoverable, o) && !Names(spendable, o) {
        assert Seen(vtxos, o);
      }
    }
  }
}
