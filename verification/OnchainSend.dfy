/**
 Arkade to Bitcoin L1: the funding gates, the claim gate, and the two-chain hash-timelock protocol
 they make together, with an arbitrary solver.
 */
module OnchainSend {
  import opened Common
  import opened JsNumber

  const CLAIM_MARGIN := 5400       // ONCHAIN_CLAIM_MARGIN_SECONDS
  const ORDER_MARGIN := 7200       // ONCHAIN_ORDER_MARGIN_SECONDS
  const HEADROOM := 5400           // MIN_HEADROOM_SECONDS
  const SECONDS_PER_BLOCK := 600
  const MAX_CONFIRMATIONS := 6
  const LOCKTIME_THRESHOLD := 500_000_000

  // ---- The gates ----

  /** The numbers of an onchain-send quote; each may be missing or malformed on the wire. */
  datatype Quote = Quote(
    validUntil: Num,
    refundLocktime: Option<Num>,
    profileRefundLocktime: Option<Num>,
    htlcLocktime: Option<Num>,
    minConfirmations: Option<Num>)

  datatype Reason =
    | MissingBindingField | CovenantRefused | LocktimeInvalid | LocktimeIsHeight
    | QuoteExpired | InsufficientHeadroom | ConfirmationsOutOfRange | ClaimWindowTooShort | TimelockOrder
    | ClaimWindowClosed

  /**
   What deriving both contracts refuses: a missing field, a lockup locktime that is not an integer
   (`BigInt` throws), an L1 locktime that is not a positive timestamp.
   */
  function DeriveOnchainSend(q: Quote): Option<Reason> {
    var lockup := if q.refundLocktime.Some? then q.refundLocktime else q.profileRefundLocktime;
    if lockup.None? || q.htlcLocktime.None? || q.minConfirmations.None? then Some(MissingBindingField)
    else if !IsFinite(lockup.value) then Some(CovenantRefused)
    else if !IsFinite(q.htlcLocktime.value) || Le(q.htlcLocktime.value, Fin(0)) then Some(LocktimeInvalid)
    else if Lt(q.htlcLocktime.value, Fin(LOCKTIME_THRESHOLD)) then Some(LocktimeIsHeight)
    else None
  }

  /** `assertFundable` for the send direction. */
  function AssertFundable(q: Quote, htlcLocktime: Num, minConfirmations: Num, now: Num): Option<Reason> {
    if Ge(now, q.validUntil) then Some(QuoteExpired)
    else if q.refundLocktime.Some? && Lt(Sub(q.refundLocktime.value, now), Fin(HEADROOM))
        then Some(InsufficientHeadroom)
    else if !IsFinite(minConfirmations) || Lt(minConfirmations, Fin(1)) || Gt(minConfirmations, Fin(MAX_CONFIRMATIONS))
    then Some(ConfirmationsOutOfRange)
    else if Le(Sub(htlcLocktime, now), Add(Times(minConfirmations, SECONDS_PER_BLOCK), Fin(CLAIM_MARGIN)))
    then Some(ClaimWindowTooShort)
    else if q.refundLocktime.None? || Gt(Add(htlcLocktime, Fin(ORDER_MARGIN)), q.refundLocktime.value)
    then Some(TimelockOrder)
    else None
  }

  /** The order of checks in `requestOnchainSend`: derive, then gate. */
  function RequestOnchainSend(q: Quote, now: int): Option<Reason> {
    match DeriveOnchainSend(q)
    case Some(r) => Some(r)
    case None => AssertFundable(q, q.htlcLocktime.value, q.minConfirmations.value, Fin(now))
  }

  function ClaimOnchainFill(htlcLocktime: int, now: int): Option<Reason> {
    if htlcLocktime - now < CLAIM_MARGIN then Some(ClaimWindowClosed) else None
  }

  /** The two deadlines a funded swap is bound to. */
  datatype Terms = Terms(htlcLocktime: int, refundLocktime: int)

  predicate Ordered(t: Terms) { t.htlcLocktime + ORDER_MARGIN <= t.refundLocktime }

  /**
   Exactly which requests pass, over every number in the quote: finite deadlines, the claim with room to
   confirm and then 5400 s left, the refund at least 7200 s after it, and a quote not known expired.
   What the profile says of the refund locktime plays no part.
   */
  lemma RequestPassesIff(q: Quote, now: int)
    ensures RequestOnchainSend(q, now).None? <==>
              && (match (q.htlcLocktime, q.refundLocktime, q.minConfirmations)
                  case (Some(Fin(l)), Some(Fin(r)), Some(Fin(c))) =>
                    && 500_000_000 <= l && l + 7200 <= r
                    && 1 <= c <= 6 && l - now > c * 600 + 5400 && r - now >= 5400
                  case _ => false)
              && (q.validUntil.NaN? || q.validUntil.PosInf? || (q.validUntil.Fin? && now < q.validUntil.n))
  {
  }

  /** Every refusal names something that really is wrong with the request. */
  lemma RefusalIsTrue(q: Quote, now: int)
    requires RequestOnchainSend(q, now).Some?
    ensures
      match RequestOnchainSend(q, now).value
      case MissingBindingField =>
        q.htlcLocktime.None? || q.minConfirmations.None? || (q.refundLocktime.None? && q.profileRefundLocktime.None?)
      case CovenantRefused =>
        if q.refundLocktime.Some? then !q.refundLocktime.value.Fin?
        else q.profileRefundLocktime.Some? && !q.profileRefundLocktime.value.Fin?
      case LocktimeInvalid => q.htlcLocktime.Some? && (q.htlcLocktime.value.Fin? ==> q.htlcLocktime.value.n <= 0)
      case LocktimeIsHeight =>
        q.htlcLocktime.Some? && q.htlcLocktime.value.Fin? && 0 < q.htlcLocktime.value.n < 500_000_000
      case QuoteExpired => q.validUntil.NegInf? || (q.validUntil.Fin? && q.validUntil.n <= now)
      case InsufficientHeadroom =>
        q.refundLocktime.Some? && q.refundLocktime.value.Fin? && q.refundLocktime.value.n - now < 5400
      case ConfirmationsOutOfRange =>
        q.minConfirmations.Some? && (q.minConfirmations.value.Fin? ==> !(1 <= q.minConfirmations.value.n <= 6))
      case ClaimWindowTooShort =>
        && q.htlcLocktime.Some? && q.htlcLocktime.value.Fin?
        && q.minConfirmations.Some? && q.minConfirmations.value.Fin?
        && q.htlcLocktime.value.n - now <= q.minConfirmations.value.n * 600 + 5400
      case TimelockOrder =>
        && q.htlcLocktime.Some? && q.htlcLocktime.value.Fin?
        && (match q.refundLocktime
            case Some(Fin(r)) => r < q.htlcLocktime.value.n + 7200
            case _ => q.refundLocktime.None?)
      case ClaimWindowClosed => false
  {
  }

  /** Of a quote whose numbers are all there, the first thing wrong in the order of the checks is the reason. */
  lemma FirstReason(q: Quote, now: int, v: int, r: int, l: int, c: int)
    requires q.validUntil == Fin(v) && q.refundLocktime == Some(Fin(r))
    requires q.htlcLocktime == Some(Fin(l)) && q.minConfirmations == Some(Fin(c))
    ensures
      var reason := RequestOnchainSend(q, now);
      && (reason == Some(LocktimeInvalid) <==> l <= 0)
      && (reason == Some(LocktimeIsHeight) <==> 0 < l < 500_000_000)
      && (l >= 500_000_000 ==>
            && (reason == Some(QuoteExpired) <==> v <= now)
            && (v > now ==>
                  && (reason == Some(InsufficientHeadroom) <==> r < now + 5400)
                  && (r >= now + 5400 ==> (reason == Some(ConfirmationsOutOfRange) <==> c < 1 || c > 6))))
  {
  }

  /** A request that passes binds finite deadlines, in order, with room to confirm and claim. */
  lemma PassedRequestIsFinite(q: Quote, now: int)
    requires RequestOnchainSend(q, now).None?
    ensures q.htlcLocktime.Some? && q.refundLocktime.Some? && q.minConfirmations.Some?
    ensures
      var l, r, c := q.htlcLocktime.value, q.refundLocktime.value, q.minConfirmations.value;
      && l.Fin? && r.Fin? && c.Fin?
      && Ordered(Terms(l.n, r.n)) && LOCKTIME_THRESHOLD <= l.n < r.n
      && 1 <= c.n <= MAX_CONFIRMATIONS && l.n - now > c.n * SECONDS_PER_BLOCK + CLAIM_MARGIN
  {
    RequestPassesIff(q, now);
  }

  /** The gate alone does not: with `NaN` deadlines every comparison in it is false. */
  lemma GateAloneAcceptsNaN(q: Quote, confirmations: int, now: int)
    requires 1 <= confirmations <= MAX_CONFIRMATIONS
    requires q.validUntil == NaN && q.refundLocktime == Some(NaN) && q.htlcLocktime == Some(NaN)
    ensures AssertFundable(q, NaN, Fin(confirmations), Fin(now)).None?
    ensures RequestOnchainSend(q, now).Some?
  {
  }

  /** Nothing checks `valid_until` on this leg: expiry is enforced exactly when it is a number. */
  lemma ExpiryNeedsANumber(q: Quote, now: int)
    requires RequestOnchainSend(q, now).None?
    ensures Lt(Fin(now), q.validUntil) <==> !q.validUntil.NaN?
  {
  }

  // ---- Reading the HTLC ----

  type bytes = seq<int>

  datatype Utxo = Utxo(amount: int, confirmations: int)

  datatype Phase =
    | Unfunded
    | AwaitingConfirmations(utxo: Utxo)
    | Claimable(utxo: Utxo)
    | Refundable(utxo: Utxo)
    | ClaimedPhase(preimage: bytes)
    | Swept

  function Largest(utxos: seq<Utxo>): (best: Utxo)
    requires utxos != []
    ensures best in utxos && forall u | u in utxos :: u.amount <= best.amount
  {
    if |utxos| == 1 then utxos[0]
    else
      var rest := Largest(utxos[1..]);
      if rest.amount > utxos[0].amount then rest else utxos[0]
  }

  ghost predicate Reveals(witnesses: seq<seq<bytes>>, hash: bytes -> bytes, paymentHash: bytes, item: bytes) {
    |item| == 32 && hash(item) == paymentHash && exists k | 0 <= k < |witnesses| :: item in witnesses[k]
  }

  /** The nested search over a spend's witness stacks. */
  method ExtractPreimage(witnesses: seq<seq<bytes>>, hash: bytes -> bytes, paymentHash: bytes)
    returns (r: Option<bytes>)
    ensures r.Some? ==> Reveals(witnesses, hash, paymentHash, r.value)
    ensures r.None? ==> forall item :: !Reveals(witnesses, hash, paymentHash, item)
  {
    var k := 0;
    while k < |witnesses|
      invariant 0 <= k <= |witnesses|
      invariant forall j, item | 0 <= j < k && item in witnesses[j] :: |item| != 32 || hash(item) != paymentHash
    {
      var stack := witnesses[k];
      var i := 0;
      while i < |stack|
        invariant 0 <= i <= |stack|
        invariant forall item | item in stack[..i] :: |item| != 32 || hash(item) != paymentHash
      {
        if |stack[i]| == 32 && hash(stack[i]) == paymentHash {
          assert stack[i] in witnesses[k];
          return Some(stack[i]);
        }
        i := i + 1;
      }
      assert stack[..i] == stack;
      k := k + 1;
    }
    return None;
  }

  /** `classifyOnchainHtlc`, given the chain's answers; `spend` is what the known outpoint's spend reveals. */
  function Classify(utxos: seq<Utxo>, minConfirmations: int, htlcLocktime: int, mtp: int,
                    spend: Option<Option<bytes>>): Phase
  {
    if utxos == [] then
      match spend
      case None => Unfunded
      case Some(None) => Swept
      case Some(Some(p)) => ClaimedPhase(p)
    else
      var best := Largest(utxos);
      if best.confirmations < minConfirmations then AwaitingConfirmations(best)
      else if mtp >= htlcLocktime then Refundable(best)
      else Claimable(best)
  }

  /**
   What each reading says of the chain: nothing listed and no spend seen; a spend with or without the
   preimage; or of a largest output, whether it is confirmed enough and whether its refund is open.
   */
  lemma ReadingMeans(utxos: seq<Utxo>, conf: int, htlcLocktime: int, mtp: int, spend: Option<Option<bytes>>)
    ensures
      match Classify(utxos, conf, htlcLocktime, mtp, spend)
      case Unfunded => utxos == [] && spend.None?
      case Swept => utxos == [] && spend == Some(None)
      case ClaimedPhase(p) => utxos == [] && spend == Some(Some(p))
      case AwaitingConfirmations(u) => LargestOf(utxos, u) && u.confirmations < conf
      case Refundable(u) => LargestOf(utxos, u) && u.confirmations >= conf && htlcLocktime <= mtp
      case Claimable(u) => LargestOf(utxos, u) && u.confirmations >= conf && mtp < htlcLocktime
  {
  }

  predicate LargestOf(utxos: seq<Utxo>, u: Utxo) { u in utxos && forall v | v in utxos :: v.amount <= u.amount }

  /** The claim is refused exactly when less than 5400 s are left before the fill can be refunded. */
  lemma ClaimRefusedIff(htlcLocktime: int, now: int)
    ensures ClaimOnchainFill(htlcLocktime, now) == if htlcLocktime < now + 5400 then Some(ClaimWindowClosed) else None
  {
  }

  /** A refundable reading always makes the claim refuse, as long as MTP is not ahead of the clock. */
  lemma RefundablePhaseRefusesClaim(utxos: seq<Utxo>, conf: int, htlcLocktime: int, mtp: int,
                                    spend: Option<Option<bytes>>, now: int)
    requires mtp <= now
    ensures Classify(utxos, conf, htlcLocktime, mtp, spend).Refundable? ==> ClaimOnchainFill(htlcLocktime, now).Some?
  {
  }

  // ---- The protocol ----

  datatype Lockup = NotFunded | Locked | SolverClaimed | UserRefunded

  datatype Fill = Unspent | Claiming(at: int) | Claimed(at: int) | Refunded

  /**
   Both chains. `terms` are the quote's; the solver learns the preimage from a broadcast only.
   `gate` is the least amount a fill must have to be claimed; the code's is `DustGate`.
   */
  datatype State = State(
    terms: Terms, gate: nat, clock: int, mtp: int,
    lockup: Lockup, fills: map<nat, Fill>, amounts: map<nat, nat>, broadcast: set<nat>)

  datatype Step =
    | Pass(clock: int, mtp: int)
    | UserFunds(quote: Quote)
    | SolverFills(i: nat, amount: nat)
    | UserClaims(i: nat)
    | ClaimConfirms(i: nat)
    | SolverRefunds(i: nat)
    | SolverClaims
    | SolverReturns
    | UserRefunds

  predicate Binds(q: Quote, t: Terms) {
    q.htlcLocktime == Some(Fin(t.htlcLocktime)) && q.refundLocktime == Some(Fin(t.refundLocktime))
  }

  /** Locktimes open against median-time-past, and a matured refund may race a pending claim. */
  predicate Enabled(s: State, step: Step) {
    match step
    case Pass(clock, mtp) => s.clock <= clock && s.mtp <= mtp <= clock
    case UserFunds(q) => s.lockup == NotFunded && Binds(q, s.terms) && RequestOnchainSend(q, s.clock).None?
    case SolverFills(i, _) => i !in s.fills
    case UserClaims(i) =>
      && i in s.fills && s.fills[i] == Unspent && ClaimOnchainFill(s.terms.htlcLocktime, s.clock).None?
      && i in s.amounts && s.amounts[i] >= s.gate
    case ClaimConfirms(i) => i in s.fills && s.fills[i].Claiming?
    case SolverRefunds(i) =>
      i in s.fills && (s.fills[i] == Unspent || s.fills[i].Claiming?) && s.mtp >= s.terms.htlcLocktime
    case SolverClaims => s.lockup == Locked && s.broadcast != {}
    case SolverReturns => s.lockup == Locked
    case UserRefunds => s.lockup == Locked && s.mtp >= s.terms.refundLocktime
  }

  function Next(s: State, step: Step): State
    requires Enabled(s, step)
  {
    match step
    case Pass(clock, mtp) => s.(clock := clock, mtp := mtp)
    case UserFunds(_) => s.(lockup := Locked)
    case SolverFills(i, amount) => s.(fills := s.fills[i := Unspent], amounts := s.amounts[i := amount])
    case UserClaims(i) => s.(fills := s.fills[i := Claiming(s.clock)], broadcast := s.broadcast + {i})
    case ClaimConfirms(i) => s.(fills := s.fills[i := Claimed(s.clock)])
    case SolverRefunds(i) => s.(fills := s.fills[i := Refunded])
    case SolverClaims => s.(lockup := SolverClaimed)
    case SolverReturns => s.(lockup := UserRefunded)
    case UserRefunds => s.(lockup := UserRefunded)
  }

  /** The one thing asked of the Bitcoin network: a broadcast claim confirms within the claim margin. */
  predicate InTime(s: State) {
    forall i | i in s.fills && s.fills[i].Claiming? :: s.clock - s.fills[i].at < CLAIM_MARGIN
  }

  ghost predicate Run(s: State, steps: seq<Step>, t: State)
    decreases |steps|
  {
    if steps == [] then s == t else Enabled(s, steps[0]) && Run(Next(s, steps[0]), steps[1..], t)
  }

  ghost predicate InTimeRun(s: State, steps: seq<Step>)
    decreases |steps|
  {
    InTime(s) && (steps == [] || (Enabled(s, steps[0]) && InTimeRun(Next(s, steps[0]), steps[1..])))
  }

  predicate Init(s: State) {
    s.mtp <= s.clock && s.lockup == NotFunded && s.fills == map[] && s.amounts == map[] && s.broadcast == {}
  }

  /** What becomes of the lockup: it is funded once and spent once, by its claim, its return or its refund. */
  lemma LockupMoves(s: State, step: Step)
    requires Enabled(s, step)
    ensures
      var before, after := s.lockup, Next(s, step).lockup;
      match step
      case UserFunds(_) => before == NotFunded && after == Locked
      case SolverClaims => before == Locked && after == SolverClaimed && s.broadcast != {}
      case SolverReturns => before == Locked && after == UserRefunded
      case UserRefunds => before == Locked && after == UserRefunded && s.terms.refundLocktime <= s.mtp
      case _ => after == before
  {
  }

  /** Whoever has the lockup keeps it; until someone does, the user can take it back once its locktime is past. */
  lemma {:induction false} LockupSettlesOnce(s: State, steps: seq<Step>, t: State)
    requires Run(s, steps, t)
    ensures s.lockup == SolverClaimed || s.lockup == UserRefunded ==> t.lockup == s.lockup
    ensures s.lockup != NotFunded ==> t.lockup != NotFunded
    ensures t.lockup == Locked && t.terms.refundLocktime <= t.mtp ==>
              Enabled(t, UserRefunds) && Next(t, UserRefunds).lockup == UserRefunded
    decreases |steps|
  {
    if steps != [] {
      LockupMoves(s, steps[0]);
      LockupSettlesOnce(Next(s, steps[0]), steps[1..], t);
    }
  }

  /** Every claim was broadcast with the margin left, and what was broadcast is the user's. */
  predicate Inv(s: State) {
    && s.mtp <= s.clock
    && (forall i | i in s.fills && s.fills[i].Claiming? :: s.fills[i].at + CLAIM_MARGIN <= s.terms.htlcLocktime)
    && (forall i | i in s.fills && s.fills[i].Claimed? :: s.fills[i].at < s.terms.htlcLocktime)
    && (forall i | i in s.broadcast :: i in s.fills && (s.fills[i].Claiming? || s.fills[i].Claimed?))
    && (forall i | i in s.fills :: i in s.amounts)
    && (forall i | i in s.broadcast :: i in s.amounts && s.amounts[i] >= s.gate)
    && (s.lockup == SolverClaimed ==> s.broadcast != {})
    && (s.lockup != NotFunded ==> Ordered(s.terms))
  }

  lemma InvStep(s: State, step: Step)
    requires Inv(s) && InTime(s) && Enabled(s, step)
    ensures Inv(Next(s, step))
  {
    if step.UserFunds? { PassedRequestIsFinite(step.quote, s.clock); }
    if step.UserClaims? {
      assert forall i | i in s.broadcast :: i != step.i;
    }
  }

  lemma {:induction false} InvRun(s: State, steps: seq<Step>, t: State)
    requires Inv(s) && Run(s, steps, t) && InTimeRun(s, steps)
    ensures Inv(t) && InTime(t) && t.gate == s.gate
    decreases |steps|
  {
    if steps != [] {
      InvStep(s, steps[0]);
      InvRun(Next(s, steps[0]), steps[1..], t);
    }
  }

  /** A fill the user has, or whose claim is still on its way before the L1 refund can open. */
  predicate UsersFill(s: State, i: nat) {
    i in s.fills && (s.fills[i].Claimed? || (s.fills[i].Claiming? && s.clock < s.terms.htlcLocktime))
  }

  /**
   Atomicity: no fill the user claimed is ever the solver's again, and a solver that took the
   lockup has given the user a fill - confirmed by the time the L1 refund could open.
   */
  lemma SolverNeverKeepsBoth(s: State, steps: seq<Step>, t: State)
    requires Init(s) && Run(s, steps, t) && InTimeRun(s, steps)
    ensures forall i | i in t.broadcast :: i in t.fills && !t.fills[i].Refunded?
    ensures t.lockup == SolverClaimed ==> exists i | i in t.broadcast :: UsersFill(t, i)
  {
    InvRun(s, steps, t);
    if t.lockup == SolverClaimed {
      var i :| i in t.broadcast;
      assert UsersFill(t, i);
    }
  }

  /** A confirmed claim leaves the solver more than the order margin before the user can refund. */
  lemma SolverHasTimeToClaim(s: State, steps: seq<Step>, t: State, i: nat)
    requires Init(s) && Run(s, steps, t) && InTimeRun(s, steps)
    requires t.lockup != NotFunded && i in t.fills && t.fills[i].Claimed?
    ensures t.terms.refundLocktime - t.fills[i].at > ORDER_MARGIN
    ensures t.clock <= t.fills[i].at + ORDER_MARGIN ==> !Enabled(t, UserRefunds)
  {
    InvRun(s, steps, t);
  }

  // ---- What the user gets for the lockup ----

  const ONCHAIN_DUST_SATS := 330

  /** What a claim must leave after its fee; no other amount is asked of a fill. */
  function DustGate(fee: nat): nat { fee + ONCHAIN_DUST_SATS }

  function StartOf(l: int, r: int, gate: nat, now: int): State {
    State(Terms(l, r), gate, now, now, NotFunded, map[], map[], {})
  }

  /** A solver that took the lockup has given the user a fill worth at least `payout`. */
  ghost predicate WorthIt(t: State, payout: nat) {
    t.lockup == SolverClaimed ==>
      exists i | i in t.broadcast :: UsersFill(t, i) && i in t.amounts && t.amounts[i] >= payout
  }

  ghost predicate AlwaysWorthIt(s: State, payout: nat) {
    forall steps, t | Run(s, steps, t) && InTimeRun(s, steps) :: WorthIt(t, payout)
  }

  /**
   A fill of any amount the gate lets through takes the lockup: nothing else in the protocol
   compares a fill with the payout that was quoted.
   */
  lemma AnyFillTakesLockup(q: Quote, l: int, r: int, gate: nat, now: int, amount: nat)
    returns (steps: seq<Step>, t: State)
    requires q.htlcLocktime == Some(Fin(l)) && q.refundLocktime == Some(Fin(r))
    requires RequestOnchainSend(q, now).None? && amount >= gate
    ensures Run(StartOf(l, r, gate, now), steps, t) && InTimeRun(StartOf(l, r, gate, now), steps)
    ensures t.lockup == SolverClaimed && t.broadcast == {0}
    ensures t.fills == map[0 := Claimed(now)] && t.amounts == map[0 := amount]
  {
    var s3 := Revealed(l, r, gate, now, amount);
    var s4 := s3.(fills := map[0 := Claimed(now)]);
    t := s4.(lockup := SolverClaimed);
    steps := [];
    steps := RunFrom(s4, SolverClaims, t, steps, t);
    steps := RunFrom(s3, ClaimConfirms(0), s4, steps, t);
    steps := RunToRevealed(q, l, r, gate, now, amount, steps, t);
  }

  /** The user has funded, the solver has filled, and the user's claim is broadcast. */
  function Revealed(l: int, r: int, gate: nat, now: int, amount: nat): State {
    State(Terms(l, r), gate, now, now, Locked, map[0 := Claiming(now)], map[0 := amount], {0})
  }

  lemma RunToRevealed(q: Quote, l: int, r: int, gate: nat, now: int, amount: nat, rest: seq<Step>, t: State)
    returns (steps: seq<Step>)
    requires q.htlcLocktime == Some(Fin(l)) && q.refundLocktime == Some(Fin(r))
    requires RequestOnchainSend(q, now).None? && amount >= gate
    requires Run(Revealed(l, r, gate, now, amount), rest, t)
    ensures Run(StartOf(l, r, gate, now), steps, t)
    ensures InTimeRun(Revealed(l, r, gate, now, amount), rest) ==> InTimeRun(StartOf(l, r, gate, now), steps)
  {
    PassedRequestIsFinite(q, now);
    var s := StartOf(l, r, gate, now);
    var s1 := s.(lockup := Locked);
    var s2 := s1.(fills := map[0 := Unspent], amounts := map[0 := amount]);
    steps := RunFrom(s2, UserClaims(0), Revealed(l, r, gate, now, amount), rest, t);
    steps := RunFrom(s1, SolverFills(0, amount), s2, steps, t);
    steps := RunFrom(s, UserFunds(q), s1, steps, t);
  }

  lemma GatedIsWorthIt(s: State, steps: seq<Step>, t: State, payout: nat)
    requires Init(s) && Run(s, steps, t) && InTimeRun(s, steps) && s.gate >= payout
    ensures WorthIt(t, payout)
  {
    InvRun(s, steps, t);
    if t.lockup == SolverClaimed {
      var i :| i in t.broadcast;
      assert UsersFill(t, i);
    }
  }

  /**
   For every fundable quote: the lockup is never given away for less than the payout, exactly when
   claims are gated on it.
   */
  lemma WorthItIffGated(q: Quote, l: int, r: int, gate: nat, now: int, payout: nat)
    requires q.htlcLocktime == Some(Fin(l)) && q.refundLocktime == Some(Fin(r)) && RequestOnchainSend(q, now).None?
    ensures AlwaysWorthIt(StartOf(l, r, gate, now), payout) <==> gate >= payout
  {
    var s := StartOf(l, r, gate, now);
    if gate >= payout {
      forall steps, t | Run(s, steps, t) && InTimeRun(s, steps) ensures WorthIt(t, payout) {
        GatedIsWorthIt(s, steps, t, payout);
      }
    } else {
      var steps, t := AnyFillTakesLockup(q, l, r, gate, now, gate);
      assert !WorthIt(t, payout);
    }
  }

  /** So the code gives the lockup away for less exactly when the payout is more than the dust limit and the fee. */
  lemma DustTakesLockupIff(q: Quote, l: int, r: int, fee: nat, now: int, payout: nat)
    requires q.htlcLocktime == Some(Fin(l)) && q.refundLocktime == Some(Fin(r)) && RequestOnchainSend(q, now).None?
    ensures !AlwaysWorthIt(StartOf(l, r, DustGate(fee), now), payout) <==> payout > fee + 330
  {
    WorthItIffGated(q, l, r, DustGate(fee), now, payout);
  }

  /** The assumption is needed: a claim that does not confirm in its margin can lose both sides. */
  lemma SlowConfirmationCanLoseBoth(q: Quote, l: int, r: int, gate: nat, now: int)
    returns (s: State, steps: seq<Step>, t: State)
    requires q.htlcLocktime == Some(Fin(l)) && q.refundLocktime == Some(Fin(r)) && RequestOnchainSend(q, now).None?
    ensures Init(s) && s.gate == gate && Run(s, steps, t) && t.lockup == SolverClaimed && t.broadcast == {0}
        && t.fills == map[0 := Refunded]
  {
    PassedRequestIsFinite(q, now);
    s := StartOf(l, r, gate, now);
    var s3 := Revealed(l, r, gate, now, gate);
    var s4 := s3.(lockup := SolverClaimed);
    var s5 := s4.(clock := l, mtp := l);
    t := s5.(fills := map[0 := Refunded]);
    steps := [];
    steps := RunFrom(s5, SolverRefunds(0), t, steps, t);
    steps := RunFrom(s4, Pass(l, l), s5, steps, t);
    steps := RunFrom(s3, SolverClaims, s4, steps, t);
    steps := RunToRevealed(q, l, r, gate, now, gate, steps, t);
  }

  lemma RunFrom(s: State, step: Step, u: State, rest: seq<Step>, t: State) returns (steps: seq<Step>)
    requires Enabled(s, step) && Next(s, step) == u && Run(u, rest, t)
    ensures Run(s, steps, t)
    ensures InTime(s) && InTimeRun(u, rest) ==> InTimeRun(s, steps)
  {
    steps := [step] + rest;
    assert steps[1..] == rest;
  }
}
