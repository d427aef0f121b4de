/**
 Lightning to Arkade: the gates a solver's quote and invoice pass before the invoice is paid, and
 the gate a claim passes before the preimage is disclosed, over every JavaScript number.
 */
module ReceiveLeg {
  import opened Common
  import opened JsNumber

  const MIN_CLAIM_WINDOW := 1800   // MIN_CLAIM_WINDOW_SECONDS

  datatype Side = From | To

  datatype Quote = Quote(fromAmount: Num, toAmount: Num, validUntil: Num, refundLocktime: Option<Num>)

  datatype InvoiceFacts = InvoiceFacts(paymentHash: string, amountSats: Num, expiresAt: Num)

  datatype Reason =
    | NotThisTrade | PaysOutMore | MissingBindingField
    | InvoiceUndecodable | InvoiceHashMismatch | InvoiceAmountMismatch | QuoteMalformed
    | InvalidGateInput | QuoteExpired | MissingRefundLocktime | ClaimWindowTooShort | PriceTooHigh
    | NothingToClaim | NeedsRecovery | LockupMalformed | AmountMismatch | WrongPreimage

  // ---- Before the invoice is paid ----

  function AssertQuotedAmount(q: Quote, side: Side, amount: Num): Option<Reason> {
    var quoted := if side == From then q.fromAmount else q.toAmount;
    if !Same(quoted, amount) then Some(NotThisTrade)
    else if Gt(q.toAmount, q.fromAmount) then Some(PaysOutMore)
    else None
  }

  /** The pay deadline of an invoice bound to the quote and to the trader's own hash. */
  function VerifyReceiveInvoice(decoded: Option<InvoiceFacts>, paymentHash: string, q: Quote): Result<Num, Reason> {
    if decoded.None? then Err(InvoiceUndecodable)
    else
      var d := decoded.value;
      if !IsFinite(d.expiresAt) then Err(InvoiceUndecodable)
      else if !IsFinite(q.validUntil) then Err(QuoteMalformed)
      else if d.paymentHash != paymentHash then Err(InvoiceHashMismatch)
      else if Le(d.amountSats, Fin(0)) || !Same(d.amountSats, q.fromAmount) then Err(InvoiceAmountMismatch)
      else Ok(MinOf(d.expiresAt, q.validUntil))
  }

  function OrElse(x: Option<Num>, y: Num): Num { if x.Some? then x.value else y }

  predicate Bad(x: Option<Num>) { x.Some? && !IsFinite(x.value) }

  function AssertReceivable(q: Quote, payDeadline: Num, now: Num, minClaimWindow: Option<Num>,
      maxPay: Option<Num>): Option<Reason>
  {
    if !IsFinite(payDeadline) then Some(QuoteMalformed)
    else if !IsFinite(now) || Bad(minClaimWindow) || Bad(maxPay) then Some(InvalidGateInput)
    else if Ge(now, payDeadline) then Some(QuoteExpired)
    else if q.refundLocktime.None? then Some(MissingRefundLocktime)
    else if !IsFinite(q.refundLocktime.value) then Some(QuoteMalformed)
    else if Lt(Sub(q.refundLocktime.value, payDeadline), OrElse(minClaimWindow, Fin(MIN_CLAIM_WINDOW)))
    then Some(ClaimWindowTooShort)
    else if maxPay.Some? && Gt(q.fromAmount, maxPay.value) then Some(PriceTooHigh)
    else None
  }

  /** What the trader asked for, and what its own decoder and clock say. */
  datatype Request = Request(side: Side, amount: Num, paymentHash: string, decoded: Option<InvoiceFacts>,
                             now: Num, maxPay: Option<Num>)

  /** What a request hands back: the deadline to pay by, and the amount the lockup must carry. */
  datatype Receivable = Receivable(payDeadline: Num, expectedAmount: Num)

  /** The order of checks in `requestLightningReceive`. */
  function RequestLightningReceive(q: Quote, r: Request): Result<Receivable, Reason> {
    var quoted := AssertQuotedAmount(q, r.side, r.amount);
    if quoted.Some? then Err(quoted.value)
    else if q.refundLocktime.None? then Err(MissingBindingField)
    else match VerifyReceiveInvoice(r.decoded, r.paymentHash, q)
      case Err(reason) => Err(reason)
      case Ok(payDeadline) =>
        var gate := AssertReceivable(q, payDeadline, r.now, None, r.maxPay);
        if gate.Some? then Err(gate.value) else Ok(Receivable(payDeadline, q.toAmount))
  }

  // ---- Before the preimage is disclosed ----

  datatype Vtxo = Vtxo(value: Num, recoverable: bool)

  /** The sum as the code folds it, from the left. */
  function Summed(sum: Num, vtxos: seq<Vtxo>): Num
    decreases |vtxos|
  {
    if vtxos == [] then sum else Summed(Add(sum, vtxos[0].value), vtxos[1..])
  }

  /** `expectedAmount` is what the stored record holds, which may be nothing. */
  function PushClaim(vtxos: seq<Vtxo>, expectedAmount: Option<Num>, partiallyClaimed: bool,
      opensLockup: bool): Option<Reason>
  {
    var locked := Summed(Fin(0), vtxos);
    if vtxos == [] then Some(NothingToClaim)
    else if exists v | v in vtxos :: v.recoverable then Some(NeedsRecovery)
    else if !IsFinite(locked) then Some(LockupMalformed)
    else if !partiallyClaimed && (expectedAmount.None? || !IsFinite(expectedAmount.value)) then Some(InvalidGateInput)
    else if !partiallyClaimed && Lt(locked, expectedAmount.value) then Some(AmountMismatch)
    else if !opensLockup then Some(WrongPreimage)
    else None
  }

  method ClaimGate(vtxos: seq<Vtxo>, expectedAmount: Option<Num>, partiallyClaimed: bool, opensLockup: bool)
      returns (r: Option<Reason>)
    ensures r == PushClaim(vtxos, expectedAmount, partiallyClaimed, opensLockup)
  {
    if |vtxos| == 0 { return Some(NothingToClaim); }
    if exists v | v in vtxos :: v.recoverable { return Some(NeedsRecovery); }
    var locked, i := Fin(0), 0;
    while i < |vtxos|
      invariant 0 <= i <= |vtxos|
      invariant Summed(Fin(0), vtxos) == Summed(locked, vtxos[i..])
    {
      locked := Add(locked, vtxos[i].value);
      i := i + 1;
    }
    if !IsFinite(locked) { return Some(LockupMalformed); }
    if !partiallyClaimed {
      if expectedAmount.None? || !IsFinite(expectedAmount.value) { return Some(InvalidGateInput); }
      if Lt(locked, expectedAmount.value) { return Some(AmountMismatch); }
    }
    if !opensLockup { return Some(WrongPreimage); }
    return None;
  }

  predicate AllFinite(vtxos: seq<Vtxo>) { forall v | v in vtxos :: v.value.Fin? }

  function Sats(vtxos: seq<Vtxo>): int
    requires AllFinite(vtxos)
  {
    if vtxos == [] then 0 else assert vtxos[0] in vtxos; vtxos[0].value.n + Sats(vtxos[1..])
  }

  /** One value that is not a number spoils the sum for good: a finite sum has only finite parts. */
  lemma {:induction false} FiniteSumHasFiniteParts(sum: Num, vtxos: seq<Vtxo>)
    ensures IsFinite(Summed(sum, vtxos)) <==> IsFinite(sum) && AllFinite(vtxos)
    ensures IsFinite(sum) && AllFinite(vtxos) ==> Summed(sum, vtxos) == Fin(sum.n + Sats(vtxos))
    decreases |vtxos|
  {
    if vtxos != [] {
      FiniteSumHasFiniteParts(Add(sum, vtxos[0].value), vtxos[1..]);
      assert vtxos[0] in vtxos && forall v | v in vtxos :: v == vtxos[0] || v in vtxos[1..];
    }
  }

  // ---- The leg end to end ----

  /** A first claim that submits, in plain integers. */
  lemma FirstClaimSubmits(vtxos: seq<Vtxo>, expectedAmount: Option<Num>, opensLockup: bool)
    ensures PushClaim(vtxos, expectedAmount, false, opensLockup).None? <==>
              && opensLockup && vtxos != [] && (forall v | v in vtxos :: !v.recoverable && v.value.Fin?)
              && expectedAmount.Some? && expectedAmount.value.Fin? && Sats(vtxos) >= expectedAmount.value.n
  {
    FiniteSumHasFiniteParts(Fin(0), vtxos);
  }

  /** After a partial claim the amount is no longer a reason to refuse, whatever the record holds. */
  lemma RemainderIgnoresTheAmount(vtxos: seq<Vtxo>, expectedAmount: Option<Num>, opensLockup: bool)
    ensures PushClaim(vtxos, expectedAmount, true, opensLockup).None? <==>
              opensLockup && vtxos != [] && forall v | v in vtxos :: !v.recoverable && v.value.Fin?
  {
    FiniteSumHasFiniteParts(Fin(0), vtxos);
  }

  /**
   If the request passed and a first claim against its own amount submits: the invoice pays the
   trader's hash for exactly the quoted price, the lockup holds at least the quoted payout, the
   payout is no more than the price, and paying as late as allowed still leaves the claim window.
   */
  lemma ReceiveLegEndToEnd(q: Quote, r: Request, vtxos: seq<Vtxo>, opensLockup: bool, paidAt: int)
    requires RequestLightningReceive(q, r).Ok?
    requires PushClaim(vtxos, Some(RequestLightningReceive(q, r).value.expectedAmount), false, opensLockup).None?
    requires Le(Fin(paidAt), RequestLightningReceive(q, r).value.payDeadline)
    ensures r.decoded.Some? && r.decoded.value.paymentHash == r.paymentHash
    ensures r.decoded.value.amountSats == q.fromAmount && Gt(q.fromAmount, Fin(0)) && Le(q.toAmount, q.fromAmount)
    ensures r.amount == if r.side == From then q.fromAmount else q.toAmount
    ensures r.decoded.value.expiresAt.Fin? && q.validUntil.Fin? && r.now.Fin?
    ensures paidAt <= r.decoded.value.expiresAt.n && paidAt <= q.validUntil.n
    ensures q.refundLocktime.Some? && q.refundLocktime.value.Fin?
        && q.refundLocktime.value.n - paidAt >= 1800
    ensures q.toAmount.Fin? && AllFinite(vtxos) && Sats(vtxos) >= q.toAmount.n
    ensures forall v | v in vtxos :: !v.recoverable
    ensures r.maxPay.Some? ==> r.maxPay.value.Fin? && q.fromAmount.Fin? && q.fromAmount.n <= r.maxPay.value.n
    ensures opensLockup
  {
    FiniteSumHasFiniteParts(Fin(0), vtxos);
  }

  /**
   Exactly which requests pass. Only the price may be infinite, and only the unpinned payout may be
   anything at all.
   */
  lemma RequestPassesIff(q: Quote, r: Request)
    ensures RequestLightningReceive(q, r).Ok? <==>
              && r.decoded.Some?
              && r.decoded.value.paymentHash == r.paymentHash && r.decoded.value.amountSats == q.fromAmount
              && (q.fromAmount == PosInf || (q.fromAmount.Fin? && q.fromAmount.n > 0))
              && r.amount == (if r.side == From then q.fromAmount else q.toAmount) && !r.amount.NaN?
              && !Gt(q.toAmount, q.fromAmount)
              && r.decoded.value.expiresAt.Fin? && q.validUntil.Fin? && r.now.Fin?
              && q.refundLocktime.Some? && q.refundLocktime.value.Fin?
              && (var deadline := Min(r.decoded.value.expiresAt.n, q.validUntil.n);
                  r.now.n < deadline && deadline + 1800 <= q.refundLocktime.value.n)
              && (r.maxPay.Some? ==> r.maxPay.value.Fin? && q.fromAmount.Fin? && q.fromAmount.n <= r.maxPay.value.n)
  {
  }

  /** The receive gate on its own, with whatever window and ceiling a caller asks for. */
  lemma ReceivableIff(q: Quote, payDeadline: Num, now: Num, minClaimWindow: Option<Num>, maxPay: Option<Num>)
    ensures AssertReceivable(q, payDeadline, now, minClaimWindow, maxPay).None? <==>
              && (match (payDeadline, now, q.refundLocktime)
                  case (Fin(d), Fin(n), Some(Fin(refund))) =>
                    && n < d
                    && (match minClaimWindow
                        case None => refund - d >= 1800
                        case Some(w) => w.Fin? && refund - d >= w.n)
                  case _ => false)
              && (match maxPay
                  case None => true
                  case Some(m) => m.Fin? && !Gt(q.fromAmount, m))
    ensures AssertReceivable(q, payDeadline, now, minClaimWindow, maxPay) == Some(MissingRefundLocktime) ==>
              q.refundLocktime.None?
    ensures AssertReceivable(q, payDeadline, now, None, None).Some? && q.refundLocktime.None? && payDeadline.Fin?
            && now.Fin? && now.n < payDeadline.n ==>
              AssertReceivable(q, payDeadline, now, None, None) == Some(MissingRefundLocktime)
  {
  }

  /** Every reason a claim is refused for is the case. */
  lemma ClaimRefusalIsTrue(vtxos: seq<Vtxo>, expectedAmount: Option<Num>, partiallyClaimed: bool, opensLockup: bool)
    requires PushClaim(vtxos, expectedAmount, partiallyClaimed, opensLockup).Some?
    ensures
      match PushClaim(vtxos, expectedAmount, partiallyClaimed, opensLockup).value
      case NothingToClaim => vtxos == []
      case NeedsRecovery => exists v | v in vtxos :: v.recoverable
      case LockupMalformed => exists v | v in vtxos :: !v.value.Fin?
      case InvalidGateInput => !partiallyClaimed && (expectedAmount.None? || !expectedAmount.value.Fin?)
      case AmountMismatch =>
        && !partiallyClaimed && expectedAmount.Some? && expectedAmount.value.Fin? && AllFinite(vtxos)
        && Sats(vtxos) < expectedAmount.value.n
      case WrongPreimage => !opensLockup
      case _ => false
  {
    FiniteSumHasFiniteParts(Fin(0), vtxos);
  }

  /** Every reason a request is refused for is the case. */
  lemma RefusalIsTrue(q: Quote, r: Request)
    requires RequestLightningReceive(q, r).Err?
    ensures
      var deadlineOk := r.decoded.Some? && r.decoded.value.expiresAt.Fin? && q.validUntil.Fin?;
      match RequestLightningReceive(q, r).error
      case NotThisTrade => r.amount.NaN? || r.amount != (if r.side == From then q.fromAmount else q.toAmount)
      case PaysOutMore => Gt(q.toAmount, q.fromAmount)
      case MissingBindingField => q.refundLocktime.None?
      case InvoiceUndecodable => r.decoded.None? || !r.decoded.value.expiresAt.Fin?
      case QuoteMalformed => !q.validUntil.Fin? || (q.refundLocktime.Some? && !q.refundLocktime.value.Fin?)
      case InvoiceHashMismatch => r.decoded.Some? && r.decoded.value.paymentHash != r.paymentHash
      case InvoiceAmountMismatch =>
        && r.decoded.Some?
        && (Le(r.decoded.value.amountSats, Fin(0)) || q.fromAmount.NaN? || r.decoded.value.amountSats != q.fromAmount)
      case InvalidGateInput => !r.now.Fin? || (r.maxPay.Some? && !r.maxPay.value.Fin?)
      case QuoteExpired =>
        deadlineOk && r.now.Fin? && (r.decoded.value.expiresAt.n <= r.now.n || q.validUntil.n <= r.now.n)
      case ClaimWindowTooShort =>
        && deadlineOk && q.refundLocktime.Some? && q.refundLocktime.value.Fin?
        && q.refundLocktime.value.n < Min(r.decoded.value.expiresAt.n, q.validUntil.n) + 1800
      case PriceTooHigh => r.maxPay.Some? && Gt(q.fromAmount, r.maxPay.value)
      case _ => false
  {
  }

  predicate HasNaN(q: Quote, r: Request, vtxos: seq<Vtxo>) {
    || q.fromAmount.NaN? || q.toAmount.NaN? || q.validUntil.NaN? || q.refundLocktime == Some(NaN)
    || r.amount.NaN? || r.now.NaN? || r.maxPay == Some(NaN)
    || (r.decoded.Some? && (r.decoded.value.amountSats.NaN? || r.decoded.value.expiresAt.NaN?))
    || exists v | v in vtxos :: v.value.NaN?
  }

  /** No NaN, wherever it came from, gets past both gates. */
  lemma NoNaNReachesDisclosure(q: Quote, r: Request, vtxos: seq<Vtxo>, opensLockup: bool)
    requires HasNaN(q, r, vtxos)
    ensures RequestLightningReceive(q, r).Err?
         || PushClaim(vtxos, Some(RequestLightningReceive(q, r).value.expectedAmount), false, opensLockup).Some?
  {
    FiniteSumHasFiniteParts(Fin(0), vtxos);
  }

  /**
   An infinite price is not stopped by any gate when the decoder agrees with it and no ceiling was
   asked for: of the numbers a passing leg rests on, the price alone may be infinite.
   */
  lemma InfinitePricePasses(hash: string)
    ensures
      var q := Quote(PosInf, Fin(1000), Fin(10_000), Some(Fin(20_000)));
      var r := Request(To, Fin(1000), hash, Some(InvoiceFacts(hash, PosInf, Fin(10_000))), Fin(0), None);
      RequestLightningReceive(q, r) == Ok(Receivable(Fin(10_000), Fin(1000)))
  {
    var q := Quote(PosInf, Fin(1000), Fin(10_000), Some(Fin(20_000)));
    assert AssertQuotedAmount(q, To, Fin(1000)) == None;
    assert VerifyReceiveInvoice(Some(InvoiceFacts(hash, PosInf, Fin(10_000))), hash, q) == Ok(Fin(10_000));
    assert AssertReceivable(q, Fin(10_000), Fin(0), None, None) == None;
  }

  /**
   What of a request's own making would let an infinite price through: its decoder, its clock and what
   it asked for.
   */
  predicate AdmitsInfinitePrice(r: Request) {
    && r.decoded.Some? && r.decoded.value.paymentHash == r.paymentHash && r.decoded.value.amountSats == PosInf
    && r.maxPay.None? && !r.amount.NaN? && (r.side == From ==> r.amount == PosInf)
    && r.now.Fin? && r.decoded.value.expiresAt.Fin? && r.now.n < r.decoded.value.expiresAt.n
  }

  /**
   Every quote a request passes has a finite price, exactly when the request itself does not admit an
   infinite one.
   */
  lemma PriceIsFiniteIff(r: Request)
    ensures (forall q :: RequestLightningReceive(q, r).Ok? ==> q.fromAmount.Fin?) <==> !AdmitsInfinitePrice(r)
  {
    if AdmitsInfinitePrice(r) {
      var expires := r.decoded.value.expiresAt;
      var payout := if r.side == From then Fin(0) else r.amount;
      var q := Quote(PosInf, payout, expires, Some(Fin(expires.n + MIN_CLAIM_WINDOW)));
      RequestPassesIff(q, r);
      assert RequestLightningReceive(q, r).Ok? && !q.fromAmount.Fin?;
    } else {
      forall q | RequestLightningReceive(q, r).Ok? ensures q.fromAmount.Fin? { RequestPassesIff(q, r); }
    }
  }
}
