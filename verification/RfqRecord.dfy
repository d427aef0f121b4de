/**
 RFQ swap records: what is stored of a live swap, and what a restart rebuilds from it. Stored
 objects are maps and a spread is a merge, so a key the live swap dropped is a real question.
 */
module RfqRecord {
  import opened Common
  import opened JsNumber

  datatype Outpoint = Outpoint(txid: string, vout: nat)

  /** A stored JSON value. */
  datatype Value = Text(text: string) | Texts(texts: seq<string>) | Number(number: Num) | Place(outpoint: Outpoint)
      | Object(id: int)

  /** Optional fields of a stored record; `OtherField` is anything a consumer put there. */
  datatype Field = RefundArkTxid | LockupSpendArkTxids | Failure | BlockedReason | Amount | FundingArkTxid
      | OtherField(name: string)

  datatype ProfileField =
    | Signer | Hashlock | ExpectedAmount | ClaimArkTxid | Funding | ClaimTxid
    | ClaimKey | RefundKey | HtlcLocktime | Network | HtlcAddress | MinConfirmations | OtherProfile(name: string)

  type Fields = map<Field, Value>

  type Profile = map<ProfileField, Value>

  datatype Kind = LightningSend | LightningReceive | OnchainSend

  // ---- The live swap ----

  datatype Head = Head(rfqId: string, state: string, createdAt: int, updatedAt: int)

  /** The manager's optional state. */
  datatype Tail = Tail(refundArkTxid: Option<string>, lockupSpendArkTxids: Option<seq<string>>,
                       failure: Option<string>, blockedReason: Option<string>)

  /** What a corridor's own leg carries. */
  datatype Leg =
    | Send
    | Receive(expectedAmount: Num, claimArkTxid: Option<string>)
    | Onchain(funding: Option<Outpoint>, claimTxid: Option<string>)

  datatype Swap = Swap(head: Head, tail: Tail, leg: Leg, lockupPkScript: string)

  function KindOf(leg: Leg): Kind {
    match leg case Send => LightningSend case Receive(_, _) => LightningReceive case Onchain(_, _) => OnchainSend
  }

  // ---- The stored record ----

  datatype Origin = Origin(kind: Kind, lockupAddress: string, profile: Profile, fields: Fields)

  datatype Record = Record(head: Head, origin: Origin)

  function TextField<K>(key: K, value: Option<string>): map<K, Value> {
    if value.Some? && value.value != "" then map[key := Text(value.value)] else map[]
  }

  /** The optional half of `managerState`. */
  function ManagerFields(t: Tail): Fields {
    TextField(RefundArkTxid, t.refundArkTxid)
    + (if t.lockupSpendArkTxids.Some? && t.lockupSpendArkTxids.value != []
       then map[LockupSpendArkTxids := Texts(t.lockupSpendArkTxids.value)] else map[])
    + TextField(Failure, t.failure)
    + TextField(BlockedReason, t.blockedReason)
  }

  function Project(leg: Leg): Profile {
    match leg
    case Send => map[]
    case Receive(expected, claim) => map[ExpectedAmount := Number(expected)] + TextField(ClaimArkTxid, claim)
    case Onchain(funding, claim) =>
      (if funding.Some? then map[Funding := Place(funding.value)] else map[]) + TextField(ClaimTxid, claim)
  }

  datatype Error = NotTheSameSwap | WrongParams | Unusable

  /** Code outside this model: address decoding, the stored hashlock's check, and the L1 HTLC's derivation. */
  datatype Env = Env(pkScriptOf: string -> Option<string>, hashlock: Option<Value> -> Option<string>,
      htlc: (string, L1) -> Option<string>)

  /** The L1 inputs of an onchain profile. */
  datatype L1 = L1(claimKey: Option<Value>, refundKey: Option<Value>, locktime: Option<Value>, network: Option<Value>)

  predicate SameSwap(env: Env, o: Origin, s: Swap) {
    o.kind == KindOf(s.leg) && env.pkScriptOf(o.lockupAddress) == Some(s.lockupPkScript)
  }

  function CreateRecord(env: Env, o: Origin, s: Swap): Result<Record, Error> {
    if !SameSwap(env, o, s) then Err(NotTheSameSwap)
    else Ok(Record(s.head, o.(fields := o.fields + ManagerFields(s.tail), profile := o.profile + Project(s.leg))))
  }

  function WithoutManagerFields(f: Fields): Fields {
    f - {RefundArkTxid, LockupSpendArkTxids, Failure, BlockedReason}
  }

  function UpdateRecord(env: Env, r: Record, s: Swap): Result<Record, Error> {
    if !SameSwap(env, r.origin, s) then Err(NotTheSameSwap)
    else
      var o := r.origin;
      Ok(Record(s.head, o.(fields := WithoutManagerFields(o.fields) + ManagerFields(s.tail),
          profile := o.profile + Project(s.leg))))
  }

  function OriginOf(r: Record): Origin {
    r.origin.(fields := OriginFields(r.origin.fields))
  }

  function OriginFields(f: Fields): Fields {
    (if Amount in f then map[Amount := f[Amount]] else map[])
    + (if FundingArkTxid in f && Truthy(f[FundingArkTxid]) then map[FundingArkTxid := f[FundingArkTxid]] else map[])
  }

  predicate Truthy(v: Value) {
    match v
    case Text(t) => t != ""
    case Number(n) => !n.NaN? && n != Fin(0)
    case _ => true
  }

  // ---- The rebuild ----

  function ReadText<K>(m: map<K, Value>, key: K): Option<string> {
    if key in m && m[key].Text? && m[key].text != "" then Some(m[key].text) else None
  }

  function ReadTexts(m: Fields): Option<seq<string>> {
    if LockupSpendArkTxids in m && m[LockupSpendArkTxids].Texts? && m[LockupSpendArkTxids].texts != []
    then Some(m[LockupSpendArkTxids].texts) else None
  }

  function Get(p: Profile, key: ProfileField): Option<Value> { if key in p then Some(p[key]) else None }

  predicate Usable(v: Option<Value>) { v.Some? && Truthy(v.value) }

  /** What a profile must hold before its leg can be driven, apart from the amount gate. */
  predicate Armed(env: Env, kind: Kind, p: Profile) {
    var hash := env.hashlock(Get(p, Hashlock));
    && hash.Some?
    && (kind == OnchainSend ==>
          && Usable(Get(p, ClaimKey)) && Usable(Get(p, RefundKey))
          && (match Get(p, MinConfirmations) case Some(Number(Fin(n))) => n >= 1 case _ => false)
          && var address := env.htlc(hash.value,
              L1(Get(p, ClaimKey), Get(p, RefundKey), Get(p, HtlcLocktime), Get(p, Network)));
             address.Some? && Get(p, HtlcAddress) == Some(Text(address.value)))
  }

  /**
   What a request half must hold to be driven, in plain fields: a hashlock that reads; and for an onchain
   leg both L1 keys, a whole number of confirmations of at least one, and an address that is the one its
   own inputs derive. A key counts only if it is not an empty text, a zero or not a number.
   */
  lemma ArmedIff(env: Env, kind: Kind, p: Profile)
    ensures Armed(env, kind, p) <==>
              && env.hashlock(Get(p, Hashlock)).Some?
              && (kind == OnchainSend ==>
                    && ClaimKey in p && p[ClaimKey] !in NOTHING && RefundKey in p && p[RefundKey] !in NOTHING
                    && (exists n :: n >= 1 && MinConfirmations in p && p[MinConfirmations] == Number(Fin(n)))
                    && exists address ::
                         && HtlcAddress in p && p[HtlcAddress] == Text(address)
                         && env.htlc(env.hashlock(Get(p, Hashlock)).value, InputsOf(p)) == Some(address))
    ensures forall key :: Get(p, key) == if key in p then Some(p[key]) else None
  {
    if Armed(env, kind, p) && kind == OnchainSend {
      assert p[MinConfirmations].number.n >= 1 && p[MinConfirmations] == Number(Fin(p[MinConfirmations].number.n));
      assert p[HtlcAddress] == Text(p[HtlcAddress].text);
    }
  }

  const NOTHING: set<Value> := {Text(""), Number(NaN), Number(Fin(0))}

  function InputsOf(p: Profile): L1 {
    L1(Get(p, ClaimKey), Get(p, RefundKey), Get(p, HtlcLocktime), Get(p, Network))
  }

  /** The leg a profile describes; an amount that is not a number reads as `NaN`. */
  function LegOf(kind: Kind, p: Profile): Leg {
    match kind
    case LightningSend => Send
    case LightningReceive =>
      var amount := if ExpectedAmount in p && p[ExpectedAmount].Number? then p[ExpectedAmount].number else NaN;
      Receive(amount, ReadText(p, ClaimArkTxid))
    case OnchainSend =>
      Onchain(if Funding in p && p[Funding].Place? then Some(p[Funding].outpoint) else None, ReadText(p, ClaimTxid))
  }

  function Hydrate(env: Env, kind: Kind, p: Profile): Result<Leg, Error> {
    if !Armed(env, kind, p) then Err(Unusable)
    else
      var leg := LegOf(kind, p);
      if leg.Receive? && !IsFinite(leg.expectedAmount) then Err(Unusable) else Ok(leg)
  }

  function TailOf(f: Fields): Tail {
    Tail(ReadText(f, RefundArkTxid), ReadTexts(f), ReadText(f, Failure), ReadText(f, BlockedReason))
  }

  /** `derived`: the lockup script the caller's covenant parameters give. */
  function Rebuild(env: Env, r: Record, derived: string): Result<Swap, Error> {
    var o := r.origin;
    if env.pkScriptOf(o.lockupAddress) != Some(derived) then Err(WrongParams)
    else match Hydrate(env, o.kind, o.profile)
      case Err(e) => Err(e)
      case Ok(leg) => Ok(Swap(r.head, TailOf(o.fields), leg, derived))
  }

  /** A write is refused exactly for a swap of another kind or lockup than the record's. */
  lemma WriteRefusedIff(env: Env, o: Origin, head: Head, s: Swap)
    ensures
      var kind := if s.leg.Send? then LightningSend else if s.leg.Receive? then LightningReceive else OnchainSend;
      var same := o.kind == kind && env.pkScriptOf(o.lockupAddress) == Some(s.lockupPkScript);
      && (if same then CreateRecord(env, o, s).Ok? else CreateRecord(env, o, s) == Err(NotTheSameSwap))
      && (if same then UpdateRecord(env, Record(head, o), s).Ok?
          else UpdateRecord(env, Record(head, o), s) == Err(NotTheSameSwap))
  {
  }

  /** Of the manager's state a text is stored when it is not empty, and so is the list of spends. */
  lemma StoredFieldsIff(t: Tail)
    ensures
      var m := ManagerFields(t);
      && (forall x :: RefundArkTxid in m && m[RefundArkTxid] == Text(x) <==> t.refundArkTxid == Some(x) && x != "")
      && (forall x :: Failure in m && m[Failure] == Text(x) <==> t.failure == Some(x) && x != "")
      && (forall x :: BlockedReason in m && m[BlockedReason] == Text(x) <==> t.blockedReason == Some(x) && x != "")
      && (forall x :: LockupSpendArkTxids in m && m[LockupSpendArkTxids] == Texts(x) <==>
            t.lockupSpendArkTxids == Some(x) && x != [])
  {
  }

  // ---- Runs of updates ----

  /** Text is absent rather than empty, as the manager writes it. */
  predicate Canonical(s: Swap) {
    && s.tail.refundArkTxid != Some("") && s.tail.failure != Some("") && s.tail.blockedReason != Some("")
    && s.tail.lockupSpendArkTxids != Some([])
    && match s.leg
       case Send => true
       case Receive(_, claim) => claim != Some("")
       case Onchain(_, claim) => claim != Some("")
  }

  /** A leg keeps its kind, and never unsets a txid or the funding it learned. */
  predicate Keeps(before: Leg, after: Leg) {
    match (before, after)
    case (Send, Send) => true
    case (Receive(_, a), Receive(_, b)) => a.Some? ==> b.Some?
    case (Onchain(f, a), Onchain(g, b)) => (f.Some? ==> g.Some?) && (a.Some? ==> b.Some?)
    case _ => false
  }

  /** One write of the manager; `recreated` when the store lost the record and it is created again from its origin. */
  datatype Write = Write(swap: Swap, recreated: bool)

  /** The record after creation from the first write's swap and one write for each later one. */
  function Stored(env: Env, o: Origin, writes: seq<Write>): Result<Record, Error>
    requires writes != []
  {
    var last := writes[|writes| - 1];
    if |writes| == 1 then CreateRecord(env, o, last.swap)
    else match Stored(env, o, writes[..|writes| - 1])
      case Err(e) => Err(e)
      case Ok(r) => if last.recreated then CreateRecord(env, OriginOf(r), last.swap)
          else UpdateRecord(env, r, last.swap)
  }

  ghost predicate Steady(writes: seq<Write>) {
    && (forall w | w in writes :: Canonical(w.swap))
    && forall i, j | 0 <= i && j == i + 1 && j < |writes| :: Keeps(writes[i].swap.leg, writes[j].swap.leg)
  }

  predicate NoManagerFields(f: Fields) {
    RefundArkTxid !in f && LockupSpendArkTxids !in f && Failure !in f && BlockedReason !in f
  }

  /** A fresh origin: nothing of the manager's on it yet. */
  predicate Fresh(o: Origin) {
    NoManagerFields(o.fields) && ClaimArkTxid !in o.profile && Funding !in o.profile && ClaimTxid !in o.profile
  }

  predicate Projected(key: ProfileField) {
    key == ExpectedAmount || key == ClaimArkTxid || key == Funding || key == ClaimTxid
  }

  /** Everything the manager does not project is as the caller wrote it. */
  ghost predicate Untouched(before: Profile, after: Profile) {
    forall key | !Projected(key) :: Get(after, key) == Get(before, key)
  }

  /** The record says what the live swap says, and keeps what came from the request. */
  ghost predicate Mirrors(env: Env, o: Origin, r: Record, s: Swap) {
    && r.head == s.head && TailOf(r.origin.fields) == s.tail && LegOf(r.origin.kind, r.origin.profile) == s.leg
    && r.origin.kind == o.kind && r.origin.lockupAddress == o.lockupAddress && SameSwap(env, o, s)
    && Untouched(o.profile, r.origin.profile)
  }

  lemma TailWritten(f: Fields, s: Swap)
    requires NoManagerFields(f) && Canonical(s)
    ensures TailOf(f + ManagerFields(s.tail)) == s.tail
  {
    var m := f + ManagerFields(s.tail);
    assert ReadText(m, RefundArkTxid) == s.tail.refundArkTxid;
    assert ReadTexts(m) == s.tail.lockupSpendArkTxids;
    assert ReadText(m, Failure) == s.tail.failure;
    assert ReadText(m, BlockedReason) == s.tail.blockedReason;
  }

  lemma LegWritten(p: Profile, s: Swap, before: Leg)
    requires LegOf(KindOf(s.leg), p) == before && Canonical(s) && Keeps(before, s.leg)
    ensures LegOf(KindOf(s.leg), p + Project(s.leg)) == s.leg && Untouched(p, p + Project(s.leg))
  {
  }

  /** A first write: any leg is a step on from a profile that holds nothing yet. */
  lemma FirstLegWritten(p: Profile, s: Swap)
    requires ClaimArkTxid !in p && Funding !in p && ClaimTxid !in p && Canonical(s)
    ensures LegOf(KindOf(s.leg), p + Project(s.leg)) == s.leg && Untouched(p, p + Project(s.leg))
  {
    LegWritten(p, s, LegOf(KindOf(s.leg), p));
  }

  lemma UpdateMirrors(env: Env, o: Origin, r: Record, before: Swap, s: Swap)
    requires Mirrors(env, o, r, before) && Keeps(before.leg, s.leg) && Canonical(s) && SameSwap(env, o, s)
    ensures UpdateRecord(env, r, s).Ok? && Mirrors(env, o, UpdateRecord(env, r, s).value, s)
  {
    LegWritten(r.origin.profile, s, before.leg);
    TailWritten(WithoutManagerFields(r.origin.fields), s);
  }

  lemma RecreateMirrors(env: Env, o: Origin, r: Record, before: Swap, s: Swap)
    requires Mirrors(env, o, r, before) && Keeps(before.leg, s.leg) && Canonical(s) && SameSwap(env, o, s)
    ensures CreateRecord(env, OriginOf(r), s).Ok? && Mirrors(env, o, CreateRecord(env, OriginOf(r), s).value, s)
  {
    LegWritten(r.origin.profile, s, before.leg);
    TailWritten(OriginFields(r.origin.fields), s);
  }

  lemma CreateMirrors(env: Env, o: Origin, s: Swap)
    requires Fresh(o) && Canonical(s) && SameSwap(env, o, s)
    ensures CreateRecord(env, o, s).Ok? && Mirrors(env, o, CreateRecord(env, o, s).value, s)
  {
    TailWritten(o.fields, s);
    FirstLegWritten(o.profile, s);
  }

  lemma SteadyFront(writes: seq<Write>)
    requires Steady(writes) && |writes| > 1
    ensures
      var front := writes[..|writes| - 1];
      && Steady(front) && (forall w | w in front :: w in writes)
      && Canonical(writes[|writes| - 1].swap) && Keeps(front[|front| - 1].swap.leg, writes[|writes| - 1].swap.leg)
  {
    var front := writes[..|writes| - 1];
    assert forall w | w in front :: w in writes;
    assert writes[|writes| - 1] in writes && front[|front| - 1] == writes[|writes| - 2];
  }

  lemma {:induction false} StoredMirrors(env: Env, o: Origin, writes: seq<Write>)
    requires writes != [] && Fresh(o) && Steady(writes) && forall w | w in writes :: SameSwap(env, o, w.swap)
    ensures Stored(env, o, writes).Ok? && Mirrors(env, o, Stored(env, o, writes).value, writes[|writes| - 1].swap)
    decreases |writes|
  {
    var last := writes[|writes| - 1];
    assert last in writes;
    if |writes| == 1 {
      CreateMirrors(env, o, last.swap);
    } else {
      var front, n := writes[..|writes| - 1], |writes| - 2;
      SteadyFront(writes);
      StoredMirrors(env, o, front);
      var r := Stored(env, o, front).value;
      if last.recreated {
        RecreateMirrors(env, o, r, front[n].swap, last.swap);
      } else {
        UpdateMirrors(env, o, r, front[n].swap, last.swap);
      }
    }
  }

  /**
   After any run of updates and re-creations, a rebuild gives back exactly the live swap, cleared
   fields included. It is refused only for what the caller brings: covenant parameters of another
   lockup, a request half that cannot be driven, or an amount that is not a finite number.
   */
  lemma RebuildIsTheLiveSwap(env: Env, o: Origin, writes: seq<Write>, derived: string)
    requires writes != [] && Fresh(o) && Steady(writes) && forall w | w in writes :: SameSwap(env, o, w.swap)
    ensures
      var live := writes[|writes| - 1].swap;
      Stored(env, o, writes).Ok? &&
      var rebuilt := Rebuild(env, Stored(env, o, writes).value, derived);
      && (rebuilt.Ok? ==> rebuilt.value == live)
      && (rebuilt == Err(WrongParams) <==> derived != live.lockupPkScript)
      && (rebuilt.Err? && derived == live.lockupPkScript ==> rebuilt == Err(Unusable))
      && (rebuilt.Ok? <==> derived == live.lockupPkScript && Armed(env, o.kind, o.profile)
                           && (live.leg.Receive? ==> IsFinite(live.leg.expectedAmount)))
  {
    StoredMirrors(env, o, writes);
    var r := Stored(env, o, writes).value;
    ArmedByUntouched(env, o.kind, o.profile, r.origin.profile);
  }

  lemma ArmedByUntouched(env: Env, kind: Kind, p: Profile, q: Profile)
    requires Untouched(p, q)
    ensures Armed(env, kind, p) == Armed(env, kind, q)
  {
    assert Get(p, Hashlock) == Get(q, Hashlock) && Get(p, ClaimKey) == Get(q, ClaimKey)
        && Get(p, RefundKey) == Get(q, RefundKey);
    assert Get(p, MinConfirmations) == Get(q, MinConfirmations) && Get(p, HtlcLocktime) == Get(q, HtlcLocktime);
    assert Get(p, Network) == Get(q, Network) && Get(p, HtlcAddress) == Get(q, HtlcAddress);
  }

  /** The keys a swap signs and unlocks with survive any number of writes. */
  lemma SecretsSurvive(env: Env, o: Origin, writes: seq<Write>)
    requires writes != [] && Fresh(o) && Steady(writes) && forall w | w in writes :: SameSwap(env, o, w.swap)
    ensures
      Stored(env, o, writes).Ok? &&
      var p := Stored(env, o, writes).value.origin.profile;
      Get(p, Signer) == Get(o.profile, Signer) && Get(p, Hashlock) == Get(o.profile, Hashlock)
  {
    StoredMirrors(env, o, writes);
  }

  predicate ManagerField(k: Field) {
    k == RefundArkTxid || k == LockupSpendArkTxids || k == Failure || k == BlockedReason
  }

  predicate OriginField(f: Fields, k: Field)
    requires k in f
  {
    k == Amount || (k == FundingArkTxid && Truthy(f[k]))
  }

  lemma ManagerFieldsOnly(t: Tail)
    ensures forall k | k in ManagerFields(t) :: ManagerField(k)
  {
  }

  lemma SameFieldsIff(f: Fields, m: Fields)
    requires forall k | k in m :: ManagerField(k)
    ensures OriginFields(f) + m == WithoutManagerFields(f) + m <==>
        forall k | k in f :: ManagerField(k) || OriginField(f, k)
  {
    var a, b := OriginFields(f) + m, WithoutManagerFields(f) + m;
    if k :| k in f && !ManagerField(k) && !OriginField(f, k) {
      assert k in b && k !in a;
    } else {
      forall k ensures k in a <==> k in b { }
      assert forall k | k in a :: a[k] == b[k];
      assert a == b;
    }
  }

  lemma SameFieldsAsIff(f: Fields, m: Fields)
    ensures f + m == WithoutManagerFields(f) + m <==> forall k | k in f && ManagerField(k) :: k in m
  {
    var a, b := f + m, WithoutManagerFields(f) + m;
    if k :| k in f && ManagerField(k) && k !in m {
      assert k in a && k !in b;
    } else {
      forall k ensures k in a <==> k in b { }
      assert a == b;
    }
  }

  /**
   Re-creating from a record's origin is updating the record, exactly when the record holds only fields
   an origin keeps.
   */
  lemma RecreateIsUpdateIff(env: Env, r: Record, s: Swap)
    requires SameSwap(env, r.origin, s)
    ensures CreateRecord(env, OriginOf(r), s) == UpdateRecord(env, r, s) <==>
              forall k | k in r.origin.fields :: ManagerField(k) || OriginField(r.origin.fields, k)
  {
    ManagerFieldsOnly(s.tail);
    SameFieldsIff(r.origin.fields, ManagerFields(s.tail));
  }

  /**
   A stored record passed as an origin is the same thing, exactly when the live swap cleared nothing
   the record holds.
   */
  lemma RecordAsOriginIff(env: Env, r: Record, s: Swap)
    requires SameSwap(env, r.origin, s)
    ensures CreateRecord(env, r.origin, s) == UpdateRecord(env, r, s) <==>
              forall k | k in r.origin.fields && ManagerField(k) :: k in ManagerFields(s.tail)
  {
    SameFieldsAsIff(r.origin.fields, ManagerFields(s.tail));
  }
}
