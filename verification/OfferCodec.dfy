/**
 The offer wire format: a strict TLV printer and parser.

 The parser is the source's loop (`DecodeOffer`), proved against `Decode`. The main theorem
 characterises acceptance completely: a byte string decodes to an offer exactly when it is the
 offer's six records written one after the other in some order.
 */
module OfferCodec {
  import opened Common

  type byte = x: int | 0 <= x < 256
  type bytes = seq<byte>

  // ---- Values ----

  datatype RawAssetId = AssetId(txid: bytes, groupIndex: int)

  predicate ValidAssetId(a: RawAssetId) {
    |a.txid| == 32 && (exists b | b in a.txid :: b != 0) && 0 <= a.groupIndex <= 0xffff
  }

  /** The constructor of an asset id is private, so no invalid one exists. */
  type AssetId = a: RawAssetId | ValidAssetId(a) 
    witness var txid := seq(32, _ => 1); assert txid[0] in txid; AssetId(txid, 0)

  datatype Offer = Offer(
    swapPkScript: bytes,
    wantAmount: int,
    wantAsset: Option<AssetId>,
    offerAsset: Option<AssetId>,
    makerPkScript: bytes,
    makerPublicKey: bytes,
    emulatorPubkey: bytes)

  datatype Field =
    | SwapPkScript | WantAmount | WantAsset | MakerPkScript
    | MakerPublicKey | EmulatorPubkey | OfferAsset

  datatype Error =
    | TruncatedHeader
    | TruncatedValue(tag: byte)
    | UnknownType(tag: byte)
    | Duplicate(field: Field)
    | Invalid(field: Field)
    | NotExactlyOneAsset
    | BadAssetId
    | AmountNotU64

  const MAX_VALUE := 0xffff
  const U64 := 0x1_0000_0000_0000_0000

  function Tag(f: Field): byte {
    match f
    case SwapPkScript => 0x01
    case WantAmount => 0x02
    case WantAsset => 0x03
    case MakerPkScript => 0x05
    case MakerPublicKey => 0x07
    case EmulatorPubkey => 0x08
    case OfferAsset => 0x0b
  }

  function FieldOf(tag: byte): (f: Option<Field>)
    ensures forall g :: f == Some(g) <==> Tag(g) == tag
  {
    if tag == 0x01 then Some(SwapPkScript)
    else if tag == 0x02 then Some(WantAmount)
    else if tag == 0x03 then Some(WantAsset)
    else if tag == 0x05 then Some(MakerPkScript)
    else if tag == 0x07 then Some(MakerPublicKey)
    else if tag == 0x08 then Some(EmulatorPubkey)
    else if tag == 0x0b then Some(OfferAsset)
    else None
  }

  /** The exact length of a fixed-width field; the asset ids are checked by their own parser. */
  function Width(f: Field): Option<nat> {
    match f
    case SwapPkScript => Some(34)
    case WantAmount => Some(8)
    case MakerPkScript => Some(34)
    case MakerPublicKey => Some(32)
    case EmulatorPubkey => Some(32)
    case WantAsset => None
    case OfferAsset => None
  }

  // ---- Big-endian amounts and little-endian group indexes ----

  function BigEndian(n: nat, width: nat): (b: bytes)
    ensures |b| == width
  {
    if width == 0 then [] else BigEndian(n / 256, width - 1) + [n % 256]
  }

  function ReadBigEndian(b: bytes): nat {
    if b == [] then 0 else ReadBigEndian(b[..|b| - 1]) * 256 + b[|b| - 1]
  }

  function Pow256(k: nat): nat { if k == 0 then 1 else 256 * Pow256(k - 1) }

  lemma {:induction false} ReadAfterWrite(n: nat, width: nat)
    requires n < Pow256(width)
    ensures ReadBigEndian(BigEndian(n, width)) == n
  {
    if width > 0 {
      ReadAfterWrite(n / 256, width - 1);
      assert BigEndian(n, width)[..width - 1] == BigEndian(n / 256, width - 1);
    }
  }

  lemma {:induction false} WriteAfterRead(b: bytes)
    ensures ReadBigEndian(b) < Pow256(|b|)
    ensures BigEndian(ReadBigEndian(b), |b|) == b
  {
    if b != [] {
      var front := b[..|b| - 1];
      WriteAfterRead(front);
      assert ReadBigEndian(b) / 256 == ReadBigEndian(front) && ReadBigEndian(b) % 256 == b[|b| - 1];
      assert b == front + [b[|b| - 1]];
    }
  }

  lemma PowEight()
    ensures Pow256(8) == U64
  {
    assert Pow256(4) == 0x1_0000_0000;
  }

  function U16(high: int, low: int): int { high * 256 + low }

  lemma U16Inverse(high: int, low: int)
    requires 0 <= high < 256 && 0 <= low < 256
    ensures U16(high, low) / 256 == high && U16(high, low) % 256 == low && U16(high, low) <= 0xffff
  {
  }

  function SerializeAsset(a: AssetId): bytes { a.txid + [a.groupIndex % 256, a.groupIndex / 256] }

  function ParseAsset(b: bytes): Option<AssetId> {
    if |b| != 34 then None
    else
      var a := AssetId(b[..32], U16(b[33], b[32]));
      if ValidAssetId(a) then Some(a) else None
  }

  lemma AssetRoundTrip(a: AssetId)
    ensures ParseAsset(SerializeAsset(a)) == Some(a)
  {
    assert SerializeAsset(a)[..32] == a.txid;
  }

  lemma AssetCanonical(b: bytes)
    requires ParseAsset(b).Some?
    ensures SerializeAsset(ParseAsset(b).value) == b
  {
    U16Inverse(b[33], b[32]);
    assert b == b[..32] + [b[32], b[33]];
  }

  // ---- Printing ----

  datatype Record = Record(field: Field, value: bytes)

  predicate Fits(r: Record) { |r.value| <= MAX_VALUE }

  predicate AllFit(rs: seq<Record>) { forall r | r in rs :: Fits(r) }

  function RecordBytes(r: Record): bytes
    requires Fits(r)
  {
    [Tag(r.field), |r.value| / 256, |r.value| % 256] + r.value
  }

  function Join(rs: seq<Record>): bytes
    requires AllFit(rs)
  {
    if rs == [] then [] else RecordBytes(rs[0]) + Join(rs[1..])
  }

  function EncodeError(o: Offer): Option<Error> {
    if o.wantAsset.Some? == o.offerAsset.Some? then Some(NotExactlyOneAsset)
    else if |o.swapPkScript| != 34 then Some(Invalid(SwapPkScript))
    else if |o.makerPkScript| != 34 then Some(Invalid(MakerPkScript))
    else if |o.makerPublicKey| != 32 then Some(Invalid(MakerPublicKey))
    else if |o.emulatorPubkey| != 32 then Some(Invalid(EmulatorPubkey))
    else if o.wantAmount < 0 || o.wantAmount >= U64 then Some(AmountNotU64)
    else None
  }

  predicate Encodable(o: Offer) { EncodeError(o).None? }

  function Records(o: Offer): seq<Record>
    requires Encodable(o)
  {
    [Record(SwapPkScript, o.swapPkScript), Record(WantAmount, BigEndian(o.wantAmount, 8))]
    + (if o.wantAsset.Some? then [Record(WantAsset, SerializeAsset(o.wantAsset.value))] else [])
    + (if o.offerAsset.Some? then [Record(OfferAsset, SerializeAsset(o.offerAsset.value))] else [])
    + [Record(MakerPkScript, o.makerPkScript),
       Record(MakerPublicKey, o.makerPublicKey),
       Record(EmulatorPubkey, o.emulatorPubkey)]
  }

  function Encode(o: Offer): Result<bytes, Error> {
    match EncodeError(o)
    case Some(e) => Err(e)
    case None =>
      RecordsContents(o);
      Ok(Join(Records(o)))
  }

  // ---- Parsing ----

  type Fields = map<Field, bytes>

  /** One record off the front of `rest`: the field and value, and how many bytes it took. */
  function Header(rest: bytes, seen: Fields): (r: Result<Record, Error>)
    requires rest != []
    ensures r.Ok? ==> Fits(r.value) && RecordBytes(r.value) <= rest && r.value.field !in seen
  {
    if |rest| < 3 then Err(TruncatedHeader)
    else
      var length := U16(rest[1], rest[2]);
      if 3 + length > |rest| then Err(TruncatedValue(rest[0]))
      else if FieldOf(rest[0]).None? then Err(UnknownType(rest[0]))
      else
        var f := FieldOf(rest[0]).value;
        if f in seen then Err(Duplicate(f))
        else
          var r := Record(f, rest[3..3 + length]);
          assert RecordBytes(r) == rest[..3 + length];
          Ok(r)
  }

  function Scan(rest: bytes, seen: Fields): Result<Fields, Error>
    decreases |rest|
  {
    if rest == [] then Ok(seen)
    else match Header(rest, seen)
      case Err(e) => Err(e)
      case Ok(r) => Scan(rest[3 + |r.value|..], seen[r.field := r.value])
  }

  /** The source's `need`: present, and of the exact width where one is fixed. */
  predicate Usable(fields: Fields, f: Field) {
    f in fields && (Width(f).Some? ==> |fields[f]| == Width(f).value)
  }

  function Assemble(fields: Fields): Result<Offer, Error> {
    if WantAsset in fields && fields[WantAsset] == [] then Err(Invalid(WantAsset))
    else if OfferAsset in fields && fields[OfferAsset] == [] then Err(Invalid(OfferAsset))
    else if !Usable(fields, WantAmount) then Err(Invalid(WantAmount))
    else if (WantAsset in fields) == (OfferAsset in fields) then Err(NotExactlyOneAsset)
    else if !Usable(fields, SwapPkScript) then Err(Invalid(SwapPkScript))
    else if WantAsset in fields && ParseAsset(fields[WantAsset]).None? then Err(BadAssetId)
    else if OfferAsset in fields && ParseAsset(fields[OfferAsset]).None? then Err(BadAssetId)
    else if !Usable(fields, MakerPkScript) then Err(Invalid(MakerPkScript))
    else if !Usable(fields, MakerPublicKey) then Err(Invalid(MakerPublicKey))
    else if !Usable(fields, EmulatorPubkey) then Err(Invalid(EmulatorPubkey))
    else Ok(Offer(
      fields[SwapPkScript],
      ReadBigEndian(fields[WantAmount]),
      if WantAsset in fields then ParseAsset(fields[WantAsset]) else None,
      if OfferAsset in fields then ParseAsset(fields[OfferAsset]) else None,
      fields[MakerPkScript],
      fields[MakerPublicKey],
      fields[EmulatorPubkey]))
  }

  function Decode(data: bytes): Result<Offer, Error> {
    match Scan(data, map[])
    case Err(e) => Err(e)
    case Ok(fields) => Assemble(fields)
  }

  /** Scanning from an offset, in terms of the whole payload. */
  lemma ScanAt(data: bytes, off: nat, fields: Fields)
    requires off < |data|
    ensures off + 3 > |data| ==> Scan(data[off..], fields) == Err(TruncatedHeader)
    ensures off + 3 <= |data| ==>
              var end := off + 3 + U16(data[off + 1], data[off + 2]);
              var name := FieldOf(data[off]);
              Scan(data[off..], fields) ==
                if end > |data| then Err(TruncatedValue(data[off]))
                else if name.None? then Err(UnknownType(data[off]))
                else if name.value in fields then Err(Duplicate(name.value))
                else Scan(data[end..], fields[name.value := data[off + 3..end]])
  {
    var rest := data[off..];
    if off + 3 <= |data| {
      assert rest[0] == data[off] && rest[1] == data[off + 1] && rest[2] == data[off + 2];
      var length := U16(data[off + 1], data[off + 2]);
      if off + 3 + length <= |data| {
        assert rest[3..3 + length] == data[off + 3..off + 3 + length];
        assert rest[3 + length..] == data[off + 3 + length..];
      }
    }
  }

  /** The source's loop over the payload. */
  method DecodeOffer(data: bytes) returns (r: Result<Offer, Error>)
    ensures r == Decode(data)
  {
    var fields: Fields := map[];
    var off := 0;
    while off < |data|
      invariant 0 <= off <= |data|
      invariant Scan(data, map[]) == Scan(data[off..], fields)
    {
      ScanAt(data, off, fields);
      if off + 3 > |data| { return Err(TruncatedHeader); }
      var tag := data[off];
      var end := off + 3 + U16(data[off + 1], data[off + 2]);
      if end > |data| { return Err(TruncatedValue(tag)); }
      var name := FieldOf(tag);
      if name.None? { return Err(UnknownType(tag)); }
      if name.value in fields { return Err(Duplicate(name.value)); }
      fields := fields[name.value := data[off + 3..end]];
      off := end;
    }
    r := Assemble(fields);
  }

  // ---- Records and the map they fill ----

  predicate Distinct(rs: seq<Record>) {
    forall i, j | 0 <= i < j < |rs| :: rs[i].field != rs[j].field
  }

  predicate Fresh(rs: seq<Record>, seen: Fields) { forall r | r in rs :: r.field !in seen }

  function ToMap(rs: seq<Record>, seen: Fields): Fields {
    if rs == [] then seen else ToMap(rs[1..], seen[rs[0].field := rs[0].value])
  }

  lemma {:induction false} ToMapHolds(rs: seq<Record>, seen: Fields, f: Field, v: bytes)
    requires Distinct(rs) && Fresh(rs, seen)
    ensures f in ToMap(rs, seen) && ToMap(rs, seen)[f] == v <==> Record(f, v) in rs || (f in seen && seen[f] == v)
  {
    if rs != [] {
      var rest := rs[1..];
      assert rs[0] in rs && forall r | r in rest :: r in rs;
      assert Record(f, v) in rs <==> Record(f, v) == rs[0] || Record(f, v) in rest;
      ToMapHolds(rest, seen[rs[0].field := rs[0].value], f, v);
    }
  }

  lemma ToMapContents(rs: seq<Record>, seen: Fields)
    requires Distinct(rs) && Fresh(rs, seen)
    ensures forall f, v :: (f in ToMap(rs, seen) && ToMap(rs, seen)[f] == v)
                           <==> Record(f, v) in rs || (f in seen && seen[f] == v)
  {
    forall f, v
      ensures (f in ToMap(rs, seen) && ToMap(rs, seen)[f] == v)
              <==> Record(f, v) in rs || (f in seen && seen[f] == v)
    {
      ToMapHolds(rs, seen, f, v);
    }
  }

  /** A printed record at the front is read back, and scanning goes on after it. */
  lemma ScanHead(r: Record, tail: bytes, seen: Fields)
    requires AllFit([r]) && r.field !in seen
    ensures Scan(RecordBytes(r) + tail, seen) == Scan(tail, seen[r.field := r.value])
  {
    var data := RecordBytes(r) + tail;
    assert r in [r];
    assert data[3..3 + |r.value|] == r.value;
    assert data[3 + |r.value|..] == tail;
  }

  /** A printed record list parses back to the map it fills, wherever parsing starts. */
  lemma {:induction false} ScanJoin(rs: seq<Record>, seen: Fields)
    requires AllFit(rs) && Distinct(rs) && Fresh(rs, seen)
    ensures Scan(Join(rs), seen) == Ok(ToMap(rs, seen))
  {
    if rs != [] {
      var r := rs[0];
      assert r in rs && forall s | s in rs[1..] :: s in rs;
      ScanHead(r, Join(rs[1..]), seen);
      ScanJoin(rs[1..], seen[r.field := r.value]);
    }
  }

  /** Whatever parses is a record list printed byte for byte. */
  lemma {:induction false} ScanIsJoin(rest: bytes, seen: Fields) returns (rs: seq<Record>)
    requires Scan(rest, seen).Ok?
    ensures AllFit(rs) && Distinct(rs) && Fresh(rs, seen)
    ensures rest == Join(rs) && Scan(rest, seen) == Ok(ToMap(rs, seen))
    decreases |rest|
  {
    if rest == [] {
      rs := [];
    } else {
      var r := Header(rest, seen).value;
      var tail := ScanIsJoin(rest[3 + |r.value|..], seen[r.field := r.value]);
      rs := [r] + tail;
      assert rs[1..] == tail;
      assert rest == RecordBytes(r) + rest[3 + |r.value|..];
    }
  }

  lemma {:induction false} DistinctMultiset(rs: seq<Record>, r: Record)
    requires Distinct(rs)
    ensures multiset(rs)[r] == if r in rs then 1 else 0
  {
    if rs != [] {
      assert rs == [rs[0]] + rs[1..];
      DistinctMultiset(rs[1..], r);
    }
  }

  lemma DistinctFromMultiset(rs: seq<Record>, qs: seq<Record>)
    requires multiset(rs) == multiset(qs) && Distinct(qs)
    ensures Distinct(rs)
  {
    forall i, j | 0 <= i < j < |rs|
      ensures rs[i].field != rs[j].field
    {
      assert rs[i] in multiset(rs) && rs[j] in multiset(rs);
      assert rs[i] in qs && rs[j] in qs;
      if rs[i].field == rs[j].field {
        var k :| 0 <= k < |qs| && qs[k] == rs[i];
        var l :| 0 <= l < |qs| && qs[l] == rs[j];
        assert k == l;
        assert rs == rs[..i] + [rs[i]] + rs[i + 1..j] + [rs[j]] + rs[j + 1..];
        assert multiset(rs)[rs[i]] >= 2;
        DistinctMultiset(qs, rs[i]);
        assert false;
      }
    }
  }

  ghost predicate Reordering(rs: seq<Record>, o: Offer) {
    Encodable(o) && multiset(rs) == multiset(Records(o)) && AllFit(rs)
  }

  /** What an offer puts on the wire under a field, if anything. */
  function Wire(o: Offer, f: Field): Option<bytes>
    requires Encodable(o)
  {
    match f
    case SwapPkScript => Some(o.swapPkScript)
    case WantAmount => Some(BigEndian(o.wantAmount, 8))
    case WantAsset => if o.wantAsset.Some? then Some(SerializeAsset(o.wantAsset.value)) else None
    case OfferAsset => if o.offerAsset.Some? then Some(SerializeAsset(o.offerAsset.value)) else None
    case MakerPkScript => Some(o.makerPkScript)
    case MakerPublicKey => Some(o.makerPublicKey)
    case EmulatorPubkey => Some(o.emulatorPubkey)
  }

  lemma RecordsContents(o: Offer)
    requires Encodable(o)
    ensures |Records(o)| == 6 && AllFit(Records(o)) && Distinct(Records(o))
    ensures forall r :: r in Records(o) <==> Wire(o, r.field) == Some(r.value)
  {
    var rs := Records(o);
    if o.wantAsset.Some? {
      assert rs[2] == Record(WantAsset, SerializeAsset(o.wantAsset.value));
    } else {
      assert rs[2] == Record(OfferAsset, SerializeAsset(o.offerAsset.value));
    }
    assert rs == [rs[0], rs[1], rs[2], rs[3], rs[4], rs[5]];
    assert forall r :: r in rs <==> r == rs[0] || r == rs[1] || r == rs[2] || r == rs[3] || r == rs[4] || r == rs[5];
  }

  /** A map that holds what an offer puts on the wire, and nothing else. */
  ghost predicate Holds(fields: Fields, o: Offer)
    requires Encodable(o)
  {
    forall f :: (if f in fields then Some(fields[f]) else None) == Wire(o, f)
  }

  lemma AssembleWire(fields: Fields, o: Offer)
    requires Encodable(o) && Holds(fields, o)
    ensures Assemble(fields) == Ok(o)
  {
    PowEight();
    ReadAfterWrite(o.wantAmount, 8);
    assert Wire(o, WantAmount).Some? && Wire(o, SwapPkScript).Some? && Wire(o, MakerPkScript).Some?;
    assert Wire(o, MakerPublicKey).Some? && Wire(o, EmulatorPubkey).Some?;
    assert Wire(o, WantAsset).Some? == o.wantAsset.Some? && Wire(o, OfferAsset).Some? == o.offerAsset.Some?;
    if o.wantAsset.Some? { AssetRoundTrip(o.wantAsset.value); }
    if o.offerAsset.Some? { AssetRoundTrip(o.offerAsset.value); }
  }

  lemma AssembledWire(fields: Fields, o: Offer)
    requires Assemble(fields) == Ok(o)
    ensures Encodable(o) && Holds(fields, o)
  {
    PowEight();
    WriteAfterRead(fields[WantAmount]);
    if WantAsset in fields { AssetCanonical(fields[WantAsset]); }
    if OfferAsset in fields { AssetCanonical(fields[OfferAsset]); }
  }

  lemma SameRecords(rs: seq<Record>, qs: seq<Record>)
    requires Distinct(rs) && Distinct(qs)
    requires forall r :: r in rs <==> r in qs
    ensures multiset(rs) == multiset(qs)
  {
    forall r ensures multiset(rs)[r] == multiset(qs)[r] {
      DistinctMultiset(rs, r);
      DistinctMultiset(qs, r);
    }
  }

  // ---- Main results ----

  /** Records in any order of an offer's six fill a map that holds its wire form. */
  lemma ReorderingHolds(rs: seq<Record>, o: Offer)
    requires Reordering(rs, o)
    ensures Distinct(rs) && Holds(ToMap(rs, map[]), o)
  {
    RecordsContents(o);
    DistinctFromMultiset(rs, Records(o));
    ToMapContents(rs, map[]);
    var m := ToMap(rs, map[]);
    forall r: Record ensures r in rs <==> Wire(o, r.field) == Some(r.value) {
      assert r in rs <==> r in multiset(rs);
      assert r in Records(o) <==> r in multiset(Records(o));
    }
    forall f ensures (if f in m then Some(m[f]) else None) == Wire(o, f) {
      if f in m { assert Record(f, m[f]) in rs; }
      if Wire(o, f).Some? { assert Record(f, Wire(o, f).value) in rs; }
    }
  }

  /** Distinct records that fill a map holding an offer's wire form are its six, in some order. */
  lemma HoldsReordering(rs: seq<Record>, o: Offer)
    requires AllFit(rs) && Distinct(rs) && Encodable(o) && Holds(ToMap(rs, map[]), o)
    ensures Reordering(rs, o)
  {
    RecordsContents(o);
    ToMapContents(rs, map[]);
    forall r: Record ensures r in rs <==> r in Records(o) {
      assert r == Record(r.field, r.value);
      assert r in rs <==> r.field in ToMap(rs, map[]) && ToMap(rs, map[])[r.field] == r.value;
    }
    SameRecords(rs, Records(o));
  }

  /** Acceptance, completely: `data` means `o` exactly when it is `o`'s records in some order. */
  lemma DecodeIff(data: bytes, o: Offer)
    ensures Decode(data) == Ok(o) <==> exists rs :: Reordering(rs, o) && data == Join(rs)
  {
    if Decode(data) == Ok(o) {
      var rs := ScanIsJoin(data, map[]);
      AssembledWire(ToMap(rs, map[]), o);
      HoldsReordering(rs, o);
    }
    if rs :| Reordering(rs, o) && data == Join(rs) {
      ReorderingHolds(rs, o);
      ScanJoin(rs, map[]);
      AssembleWire(ToMap(rs, map[]), o);
    }
  }

  lemma RoundTrip(o: Offer)
    requires Encode(o).Ok?
    ensures Decode(Encode(o).value) == Ok(o)
  {
    RecordsContents(o);
    assert Reordering(Records(o), o);
    DecodeIff(Join(Records(o)), o);
  }

  /** Which offers are encoded. */
  lemma EncodesIff(o: Offer)
    ensures Encode(o).Ok? <==>
              && |o.swapPkScript| == 34 && |o.makerPkScript| == 34
              && |o.makerPublicKey| == 32 && |o.emulatorPubkey| == 32
              && 0 <= o.wantAmount <= 0xffff_ffff_ffff_ffff && (o.wantAsset.None? <==> o.offerAsset.Some?)
    ensures
      match Encode(o)
      case Ok(_) => true
      case Err(NotExactlyOneAsset) => o.wantAsset.Some? <==> o.offerAsset.Some?
      case Err(Invalid(SwapPkScript)) => |o.swapPkScript| != 34
      case Err(Invalid(MakerPkScript)) => |o.makerPkScript| != 34
      case Err(Invalid(MakerPublicKey)) => |o.makerPublicKey| != 32
      case Err(Invalid(EmulatorPubkey)) => |o.emulatorPubkey| != 32
      case Err(AmountNotU64) => o.wantAmount < 0 || o.wantAmount > 0xffff_ffff_ffff_ffff
      case Err(_) => false
  {
  }

  /** Which asset bytes parse: 32 of an id that is not all zero, and two more. */
  lemma AssetParsesIff(b: bytes)
    ensures ParseAsset(b).Some? <==> |b| == 34 && exists i | 0 <= i < 32 :: b[i] != 0
    ensures ParseAsset(b).Some? ==>
              ParseAsset(b).value.txid == b[..32] && ParseAsset(b).value.groupIndex == U16(b[33], b[32])
  {
    if |b| == 34 {
      U16Inverse(b[33], b[32]);
      if i :| 0 <= i < 32 && b[i] != 0 { assert b[..32][i] in b[..32]; }
      if x :| x in b[..32] && x != 0 {
        var i :| 0 <= i < 32 && b[..32][i] == x;
        assert b[i] != 0;
      }
    }
  }

  /** What a refusal of a whole record list says of it is the case. */
  lemma RefusalIsTrue(fields: Fields)
    requires Assemble(fields).Err?
    ensures
      match Assemble(fields).error
      case Invalid(f) =>
        (match f
         case WantAmount => f in fields ==> |fields[f]| != 8
         case SwapPkScript => f in fields ==> |fields[f]| != 34
         case MakerPkScript => f in fields ==> |fields[f]| != 34
         case MakerPublicKey => f in fields ==> |fields[f]| != 32
         case EmulatorPubkey => f in fields ==> |fields[f]| != 32
         case _ => f in fields && fields[f] == [])
      case NotExactlyOneAsset => WantAsset in fields <==> OfferAsset in fields
      case BadAssetId =>
        || (WantAsset in fields && ParseAsset(fields[WantAsset]).None?)
        || (OfferAsset in fields && ParseAsset(fields[OfferAsset]).None?)
      case _ => false
  {
  }

  /** A record as it is written: its type, the length of its value in two bytes, the value. */
  function Written(tag: byte, length: byte, value: bytes): bytes { [tag, 0, length] + value }

  /** The encoding byte for byte, record after record. */
  lemma WireBytes(o: Offer)
    requires Encode(o).Ok?
    ensures
      var asset := if o.wantAsset.Some? then Written(0x03, 34, SerializeAsset(o.wantAsset.value))
          else Written(0x0b, 34, SerializeAsset(o.offerAsset.value));
      Encode(o).value ==
        Written(0x01, 34, o.swapPkScript) + (Written(0x02, 8, BigEndian(o.wantAmount, 8)) + (asset
        + (Written(0x05, 34, o.makerPkScript) + (Written(0x07, 32, o.makerPublicKey)
        + Written(0x08, 32, o.emulatorPubkey)))))
  {
    RecordsContents(o);
    var rs := Records(o);
    RecordsListed(o);
    JoinSix(rs);
    WrittenIs(rs[0]);
    WrittenIs(rs[1]);
    WrittenIs(rs[2]);
    WrittenIs(rs[3]);
    WrittenIs(rs[4]);
    WrittenIs(rs[5]);
  }

  lemma WrittenIs(r: Record)
    requires |r.value| < 256
    ensures RecordBytes(r) == Written(Tag(r.field), |r.value|, r.value)
  {
  }

  lemma RecordsListed(o: Offer)
    requires Encodable(o)
    ensures
      var rs := Records(o);
      && |rs| == 6 && rs[0] == Record(SwapPkScript, o.swapPkScript)
      && rs[1] == Record(WantAmount, BigEndian(o.wantAmount, 8))
      && rs[2] == (if o.wantAsset.Some? then Record(WantAsset, SerializeAsset(o.wantAsset.value))
                   else Record(OfferAsset, SerializeAsset(o.offerAsset.value)))
      && rs[3] == Record(MakerPkScript, o.makerPkScript) && rs[4] == Record(MakerPublicKey, o.makerPublicKey)
      && rs[5] == Record(EmulatorPubkey, o.emulatorPubkey)
  {
  }

  lemma JoinSix(rs: seq<Record>)
    requires |rs| == 6 && AllFit(rs)
    ensures (forall r | r in rs :: Fits(r)) && Join(rs) ==
        RecordBytes(rs[0]) + (RecordBytes(rs[1]) + (RecordBytes(rs[2])
        + (RecordBytes(rs[3]) + (RecordBytes(rs[4]) + RecordBytes(rs[5])))))
  {
    JoinTail(rs, 5);
    JoinTail(rs, 4);
    JoinTail(rs, 3);
    JoinTail(rs, 2);
    JoinTail(rs, 1);
    JoinTail(rs, 0);
    assert rs[0..] == rs && RecordBytes(rs[5]) + [] == RecordBytes(rs[5]);
  }

  lemma JoinTail(rs: seq<Record>, i: nat)
    requires i < |rs| && AllFit(rs)
    ensures Fits(rs[i]) && AllFit(rs[i..]) && AllFit(rs[i + 1..])
    ensures Join(rs[i..]) == RecordBytes(rs[i]) + Join(rs[i + 1..])
  {
    assert rs[i..][0] == rs[i] && rs[i..][1..] == rs[i + 1..] && rs[i] in rs;
    assert forall r | r in rs[i..] :: r in rs;
    assert forall r | r in rs[i + 1..] :: r in rs;
  }

  lemma EncodeInjective(o: Offer, p: Offer)
    requires Encode(o).Ok? && Encode(o) == Encode(p)
    ensures o == p
  {
    RoundTrip(o);
    RoundTrip(p);
  }

  lemma {:induction false} JoinPrefix(rs: seq<Record>, qs: seq<Record>)
    requires AllFit(rs) && AllFit(qs) && Join(rs) <= Join(qs)
    ensures rs <= qs
  {
    if rs != [] {
      assert rs[0] in rs && qs != [] && qs[0] in qs;
      var a, b := Join(rs), Join(qs);
      assert a[0] == b[0] && a[1] == b[1] && a[2] == b[2];
      assert FieldOf(a[0]) == Some(rs[0].field) && FieldOf(b[0]) == Some(qs[0].field);
      var n := |rs[0].value|;
      assert a[3..3 + n] == rs[0].value && b[3..3 + n] == qs[0].value;
      assert forall i | 3 <= i < 3 + n :: a[i] == b[i];
      assert rs[0] == qs[0];
      assert a[3 + n..] == Join(rs[1..]) && b[3 + n..] == Join(qs[1..]);
      assert a[3 + n..] <= b[3 + n..];
      assert forall r | r in rs[1..] :: r in rs;
      assert forall r | r in qs[1..] :: r in qs;
      JoinPrefix(rs[1..], qs[1..]);
      assert rs == [rs[0]] + rs[1..] && qs == [qs[0]] + qs[1..];
    }
  }

  /** No accepted payload is a proper prefix of another: a cut payload is never an offer. */
  lemma PrefixFree(short: bytes, long: bytes)
    requires Decode(short).Ok? && Decode(long).Ok? && short <= long
    ensures short == long
  {
    DecodeIff(short, Decode(short).value);
    DecodeIff(long, Decode(long).value);
    var rs :| Reordering(rs, Decode(short).value) && short == Join(rs);
    var qs :| Reordering(qs, Decode(long).value) && long == Join(qs);
    RecordsContents(Decode(short).value);
    RecordsContents(Decode(long).value);
    assert |multiset(rs)| == 6 && |multiset(qs)| == 6;
    JoinPrefix(rs, qs);
    assert rs == qs;
  }
}
