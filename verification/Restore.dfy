/**
 The incremental restore scan: swap records rebuilt from whatever the indexer answers, over any
 number of scans. Nothing may be lost to a partial answer and nothing may be guessed.
 */
module Restore {
  import opened Common

  type TxId = string
  type Script = string
  type Asset = string
  type Leaf = string

  datatype Outpoint = Outpoint(txid: TxId, vout: nat)

  /** `offerHex` is the payload it was decoded from. */
  datatype Offer = Offer(
    swapPkScript: Script, offerAsset: Option<Asset>, wantAsset: Option<Asset>, wantAmount: int, offerHex: string)

  /** The covenant of an offer under the server key: its script, and the two ways out of it. */
  datatype Covenant = Covenant(pkScript: Script, cancel: Option<Leaf>, fulfill: Option<Leaf>)

  datatype SpendInput = SpendInput(outpoint: Option<Outpoint>, leaves: seq<Leaf>)

  datatype SpendTx = SpendTx(inputs: seq<SpendInput>)

  datatype VtxoState = Live | Swept | SpentState

  /** An asset carried by an output besides its sats. */
  datatype Rider = Rider(asset: Asset, amount: int)

  /** `createdAt` in milliseconds. */
  datatype Vtxo = Vtxo(
    outpoint: Outpoint, value: int, state: VtxoState, spentBy: Option<TxId>, arkTxId: Option<TxId>,
    riders: seq<Rider>, createdAt: int)

  datatype Kind = Cancelled | Fulfilled | Indeterminate

  datatype Status = Pending | Recoverable | StatusCancelled | StatusFulfilled

  /** A line of the wallet's history; an empty id or a zero time (in seconds) is an absent one. */
  datatype WalletTx = WalletTx(sent: bool, redeemTxid: TxId, boardingTxid: TxId, roundTxid: TxId, createdAt: int)

  type Compile = Offer -> Option<Covenant>

  // ---- Classifying a spend by the leaf it took ----

  function LeafKind(c: Covenant, leaf: Leaf): Kind {
    if c.cancel == Some(leaf) then Cancelled
    else if c.fulfill == Some(leaf) then Fulfilled
    else Indeterminate
  }

  function FirstLeaf(c: Covenant, leaves: seq<Leaf>): Kind {
    if leaves == [] then Indeterminate
    else if LeafKind(c, leaves[0]) != Indeterminate then LeafKind(c, leaves[0])
    else FirstLeaf(c, leaves[1..])
  }

  function FirstInput(c: Covenant, inputs: seq<SpendInput>, deposit: Outpoint): Kind {
    if inputs == [] then Indeterminate
    else if inputs[0].outpoint == Some(deposit) && FirstLeaf(c, inputs[0].leaves) != Indeterminate
    then FirstLeaf(c, inputs[0].leaves)
    else FirstInput(c, inputs[1..], deposit)
  }

  /** A covenant that does not compile, or compiles to another script, classifies nothing. */
  function Classified(compile: Compile, o: Offer, tx: SpendTx, deposit: Outpoint): Kind {
    match compile(o)
    case None => Indeterminate
    case Some(c) => if c.pkScript != o.swapPkScript then Indeterminate else FirstInput(c, tx.inputs, deposit)
  }

  method ClassifySpend(compile: Compile, o: Offer, tx: SpendTx, deposit: Outpoint) returns (kind: Kind)
    ensures kind == Classified(compile, o, tx, deposit)
  {
    var covenant := compile(o);
    if covenant.None? { return Indeterminate; }
    var c := covenant.value;
    if c.pkScript != o.swapPkScript { return Indeterminate; }
    var i := 0;
    while i < |tx.inputs|
      invariant 0 <= i <= |tx.inputs|
      invariant FirstInput(c, tx.inputs, deposit) == FirstInput(c, tx.inputs[i..], deposit)
    {
      var input := tx.inputs[i];
      if input.outpoint == Some(deposit) {
        var k := 0;
        while k < |input.leaves|
          invariant 0 <= k <= |input.leaves|
          invariant FirstLeaf(c, input.leaves) == FirstLeaf(c, input.leaves[k..])
        {
          if c.cancel == Some(input.leaves[k]) { return Cancelled; }
          if c.fulfill == Some(input.leaves[k]) { return Fulfilled; }
          k := k + 1;
        }
      }
      i := i + 1;
    }
    return Indeterminate;
  }

  function SpendTxids(v: Vtxo): seq<TxId> {
    (if v.spentBy.Some? then [v.spentBy.value] else []) + (if v.arkTxId.Some? then [v.arkTxId.value] else [])
  }

  /** The first definite answer among the halves of the spend that came back. */
  function FirstDefinite(compile: Compile, o: Offer, ids: seq<TxId>, spends: map<TxId, SpendTx>,
      deposit: Outpoint): Kind
  {
    if ids == [] then Indeterminate
    else
      var kind := if ids[0] in spends then Classified(compile, o, spends[ids[0]], deposit) else Indeterminate;
      if kind != Indeterminate then kind else FirstDefinite(compile, o, ids[1..], spends, deposit)
  }

  // ---- What can be said of one offer ----

  type Deposits = map<(Script, TxId), Vtxo>

  predicate Carries(riders: seq<Rider>, a: Asset) { exists r | r in riders :: r.asset == a }

  /** What a scan can say about one offer; `None` leaves it for a later scan. */
  function Resolve(compile: Compile, o: Offer, txid: TxId, deposits: Deposits,
                   spends: map<TxId, SpendTx>): Option<Status>
  {
    if (o.swapPkScript, txid) !in deposits then None
    else
      var v := deposits[(o.swapPkScript, txid)];
      if o.offerAsset.Some? && !Carries(v.riders, o.offerAsset.value) then None
      else match v.state
        case Live => Some(Pending)
        case Swept => Some(Recoverable)
        case SpentState =>
          match FirstDefinite(compile, o, SpendTxids(v), spends, v.outpoint)
          case Indeterminate => None
          case Cancelled => Some(StatusCancelled)
          case Fulfilled => Some(StatusFulfilled)
  }

  // ---- What a record says of a deposit ----

  const BTC: Asset := "btc"

  /** Only a single rider with a positive amount says what was deposited. */
  predicate Unambiguous(riders: seq<Rider>) { |riders| == 1 && riders[0].amount > 0 }

  /** The asset a record gives as deposited: the offer's own word, else an unambiguous rider, else BTC. */
  function FromAsset(o: Offer, v: Vtxo): Asset {
    if o.offerAsset.Some? then o.offerAsset.value
    else if Unambiguous(v.riders) then v.riders[0].asset
    else BTC
  }

  function AmountOf(riders: seq<Rider>, a: Asset): Option<int> {
    if riders == [] then None else if riders[0].asset == a then Some(riders[0].amount) else AmountOf(riders[1..], a)
  }

  function FromAmount(o: Offer, v: Vtxo): Option<int> {
    if FromAsset(o, v) == BTC then Some(v.value) else AmountOf(v.riders, FromAsset(o, v))
  }

  /** Setting a key of a map once for each line keeps the last one. */
  function LastTx(txs: seq<WalletTx>, wanted: WalletTx -> bool): (last: Option<WalletTx>)
    ensures last.Some? ==> last.value in txs && wanted(last.value)
    ensures last.None? ==> forall tx | tx in txs :: !wanted(tx)
  {
    if txs == [] then None
    else if wanted(txs[|txs| - 1]) then Some(txs[|txs| - 1])
    else LastTx(txs[..|txs| - 1], wanted)
  }

  /** The time of the last line that meets `wanted`, in milliseconds, if it has one. */
  function TimeOf(txs: seq<WalletTx>, wanted: WalletTx -> bool): Option<int> {
    var tx := LastTx(txs, wanted);
    if tx.Some? && tx.value.createdAt != 0 then Some(tx.value.createdAt * 1000) else None
  }

  function Funds(t: TxId): WalletTx -> bool { (tx: WalletTx) => tx.sent && tx.redeemTxid == t }

  function Goes(id: TxId): WalletTx -> bool {
    (tx: WalletTx) => id != "" && (tx.boardingTxid == id || tx.redeemTxid == id || tx.roundTxid == id)
  }

  function SpentTxid(v: Vtxo): Option<TxId> {
    if v.state != SpentState then None else if v.arkTxId.Some? then v.arkTxId else v.spentBy
  }

  datatype Sides = Sides(fromAsset: Asset, toAsset: Asset, fromAmount: Option<int>, toAmount: int)

  datatype Times = Times(createdAt: int, completedAt: Option<int>)

  /** What is stored of a swap besides its id. */
  datatype Details = Details(status: Status, offerHex: string, sides: Sides, spentTxid: Option<TxId>, times: Times)

  function SidesOf(o: Offer, v: Vtxo): Sides {
    Sides(FromAsset(o, v), if o.wantAsset.Some? then o.wantAsset.value else BTC, FromAmount(o, v), o.wantAmount)
  }

  /**
   Created when the wallet says it was funded, else when the output was; completed when the wallet
   says the spend was.
   */
  function TimesOf(txs: seq<WalletTx>, t: TxId, v: Vtxo, status: Status): Times {
    var funded := TimeOf(txs, Funds(t));
    var spent := SpentTxid(v);
    Times(if funded.Some? then funded.value else v.createdAt,
          if status == StatusFulfilled && spent.Some? then TimeOf(txs, Goes(spent.value)) else None)
  }

  // ---- One scan ----

  ghost function Candidates(txs: seq<WalletTx>, existing: set<TxId>, scanned: set<TxId>): set<TxId> {
    set tx | tx in txs && tx.sent && tx.redeemTxid != "" && tx.redeemTxid !in existing && tx.redeemTxid !in scanned
      :: tx.redeemTxid
  }

  /** The indexer's answers to one scan: parsed funding txs, deposits (or a failure), parsed spends. */
  datatype Answers = Answers(parsed: map<TxId, Option<Offer>>, deposits: Option<Deposits>, spends: map<TxId, SpendTx>)

  ghost function FoundIn(candidates: set<TxId>, a: Answers): set<TxId> {
    set t | t in candidates && t in a.parsed && a.parsed[t].Some?
  }

  /** What a scan that gets its deposits restores. */
  ghost function Restored(compile: Compile, candidates: set<TxId>, a: Answers): map<TxId, Status>
    requires a.deposits.Some?
  {
    map t | t in FoundIn(candidates, a) && Resolve(compile, a.parsed[t].value, t, a.deposits.value, a.spends).Some?
      :: Resolve(compile, a.parsed[t].value, t, a.deposits.value, a.spends).value
  }

  /** The record built for one found offer, if it resolves. */
  function DetailsFor(compile: Compile, txs: seq<WalletTx>, t: TxId, a: Answers): Option<Details>
    requires a.deposits.Some? && t in a.parsed && a.parsed[t].Some?
  {
    var o := a.parsed[t].value;
    match Resolve(compile, o, t, a.deposits.value, a.spends)
    case None => None
    case Some(status) =>
      var v := a.deposits.value[(o.swapPkScript, t)];
      Some(Details(status, o.offerHex, SidesOf(o, v), SpentTxid(v), TimesOf(txs, t, v, status)))
  }

  ghost function RestoredDetails(compile: Compile, txs: seq<WalletTx>, candidates: set<TxId>,
                                 a: Answers): map<TxId, Details>
    requires a.deposits.Some?
  {
    map t | t in FoundIn(candidates, a) && DetailsFor(compile, txs, t, a).Some? :: DetailsFor(compile, txs, t, a).value
  }

  /** Recorded, with the status it resolves to. */
  lemma RestoredWithDetails(compile: Compile, txs: seq<WalletTx>, candidates: set<TxId>, a: Answers)
    requires a.deposits.Some?
    ensures
      var m, d := Restored(compile, candidates, a), RestoredDetails(compile, txs, candidates, a);
      m.Keys == d.Keys && forall t | t in m :: m[t] == d[t].status
  {
  }

  /** The last line of the history that meets `wanted` has this time, in milliseconds. */
  ghost predicate LastTime(txs: seq<WalletTx>, wanted: WalletTx -> bool, ms: int) {
    exists i | 0 <= i < |txs| && wanted(txs[i]) ::
      ms == txs[i].createdAt * 1000 != 0 && forall j | i < j < |txs| :: !wanted(txs[j])
  }

  lemma {:induction false} LastTxIsLast(txs: seq<WalletTx>, wanted: WalletTx -> bool)
    ensures LastTx(txs, wanted).Some? ==> exists i | 0 <= i < |txs| && wanted(txs[i]) ::
              LastTx(txs, wanted).value == txs[i] && forall j | i < j < |txs| :: !wanted(txs[j])
  {
    if txs != [] && !wanted(txs[|txs| - 1]) { LastTxIsLast(txs[..|txs| - 1], wanted); }
  }

  lemma TimeOfIsLast(txs: seq<WalletTx>, wanted: WalletTx -> bool)
    ensures forall ms :: TimeOf(txs, wanted) == Some(ms) <==> LastTime(txs, wanted, ms)
  {
    LastTxIsLast(txs, wanted);
  }

  /** The rider with this asset that is listed first. */
  ghost predicate FirstRider(riders: seq<Rider>, asset: Asset, amount: int) {
    exists i | 0 <= i < |riders| ::
      riders[i] == Rider(asset, amount) && forall j | 0 <= j < i :: riders[j].asset != asset
  }

  lemma {:induction false} AmountOfIsFirst(riders: seq<Rider>, a: Asset)
    ensures forall n :: AmountOf(riders, a) == Some(n) <==> FirstRider(riders, a, n)
    ensures Carries(riders, a) ==> AmountOf(riders, a).Some?
  {
    if riders != [] && riders[0].asset != a {
      AmountOfIsFirst(riders[1..], a);
      assert forall r | r in riders :: r == riders[0] || r in riders[1..];
      forall n ensures FirstRider(riders[1..], a, n) <==> FirstRider(riders, a, n) {
        if FirstRider(riders[1..], a, n) {
          var i :| 0 <= i < |riders| - 1 && riders[1..][i] == Rider(a, n)
                   && forall j | 0 <= j < i :: riders[1..][j].asset != a;
          assert riders[i + 1] == Rider(a, n);
          assert forall j | 0 < j < i + 1 :: riders[j] == riders[1..][j - 1];
        }
        if FirstRider(riders, a, n) {
          var i :| 0 <= i < |riders| && riders[i] == Rider(a, n) && forall j | 0 <= j < i :: riders[j].asset != a;
          assert riders[1..][i - 1] == Rider(a, n);
        }
      }
    }
  }

  /**
   What a record says of its deposit `v` and its offer, in plain fields: what went in and how much, what
   was wanted for it, what spent it, and when it began and ended by the wallet's own history.
   */
  ghost predicate Says(txs: seq<WalletTx>, t: TxId, o: Offer, v: Vtxo, d: Details) {
    && (o.offerAsset.Some? ==> d.sides.fromAsset == o.offerAsset.value)
    && (o.offerAsset.None? && |v.riders| == 1 && v.riders[0].amount > 0 ==> d.sides.fromAsset == v.riders[0].asset)
    && (o.offerAsset.None? && (|v.riders| != 1 || v.riders[0].amount <= 0) ==> d.sides.fromAsset == "btc")
    && d.sides.fromAmount.Some?
    && (if d.sides.fromAsset == "btc" then d.sides.fromAmount.value == v.value
        else FirstRider(v.riders, d.sides.fromAsset, d.sides.fromAmount.value))
    && d.sides.toAsset == (match o.wantAsset case Some(a) => a case None => "btc") && d.sides.toAmount == o.wantAmount
    && d.offerHex == o.offerHex
    && d.spentTxid == (if v.state != SpentState then None else if v.arkTxId.Some? then v.arkTxId else v.spentBy)
    && (d.spentTxid.Some? <==> v.state == SpentState)
    && Began(txs, t, v, d.times.createdAt) && Ended(txs, d)
  }

  /** The wallet's last line that funded it, unless that line has no time; then the output's own. */
  ghost predicate Began(txs: seq<WalletTx>, t: TxId, v: Vtxo, createdAt: int) {
    var funds := (tx: WalletTx) => tx.sent && tx.redeemTxid == t;
    LastTime(txs, funds, createdAt) || (createdAt == v.createdAt && forall ms :: !LastTime(txs, funds, ms))
  }

  /** A fulfilled swap is completed when the wallet's last line with the spend's id says, under any of its three ids. */
  ghost predicate Ended(txs: seq<WalletTx>, d: Details) {
    forall ms :: d.times.completedAt == Some(ms) <==>
      d.status == StatusFulfilled && d.spentTxid.Some? && d.spentTxid.value != "" &&
      var id := d.spentTxid.value;
      LastTime(txs, (tx: WalletTx) => tx.boardingTxid == id || tx.redeemTxid == id || tx.roundTxid == id, ms)
  }

  lemma {:induction false} LastTxSame(txs: seq<WalletTx>, p: WalletTx -> bool, q: WalletTx -> bool)
    requires forall tx :: p(tx) == q(tx)
    ensures LastTx(txs, p) == LastTx(txs, q)
  {
    if txs != [] && !p(txs[|txs| - 1]) { LastTxSame(txs[..|txs| - 1], p, q); }
  }

  lemma TimesSay(compile: Compile, txs: seq<WalletTx>, t: TxId, a: Answers)
    requires a.deposits.Some? && t in a.parsed && a.parsed[t].Some? && DetailsFor(compile, txs, t, a).Some?
    ensures
      var d := DetailsFor(compile, txs, t, a).value;
      Began(txs, t, a.deposits.value[(a.parsed[t].value.swapPkScript, t)], d.times.createdAt) && Ended(txs, d)
  {
    var d := DetailsFor(compile, txs, t, a).value;
    var funds := (tx: WalletTx) => tx.sent && tx.redeemTxid == t;
    LastTxSame(txs, Funds(t), funds);
    TimeOfIsLast(txs, funds);
    if d.spentTxid.Some? && d.spentTxid.value != "" {
      var id := d.spentTxid.value;
      var goes := (tx: WalletTx) => tx.boardingTxid == id || tx.redeemTxid == id || tx.roundTxid == id;
      LastTxSame(txs, Goes(id), goes);
      TimeOfIsLast(txs, goes);
    }
  }

  /** Every record a scan builds says of its deposit what the plain reading does. */
  lemma RecordSays(compile: Compile, txs: seq<WalletTx>, t: TxId, a: Answers)
    requires a.deposits.Some? && t in a.parsed && a.parsed[t].Some? && DetailsFor(compile, txs, t, a).Some?
    ensures (a.parsed[t].value.swapPkScript, t) in a.deposits.value
    ensures
      var o := a.parsed[t].value;
      Says(txs, t, o, a.deposits.value[(o.swapPkScript, t)], DetailsFor(compile, txs, t, a).value)
  {
    var o := a.parsed[t].value;
    var v := a.deposits.value[(o.swapPkScript, t)];
    TimesSay(compile, txs, t, a);
    AmountOfIsFirst(v.riders, FromAsset(o, v));
  }

  datatype Record = Record(id: TxId, details: Details)

  ghost predicate Lists(records: seq<Record>, m: map<TxId, Details>) {
    && (forall i, j | 0 <= i < j < |records| :: records[i].id != records[j].id)
    && (forall r | r in records :: r.id in m && m[r.id] == r.details)
    && (forall t | t in m :: Record(t, m[t]) in records)
  }

  /** Every record is of an offer found and its deposit, and says of them what the plain reading does. */
  ghost predicate AllSay(txs: seq<WalletTx>, a: Answers, records: seq<Record>)
    requires a.deposits.Some?
  {
    forall r | r in records ::
      && r.id in a.parsed && a.parsed[r.id].Some?
      && (a.parsed[r.id].value.swapPkScript, r.id) in a.deposits.value
      && var o := a.parsed[r.id].value;
         Says(txs, r.id, o, a.deposits.value[(o.swapPkScript, r.id)], r.details)
  }

  lemma ListedSay(compile: Compile, txs: seq<WalletTx>, candidates: set<TxId>, a: Answers, records: seq<Record>)
    requires a.deposits.Some? && Lists(records, RestoredDetails(compile, txs, candidates, a))
    ensures AllSay(txs, a, records)
  {
    forall r | r in records
      ensures r.id in a.parsed && a.parsed[r.id].Some? && (a.parsed[r.id].value.swapPkScript, r.id) in a.deposits.value
      ensures
        var o := a.parsed[r.id].value;
        Says(txs, r.id, o, a.deposits.value[(o.swapPkScript, r.id)], r.details)
    {
      RecordSays(compile, txs, r.id, a);
    }
  }

  method UnscannedSwapCandidates(txs: seq<WalletTx>, existing: set<TxId>, scanned: set<TxId>) returns (c: set<TxId>)
    ensures c == Candidates(txs, existing, scanned)
  {
    c := {};
    var i := 0;
    while i < |txs|
      invariant 0 <= i <= |txs|
      invariant c == Candidates(txs[..i], existing, scanned)
    {
      assert txs[..i + 1] == txs[..i] + [txs[i]];
      var id := txs[i].redeemTxid;
      if txs[i].sent && id != "" && id !in existing && id !in scanned { c := c + {id}; }
      i := i + 1;
    }
    assert txs[..i] == txs;
  }

  /** The scan itself; `None` when the deposit lookup fails and the whole batch is left for later. */
  method RestoreAssetSwaps(compile: Compile, txs: seq<WalletTx>, existing: set<TxId>, scanned: set<TxId>, a: Answers)
    returns (r: Option<(seq<Record>, set<TxId>)>)
    ensures
      var c := Candidates(txs, existing, scanned);
      var fetched := c * a.parsed.Keys;
      if FoundIn(c, a) == {} then r == Some(([], fetched))
      else if a.deposits.None? then r == None
      else
        var m := RestoredDetails(compile, txs, c, a);
        && r.Some? && Lists(r.value.0, m) && r.value.1 == fetched - (FoundIn(c, a) - m.Keys)
        && AllSay(txs, a, r.value.0)
  {
    var candidates := UnscannedSwapCandidates(txs, existing, scanned);
    var fetched := candidates * a.parsed.Keys;
    var found := set t | t in fetched && a.parsed[t].Some?;
    assert found == FoundIn(candidates, a);
    if found == {} { return Some(([], fetched)); }
    if a.deposits.None? { return None; }
    var restored, unresolved := RestoreEach(compile, txs, found, a, RestoredDetails(compile, txs, candidates, a));
    ListedSay(compile, txs, candidates, a, restored);
    return Some((restored, fetched - unresolved));
  }

  /** The loop over the offers found, in any order. */
  method RestoreEach(compile: Compile, txs: seq<WalletTx>, found: set<TxId>, a: Answers, ghost m: map<TxId, Details>)
    returns (restored: seq<Record>, unresolved: set<TxId>)
    requires a.deposits.Some? && m.Keys <= found && forall t | t in found :: t in a.parsed && a.parsed[t].Some?
    requires forall t | t in found :: DetailsFor(compile, txs, t, a) == if t in m then Some(m[t]) else None
    ensures Lists(restored, m) && unresolved == found - m.Keys
  {
    restored, unresolved := [], {};
    var todo := found;
    while todo != {}
      invariant todo <= found && unresolved == (found - todo) - m.Keys
      invariant Lists(restored, Without(m, todo))
      decreases todo
    {
      var t :| t in todo;
      var details := DetailsFor(compile, txs, t, a);
      if details.None? {
        unresolved := unresolved + {t};
        assert Without(m, todo - {t}) == Without(m, todo);
      } else {
        ListsOneMore(restored, m, todo, t);
        restored := restored + [Record(t, details.value)];
      }
      todo := todo - {t};
    }
    assert Without(m, {}) == m;
  }

  ghost function Without(m: map<TxId, Details>, todo: set<TxId>): map<TxId, Details> {
    map t | t in m && t !in todo :: m[t]
  }

  lemma ListsOneMore(records: seq<Record>, m: map<TxId, Details>, todo: set<TxId>, t: TxId)
    requires Lists(records, Without(m, todo)) && t in todo && t in m
    ensures Lists(records + [Record(t, m[t])], Without(m, todo - {t}))
  {
    var after := Without(m, todo - {t});
    var more := records + [Record(t, m[t])];
    forall i, j | 0 <= i < j < |more| ensures more[i].id != more[j].id {
      assert records[i] in records;
    }
    assert more[|records|] == Record(t, m[t]);
    forall u | u in after ensures Record(u, after[u]) in more {
      if u != t { assert u in Without(m, todo); }
    }
  }

  // ---- The chain, and answers that are partial but true ----

  datatype World = World(offers: map<TxId, Option<Offer>>, deposits: Deposits, spends: map<TxId, SpendTx>)

  /** An outpoint is spent by one input of one transaction: of a spend's two halves only one touches the deposit. */
  ghost predicate Consistent(w: World) {
    forall x, y, i, j, o | x in w.spends && y in w.spends && i in w.spends[x].inputs && j in w.spends[y].inputs
                           && i.outpoint == Some(o) && j.outpoint == Some(o) :: x == y && i == j
  }

  /** The true transaction by its id; tap leaves are no part of it, and an input's may be missing. */
  predicate PartOfTx(tx: SpendTx, full: SpendTx) {
    && |tx.inputs| == |full.inputs|
    && forall k | 0 <= k < |tx.inputs| ::
         && tx.inputs[k].outpoint == full.inputs[k].outpoint
         && (tx.inputs[k].leaves == [] || tx.inputs[k].leaves == full.inputs[k].leaves)
  }

  predicate OneEach(riders: seq<Rider>) { forall i, j | 0 <= i < j < |riders| :: riders[i].asset != riders[j].asset }

  /** `v` is `full` with some of its riders and spend ids not attached yet. */
  ghost predicate PartOf(v: Vtxo, full: Vtxo) {
    && v.(riders := full.riders, spentBy := full.spentBy, arkTxId := full.arkTxId) == full
    && (v.spentBy.Some? ==> v.spentBy == full.spentBy) && (v.arkTxId.Some? ==> v.arkTxId == full.arkTxId)
    && (forall r | r in v.riders :: r in full.riders)
    && OneEach(v.riders) && OneEach(full.riders)
  }

  /** Every answer is a part of the truth; riders and spend ids may be attached late. */
  ghost predicate Truthful(w: World, a: Answers) {
    && (forall t | t in a.parsed :: t in w.offers && w.offers[t] == a.parsed[t])
    && (forall t | t in a.spends :: t in w.spends && PartOfTx(a.spends[t], w.spends[t]))
    && (a.deposits.Some? ==> forall k | k in a.deposits.value ::
          k in w.deposits && PartOf(a.deposits.value[k], w.deposits[k]))
  }

  function Everything(w: World): Answers { Answers(w.offers, Some(w.deposits), w.spends) }

  /** The status the chain dictates for a funding txid, if it dictates one. */
  function TrueStatus(compile: Compile, w: World, t: TxId): Option<Status> {
    if t !in w.offers || w.offers[t].None? then None
    else Resolve(compile, w.offers[t].value, t, w.deposits, w.spends)
  }

  lemma {:induction false} DefiniteInputTouches(c: Covenant, inputs: seq<SpendInput>, deposit: Outpoint)
    requires FirstInput(c, inputs, deposit) != Indeterminate
    ensures exists i | i in inputs :: i.outpoint == Some(deposit)
  {
    if inputs[0].outpoint == Some(deposit) {
      assert inputs[0] in inputs;
    } else {
      DefiniteInputTouches(c, inputs[1..], deposit);
      var i :| i in inputs[1..] && i.outpoint == Some(deposit);
      assert i in inputs;
    }
  }

  /** The transaction a definite answer came from. */
  lemma {:induction false} Decider(compile: Compile, o: Offer, ids: seq<TxId>, part: map<TxId, SpendTx>,
      deposit: Outpoint)
    returns (x: TxId)
    requires FirstDefinite(compile, o, ids, part, deposit) != Indeterminate
    ensures x in part && Classified(compile, o, part[x], deposit) == FirstDefinite(compile, o, ids, part, deposit)
    ensures compile(o).Some?
    ensures x in ids
  {
    if ids[0] in part && Classified(compile, o, part[ids[0]], deposit) != Indeterminate {
      x := ids[0];
    } else {
      x := Decider(compile, o, ids[1..], part, deposit);
    }
  }

  /** One of the named transactions takes the deposit, so its answer is the answer. */
  lemma {:induction false} OnlySpender(compile: Compile, w: World, o: Offer, ids: seq<TxId>, deposit: Outpoint,
      x: TxId, input: SpendInput)
    requires Consistent(w) && x in ids && x in w.spends && input in w.spends[x].inputs
        && input.outpoint == Some(deposit)
    ensures FirstDefinite(compile, o, ids, w.spends, deposit) == Classified(compile, o, w.spends[x], deposit)
  {
    var id := ids[0];
    if id in w.spends && id != x && Classified(compile, o, w.spends[id], deposit) != Indeterminate {
      DefiniteInputTouches(compile(o).value, w.spends[id].inputs, deposit);
    }
    if x in ids[1..] {
      OnlySpender(compile, w, o, ids[1..], deposit, x, input);
    } else if FirstDefinite(compile, o, ids[1..], w.spends, deposit) != Indeterminate {
      var y := Decider(compile, o, ids[1..], w.spends, deposit);
      DefiniteInputTouches(compile(o).value, w.spends[y].inputs, deposit);
    }
  }

  lemma {:induction false} OnlyInput(c: Covenant, inputs: seq<SpendInput>, deposit: Outpoint, input: SpendInput)
    requires input in inputs && input.outpoint == Some(deposit)
    requires forall j | j in inputs && j.outpoint == Some(deposit) :: j == input
    ensures FirstInput(c, inputs, deposit) == FirstLeaf(c, input.leaves)
  {
    if input !in inputs[1..] {
      assert inputs[0] == input;
      if FirstInput(c, inputs[1..], deposit) != Indeterminate { DefiniteInputTouches(c, inputs[1..], deposit); }
    } else {
      OnlyInput(c, inputs[1..], deposit, input);
      assert inputs[0] in inputs;
    }
  }

  /** A definite answer from a transaction with leaves missing is the whole transaction's answer. */
  lemma PartClassifies(compile: Compile, w: World, o: Offer, tx: SpendTx, x: TxId, deposit: Outpoint)
    returns (input: SpendInput)
    requires Consistent(w) && x in w.spends && PartOfTx(tx, w.spends[x])
    requires Classified(compile, o, tx, deposit) != Indeterminate
    ensures input in w.spends[x].inputs && input.outpoint == Some(deposit)
    ensures Classified(compile, o, w.spends[x], deposit) == Classified(compile, o, tx, deposit)
  {
    var c, full := compile(o).value, w.spends[x];
    var k := DefiniteInput(c, tx.inputs, deposit);
    input := full.inputs[k];
    assert input in full.inputs;
    OnlyInput(c, full.inputs, deposit, input);
  }

  /** The input a definite answer came from. */
  lemma {:induction false} DefiniteInput(c: Covenant, inputs: seq<SpendInput>, deposit: Outpoint) returns (k: nat)
    requires FirstInput(c, inputs, deposit) != Indeterminate
    ensures k < |inputs| && inputs[k].outpoint == Some(deposit)
    ensures FirstLeaf(c, inputs[k].leaves) == FirstInput(c, inputs, deposit)
  {
    if inputs[0].outpoint == Some(deposit) && FirstLeaf(c, inputs[0].leaves) != Indeterminate {
      k := 0;
    } else {
      k := DefiniteInput(c, inputs[1..], deposit);
      k := k + 1;
    }
  }

  /** A definite answer from some of the ids and spends is the answer from all of them. */
  lemma PartialSpendsAgree(compile: Compile, w: World, o: Offer, ids: seq<TxId>, all: seq<TxId>,
                           part: map<TxId, SpendTx>, deposit: Outpoint)
    requires Consistent(w) && forall id | id in ids :: id in all
    requires forall t | t in part :: t in w.spends && PartOfTx(part[t], w.spends[t])
    requires FirstDefinite(compile, o, ids, part, deposit) != Indeterminate
    ensures FirstDefinite(compile, o, all, w.spends, deposit) == FirstDefinite(compile, o, ids, part, deposit)
  {
    var x := Decider(compile, o, ids, part, deposit);
    var input := PartClassifies(compile, w, o, part[x], x, deposit);
    OnlySpender(compile, w, o, all, deposit, x, input);
  }

  /** Whatever a scan can say from true answers is what the chain dictates. */
  lemma ResolvedIsTrue(compile: Compile, w: World, a: Answers, t: TxId)
    requires Consistent(w) && Truthful(w, a) && a.deposits.Some?
    requires t in a.parsed && a.parsed[t].Some?
    requires Resolve(compile, a.parsed[t].value, t, a.deposits.value, a.spends).Some?
    ensures TrueStatus(compile, w, t) == Resolve(compile, a.parsed[t].value, t, a.deposits.value, a.spends)
  {
    var o := a.parsed[t].value;
    var v := a.deposits.value[(o.swapPkScript, t)];
    var full := w.deposits[(o.swapPkScript, t)];
    assert v.outpoint == full.outpoint && v.state == full.state;
    if v.state == SpentState {
      PartialSpendsAgree(compile, w, o, SpendTxids(v), SpendTxids(full), a.spends, v.outpoint);
    }
  }

  // ---- What the chain dictates ----

  /** An outpoint is spent by one input of a transaction, and an input reveals at most one leaf. */
  ghost predicate WellFormedTx(tx: SpendTx) {
    && (forall i, j | i in tx.inputs && j in tx.inputs && i.outpoint.Some? && i.outpoint == j.outpoint :: i == j)
    && (forall i | i in tx.inputs :: |i.leaves| <= 1)
  }

  ghost predicate WellFormed(w: World) { forall x | x in w.spends :: WellFormedTx(w.spends[x]) }

  /** Transaction `x`, named for the deposit's spend, takes it with `input` through `leaf`. */
  ghost predicate TakenBy(w: World, v: Vtxo, leaf: Leaf, x: TxId, input: SpendInput) {
    && (v.spentBy == Some(x) || v.arkTxId == Some(x)) && x in w.spends && input in w.spends[x].inputs
    && input.outpoint == Some(v.outpoint) && input.leaves == [leaf]
  }

  ghost predicate Took(w: World, v: Vtxo, leaf: Option<Leaf>) {
    leaf.Some? && exists x, input :: TakenBy(w, v, leaf.value, x, input)
  }

  lemma OneLeaf(c: Covenant, leaf: Leaf)
    ensures FirstLeaf(c, [leaf]) == LeafKind(c, leaf)
  {
    assert [leaf][1..] == [];
  }

  lemma ClassifiedByLeaf(compile: Compile, o: Offer, tx: SpendTx, deposit: Outpoint, c: Covenant, input: SpendInput)
    requires compile(o) == Some(c) && c.pkScript == o.swapPkScript && WellFormedTx(tx) && input in tx.inputs
        && input.outpoint == Some(deposit)
    ensures Classified(compile, o, tx, deposit) == if input.leaves == [] then Indeterminate
        else LeafKind(c, input.leaves[0])
  {
    OnlyInput(c, tx.inputs, deposit, input);
    if input.leaves != [] {
      OneLeaf(c, input.leaves[0]);
      assert input.leaves == [input.leaves[0]];
    }
  }

  lemma TookDecides(compile: Compile, w: World, o: Offer, v: Vtxo, c: Covenant, leaf: Leaf)
    requires Consistent(w) && WellFormed(w) && compile(o) == Some(c) && c.pkScript == o.swapPkScript
        && Took(w, v, Some(leaf))
    ensures FirstDefinite(compile, o, SpendTxids(v), w.spends, v.outpoint) == LeafKind(c, leaf)
  {
    var x, i :| TakenBy(w, v, leaf, x, i);
    OnlySpender(compile, w, o, SpendTxids(v), v.outpoint, x, i);
    ClassifiedByLeaf(compile, o, w.spends[x], v.outpoint, c, i);
  }

  lemma ClassifiedWasTaken(compile: Compile, o: Offer, tx: SpendTx, deposit: Outpoint, c: Covenant)
      returns (input: SpendInput, leaf: Leaf)
    requires compile(o) == Some(c) && WellFormedTx(tx) && Classified(compile, o, tx, deposit) != Indeterminate
    ensures c.pkScript == o.swapPkScript && input in tx.inputs && input.outpoint == Some(deposit)
        && input.leaves == [leaf]
    ensures LeafKind(c, leaf) == Classified(compile, o, tx, deposit)
  {
    DefiniteInputTouches(c, tx.inputs, deposit);
    input :| input in tx.inputs && input.outpoint == Some(deposit);
    ClassifiedByLeaf(compile, o, tx, deposit, c, input);
    leaf := input.leaves[0];
  }

  /** A definite answer comes from a leaf that was really taken. */
  lemma DefiniteWasTaken(compile: Compile, w: World, o: Offer, v: Vtxo, c: Covenant) returns (leaf: Leaf)
    requires WellFormed(w) && compile(o) == Some(c)
    requires FirstDefinite(compile, o, SpendTxids(v), w.spends, v.outpoint) != Indeterminate
    ensures c.pkScript == o.swapPkScript && Took(w, v, Some(leaf))
    ensures LeafKind(c, leaf) == FirstDefinite(compile, o, SpendTxids(v), w.spends, v.outpoint)
  {
    var x := Decider(compile, o, SpendTxids(v), w.spends, v.outpoint);
    var input;
    input, leaf := ClassifiedWasTaken(compile, o, w.spends[x], v.outpoint, c);
    assert TakenBy(w, v, leaf, x, input);
  }

  /**
   The status the chain dictates for a funded offer whose deposit carries what the offer says:
   by the state of the deposit, and for a spent one by the leaf that was taken and nothing else.
   */
  lemma StatusDictated(compile: Compile, w: World, t: TxId, o: Offer, c: Covenant, v: Vtxo)
    requires Consistent(w) && WellFormed(w) && t in w.offers && w.offers[t] == Some(o)
    requires compile(o) == Some(c) && c.pkScript == o.swapPkScript && (c.cancel.Some? ==> c.cancel != c.fulfill)
    requires (o.swapPkScript, t) in w.deposits && w.deposits[(o.swapPkScript, t)] == v
    requires o.offerAsset.Some? ==> Carries(v.riders, o.offerAsset.value)
    ensures TrueStatus(compile, w, t) == Some(Pending) <==> v.state == Live
    ensures TrueStatus(compile, w, t) == Some(Recoverable) <==> v.state == Swept
    ensures TrueStatus(compile, w, t) == Some(StatusCancelled) <==> v.state == SpentState && Took(w, v, c.cancel)
    ensures TrueStatus(compile, w, t) == Some(StatusFulfilled) <==> v.state == SpentState && Took(w, v, c.fulfill)
  {
    if v.state == SpentState { SpendDictates(compile, w, o, c, v); }
  }

  lemma SpendDictates(compile: Compile, w: World, o: Offer, c: Covenant, v: Vtxo)
    requires Consistent(w) && WellFormed(w) && compile(o) == Some(c) && c.pkScript == o.swapPkScript
        && (c.cancel.Some? ==> c.cancel != c.fulfill)
    ensures FirstDefinite(compile, o, SpendTxids(v), w.spends, v.outpoint) == Cancelled <==> Took(w, v, c.cancel)
    ensures FirstDefinite(compile, o, SpendTxids(v), w.spends, v.outpoint) == Fulfilled <==> Took(w, v, c.fulfill)
  {
    if Took(w, v, c.cancel) { TookDecides(compile, w, o, v, c, c.cancel.value); }
    if Took(w, v, c.fulfill) { TookDecides(compile, w, o, v, c, c.fulfill.value); }
    if FirstDefinite(compile, o, SpendTxids(v), w.spends, v.outpoint) != Indeterminate {
      var leaf := DefiniteWasTaken(compile, w, o, v, c);
      assert c.cancel == Some(leaf) || c.fulfill == Some(leaf);
    }
  }

  // ---- When that is what the deposit was ----

  lemma {:induction false} AmountIs(riders: seq<Rider>, r: Rider)
    requires OneEach(riders) && r in riders
    ensures AmountOf(riders, r.asset) == Some(r.amount)
  {
    if riders[0] != r {
      assert r in riders[1..];
      AmountIs(riders[1..], r);
    }
  }

  /** Rider lists that read differently: the only rider is missing, or all but one are. */
  predicate Misleading(part: seq<Rider>, full: seq<Rider>) {
    (Unambiguous(full) && part == []) || (|full| > 1 && Unambiguous(part))
  }

  lemma AllTheOne(part: seq<Rider>, full: seq<Rider>)
    requires |full| == 1 && forall r | r in part :: r in full
    ensures forall i | 0 <= i < |part| :: part[i] == full[0]
    ensures |part| > 1 ==> part[0].asset == part[1].asset
  {
    assert forall i | 0 <= i < |part| :: part[i] in part;
  }

  lemma PartReads(o: Offer, v: Vtxo, full: Vtxo)
    requires PartOf(v, full) && o.offerAsset.None? && !Misleading(v.riders, full.riders)
    ensures FromAsset(o, v) == FromAsset(o, full) && FromAmount(o, v) == FromAmount(o, full)
  {
    if v.riders != [] {
      assert v.riders[0] in v.riders;
      if |full.riders| == 1 {
        AllTheOne(v.riders, full.riders);
        assert v.riders == full.riders;
      }
    }
  }

  lemma MisleadingMisreads(o: Offer, v: Vtxo, full: Vtxo)
    requires PartOf(v, full) && o.offerAsset.None? && Misleading(v.riders, full.riders)
    requires forall r | r in full.riders :: r.asset != BTC
    ensures FromAsset(o, v) != FromAsset(o, full)
  {
    if Unambiguous(full.riders) { assert full.riders[0] in full.riders; } else { assert v.riders[0] in v.riders; }
  }

  /**
   The deposit a record names is the chain's, exactly when the offer names its deposit asset itself
   or the riders attached so far do not mislead; the code records it either way, once and for all.
   */
  lemma DepositReadIff(o: Offer, v: Vtxo, full: Vtxo)
    requires PartOf(v, full) && (o.offerAsset.Some? ==> Carries(v.riders, o.offerAsset.value))
    requires forall r | r in full.riders :: r.asset != BTC
    ensures FromAsset(o, v) == FromAsset(o, full) && FromAmount(o, v) == FromAmount(o, full)
       <==> o.offerAsset.Some? || !Misleading(v.riders, full.riders)
  {
    if o.offerAsset.Some? {
      var r :| r in v.riders && r.asset == o.offerAsset.value;
      AmountIs(v.riders, r);
      AmountIs(full.riders, r);
    } else if Misleading(v.riders, full.riders) {
      MisleadingMisreads(o, v, full);
    } else {
      PartReads(o, v, full);
    }
  }

  /** Such a reading: the one rider of a want-asset offer's deposit is not attached yet. */
  lemma LateRiderReadsAsBtc(o: Offer, full: Vtxo, a: Asset, n: int)
    requires o.offerAsset.None? && full.riders == [Rider(a, n)] && n > 0 && a != BTC
    ensures PartOf(full.(riders := []), full)
    ensures FromAsset(o, full.(riders := [])) == BTC && FromAsset(o, full) == a
  {
  }

  // ---- Any number of scans ----

  /** What the wallet keeps between scans. */
  datatype Kept = Kept(stored: map<TxId, Status>, scanned: set<TxId>)

  datatype Scan = Scan(txs: seq<WalletTx>, answers: Answers)

  ghost function AfterScan(compile: Compile, k: Kept, s: Scan): Kept {
    var c := Candidates(s.txs, k.stored.Keys, k.scanned);
    var found := FoundIn(c, s.answers);
    var fetched := c * s.answers.parsed.Keys;
    if found == {} then k.(scanned := k.scanned + fetched)
    else if s.answers.deposits.None? then k
    else
      var m := Restored(compile, c, s.answers);
      Kept(k.stored + m, k.scanned + (fetched - (found - m.Keys)))
  }

  ghost function AfterScans(compile: Compile, k: Kept, scans: seq<Scan>): Kept {
    if scans == [] then k
    else AfterScan(compile, AfterScans(compile, k, scans[..|scans| - 1]), scans[|scans| - 1])
  }

  /** Records carry the chain's own status, and an offer is put aside only once it is on record. */
  ghost predicate Sound(compile: Compile, w: World, k: Kept) {
    && (forall t | t in k.stored :: TrueStatus(compile, w, t) == Some(k.stored[t]))
    && (forall t | t in k.scanned && t in w.offers && w.offers[t].Some? :: t in k.stored)
  }

  lemma ScanKeepsSound(compile: Compile, w: World, k: Kept, s: Scan)
    requires Consistent(w) && Sound(compile, w, k) && Truthful(w, s.answers)
    ensures Sound(compile, w, AfterScan(compile, k, s))
    ensures var after := AfterScan(compile, k, s).stored;
            forall t | t in k.stored :: t in after && after[t] == k.stored[t]
  {
    var c := Candidates(s.txs, k.stored.Keys, k.scanned);
    var found := FoundIn(c, s.answers);
    if found != {} && s.answers.deposits.Some? {
      var m := Restored(compile, c, s.answers);
      forall t | t in m ensures TrueStatus(compile, w, t) == Some(m[t]) {
        ResolvedIsTrue(compile, w, s.answers, t);
      }
      assert forall t | t in m :: t !in k.stored;
    }
    var after := AfterScan(compile, k, s);
    forall t | t in after.scanned && t in w.offers && w.offers[t].Some? ensures t in after.stored {
      if t !in k.scanned {
        assert t in c && t in s.answers.parsed && s.answers.parsed[t] == w.offers[t];
        assert t in found;
      }
    }
  }

  lemma {:induction false} ScansKeepSound(compile: Compile, w: World, scans: seq<Scan>)
    requires Consistent(w) && forall s | s in scans :: Truthful(w, s.answers)
    ensures Sound(compile, w, AfterScans(compile, Kept(map[], {}), scans))
  {
    if scans != [] {
      var front := scans[..|scans| - 1];
      assert scans[|scans| - 1] in scans && forall s | s in front :: s in scans;
      ScansKeepSound(compile, w, front);
      ScanKeepsSound(compile, w, AfterScans(compile, Kept(map[], {}), front), scans[|scans| - 1]);
    }
  }

  /**
   After any scans, every stored status is the one the chain dictates, and every sent txid that
   carries an offer is on record or still a candidate of the next scan.
   */
  lemma NothingIsLost(compile: Compile, w: World, scans: seq<Scan>, txs: seq<WalletTx>, tx: WalletTx)
    requires Consistent(w) && forall s | s in scans :: Truthful(w, s.answers)
    requires tx in txs && tx.sent && tx.redeemTxid != "" && tx.redeemTxid in w.offers && w.offers[tx.redeemTxid].Some?
    ensures
      var k := AfterScans(compile, Kept(map[], {}), scans);
      if tx.redeemTxid in k.stored then TrueStatus(compile, w, tx.redeemTxid) == Some(k.stored[tx.redeemTxid])
      else tx.redeemTxid in Candidates(txs, k.stored.Keys, k.scanned)
  {
    ScansKeepSound(compile, w, scans);
  }

  /** No scan restores an id that is already on record. */
  lemma NeverRestoredTwice(compile: Compile, k: Kept, s: Scan)
    requires s.answers.deposits.Some?
    ensures Restored(compile, Candidates(s.txs, k.stored.Keys, k.scanned), s.answers).Keys !! k.stored.Keys
  {
  }

  /**
   Once a scan gets every answer, the record is what one full scan of the same history from
   nothing would have produced, however the earlier scans went.
   */
  lemma CompleteScanConverges(compile: Compile, w: World, scans: seq<Scan>, txs: seq<WalletTx>)
    requires Consistent(w) && forall s | s in scans :: Truthful(w, s.answers)
    requires forall s, tx | s in scans && tx in s.txs :: tx in txs
    ensures
      var k := AfterScans(compile, Kept(map[], {}), scans);
      AfterScan(compile, k, Scan(txs, Everything(w))).stored
        == AfterScan(compile, Kept(map[], {}), Scan(txs, Everything(w))).stored
  {
    ScansKeepSound(compile, w, scans);
    StoredWereSent(compile, scans, txs);
    FullScanContents(compile, w, AfterScans(compile, Kept(map[], {}), scans), txs);
    FullScanContents(compile, w, Kept(map[], {}), txs);
    var full := Scan(txs, Everything(w));
    FullRecordUnique(compile, w, txs, AfterScan(compile, AfterScans(compile, Kept(map[], {}), scans), full).stored,
                     AfterScan(compile, Kept(map[], {}), full).stored);
  }

  /** Exactly the sent txids whose status the chain dictates, each with that status. */
  ghost predicate FullRecord(compile: Compile, w: World, txs: seq<WalletTx>, m: map<TxId, Status>) {
    && (forall t :: t in m <==> SentIn(txs, t) && TrueStatus(compile, w, t).Some?)
    && (forall t | t in m :: TrueStatus(compile, w, t) == Some(m[t]))
  }

  lemma FullRecordUnique(compile: Compile, w: World, txs: seq<WalletTx>, a: map<TxId, Status>, b: map<TxId, Status>)
    requires FullRecord(compile, w, txs, a) && FullRecord(compile, w, txs, b)
    ensures a == b
  {
    forall t ensures t in a <==> t in b { }
    forall t | t in a ensures a[t] == b[t] { }
  }

  ghost predicate SentIn(txs: seq<WalletTx>, t: TxId) {
    t != "" && exists tx | tx in txs :: tx.sent && tx.redeemTxid == t
  }

  lemma {:induction false} StoredWereSent(compile: Compile, scans: seq<Scan>, txs: seq<WalletTx>)
    requires forall s, tx | s in scans && tx in s.txs :: tx in txs
    ensures forall t | t in AfterScans(compile, Kept(map[], {}), scans).stored :: SentIn(txs, t)
  {
    if scans != [] {
      var front := scans[..|scans| - 1];
      assert scans[|scans| - 1] in scans && forall s | s in front :: s in scans;
      StoredWereSent(compile, front, txs);
    }
  }

  lemma FullScanContents(compile: Compile, w: World, k: Kept, txs: seq<WalletTx>)
    requires Sound(compile, w, k) && forall t | t in k.stored :: SentIn(txs, t)
    ensures FullRecord(compile, w, txs, AfterScan(compile, k, Scan(txs, Everything(w))).stored)
  {
    var c := Candidates(txs, k.stored.Keys, k.scanned);
    forall t | SentIn(txs, t) && TrueStatus(compile, w, t).Some? && t !in k.stored ensures t in c {
      var tx :| tx in txs && tx.sent && tx.redeemTxid == t;
    }
    forall t | t in c ensures SentIn(txs, t) { }
    var m := AfterScan(compile, k, Scan(txs, Everything(w))).stored;
    forall t ensures t in m <==> SentIn(txs, t) && TrueStatus(compile, w, t).Some? {
      if t in k.stored {
        assert TrueStatus(compile, w, t).Some?;
      } else if t in c && TrueStatus(compile, w, t).Some? {
        assert t in FoundIn(c, Everything(w)) && t in Restored(compile, c, Everything(w));
      }
    }
  }
}
