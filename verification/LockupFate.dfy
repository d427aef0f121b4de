/**
 What became of a swap lockup, read off the indexer's answers alone. `ReadLockupFate` is the
 source's two loops; `Fits` says what its answer means in terms of which outputs and transactions
 were listed, not of their order, and the theorems hold it against the chain's truth.
 */
module LockupFate {
  import opened Common

  type TxId = string
  type bytes = seq<int>

  datatype Outpoint = Outpoint(txid: TxId, vout: nat)

  /** `spentBy` is empty on the wire when there is nothing to name; `None` here. */
  datatype Vtxo = Vtxo(
    outpoint: Outpoint, isSpent: bool, spentBy: Option<TxId>, settledBy: Option<TxId>, arkTxId: Option<TxId>)

  /** `items` are the condition witness and the final script witness of the input, as one list. */
  datatype Input = Input(outpoint: Option<Outpoint>, items: seq<bytes>)

  datatype Tx = Tx(id: TxId, inputs: seq<Input>)

  datatype Fate =
    | Open
    | Claimed(preimage: bytes, spends: map<TxId, Option<TxId>>)
    | Returned(spends: map<TxId, Option<TxId>>)
    | Unknown

  predicate Spent(v: Vtxo) { v.isSpent || v.spentBy.Some? || v.settledBy.Some? }

  predicate Listed(vtxos: seq<Vtxo>, o: Option<Outpoint>) {
    o.Some? && exists v | v in vtxos :: v.outpoint == o.value
  }

  // ---- What an answer means ----

  /** Some field of every output says it was spent: the flag, or either transaction that did it. */
  ghost predicate AllSpent(vtxos: seq<Vtxo>) {
    forall v | v in vtxos :: v.isSpent || v.spentBy.Some? || v.settledBy.Some?
  }

  ghost predicate AllNamed(vtxos: seq<Vtxo>) { forall v | v in vtxos :: v.spentBy.Some? }

  /** `p` sits in some returned transaction's input that spends a listed output, and it hashes right. */
  ghost predicate Shows(vtxos: seq<Vtxo>, txs: seq<Option<Tx>>, hash: bytes -> bytes, h: bytes, p: bytes) {
    hash(p) == h && exists t: Tx, i: Input ::
      Some(t) in txs && i in t.inputs && p in i.items && exists v | v in vtxos :: i.outpoint == Some(v.outpoint)
  }

  ghost predicate Observed(txs: seq<Option<Tx>>, id: TxId) { exists t: Tx :: Some(t) in txs && t.id == id }

  ghost predicate EverySpendObserved(vtxos: seq<Vtxo>, txs: seq<Option<Tx>>) {
    forall v | v in vtxos && v.spentBy.Some? :: Observed(txs, v.spentBy.value)
  }

  ghost predicate ShowsNone(vtxos: seq<Vtxo>, txs: seq<Option<Tx>>, hash: bytes -> bytes, h: bytes) {
    forall p :: !Shows(vtxos, txs, hash, h, p)
  }

  /** The named spends of the outputs, each with the ark transaction one of its outputs reports. */
  ghost predicate Names(vtxos: seq<Vtxo>, spends: map<TxId, Option<TxId>>) {
    && (forall v | v in vtxos && v.spentBy.Some? :: v.spentBy.value in spends)
    && (forall id | id in spends :: exists v | v in vtxos :: v.spentBy == Some(id) && v.arkTxId == spends[id])
  }

  ghost predicate Fits(vtxos: seq<Vtxo>, txs: seq<Option<Tx>>, hash: bytes -> bytes, h: bytes, fate: Fate) {
    match fate
    case Open => !AllSpent(vtxos)
    case Claimed(p, spends) => AllSpent(vtxos) && vtxos != [] && Names(vtxos, spends) && Shows(vtxos, txs, hash, h, p)
    case Returned(spends) =>
      && vtxos != [] && AllSpent(vtxos) && AllNamed(vtxos) && Names(vtxos, spends)
      && EverySpendObserved(vtxos, txs) && ShowsNone(vtxos, txs, hash, h)
    case Unknown =>
      vtxos == [] || (AllSpent(vtxos) && ShowsNone(vtxos, txs, hash, h)
                      && !(AllNamed(vtxos) && EverySpendObserved(vtxos, txs)))
  }

  // ---- The source's loops ----

  /** The first loop: an unspent output ends it; otherwise the spends it can name. */
  method NameSpends(vtxos: seq<Vtxo>) returns (open: bool, spentBy: map<TxId, Option<TxId>>, everySpendNamed: bool)
    ensures open == !AllSpent(vtxos)
    ensures !open ==> Names(vtxos, spentBy) && everySpendNamed == AllNamed(vtxos)
  {
    spentBy, everySpendNamed := map[], true;
    var k := 0;
    while k < |vtxos|
      invariant 0 <= k <= |vtxos|
      invariant AllSpent(vtxos[..k]) && Names(vtxos[..k], spentBy)
      invariant everySpendNamed == AllNamed(vtxos[..k])
    {
      var v := vtxos[k];
      assert vtxos[..k + 1] == vtxos[..k] + [v];
      if !Spent(v) { return true, spentBy, everySpendNamed; }
      if v.spentBy.Some? {
        NamesOneMore(vtxos[..k], spentBy, v);
        spentBy := spentBy[v.spentBy.value := v.arkTxId];
        assert v in vtxos[..k + 1];
      } else {
        everySpendNamed := false;
        assert v in vtxos[..k + 1];
      }
      k := k + 1;
    }
    assert vtxos[..k] == vtxos;
    open := false;
  }

  lemma NamesOneMore(vtxos: seq<Vtxo>, spends: map<TxId, Option<TxId>>, v: Vtxo)
    requires Names(vtxos, spends) && v.spentBy.Some?
    ensures Names(vtxos + [v], spends[v.spentBy.value := v.arkTxId])
  {
    var more, named := vtxos + [v], spends[v.spentBy.value := v.arkTxId];
    assert more[|vtxos|] == v && forall w | w in vtxos :: w in more;
    forall id | id in named ensures exists w | w in more :: w.spentBy == Some(id) && w.arkTxId == named[id] {
      if id == v.spentBy.value {
        assert v in more;
      } else {
        var w :| w in vtxos && w.spentBy == Some(id) && w.arkTxId == spends[id];
        assert w in more;
      }
    }
  }

  /** The witness search over one transaction: the first item of a listed input that hashes right. */
  method FindPreimage(vtxos: seq<Vtxo>, tx: Tx, hash: bytes -> bytes, h: bytes) returns (r: Option<bytes>)
    ensures r.Some? ==> Shows(vtxos, [Some(tx)], hash, h, r.value)
    ensures r.None? ==> ShowsNone(vtxos, [Some(tx)], hash, h)
  {
    var i := 0;
    while i < |tx.inputs|
      invariant 0 <= i <= |tx.inputs|
      invariant forall x, p | x in tx.inputs[..i] && Listed(vtxos, x.outpoint) && p in x.items :: hash(p) != h
    {
      var input := tx.inputs[i];
      assert tx.inputs[..i + 1] == tx.inputs[..i] + [input];
      if Listed(vtxos, input.outpoint) {
        var k := 0;
        while k < |input.items|
          invariant 0 <= k <= |input.items|
          invariant forall p | p in input.items[..k] :: hash(p) != h
        {
          var p := input.items[k];
          if hash(p) == h {
            assert Some(tx) in [Some(tx)] && input in tx.inputs;
            return Some(p);
          }
          k := k + 1;
        }
        assert input.items[..k] == input.items;
      }
      i := i + 1;
    }
    assert tx.inputs[..i] == tx.inputs;
    return None;
  }

  lemma ShowsSplits(vtxos: seq<Vtxo>, txs: seq<Option<Tx>>, k: nat, hash: bytes -> bytes, h: bytes, p: bytes)
    requires k < |txs| && Shows(vtxos, txs[..k + 1], hash, h, p)
    ensures Shows(vtxos, txs[..k], hash, h, p) || (txs[k].Some? && Shows(vtxos, [txs[k]], hash, h, p))
  {
    assert txs[..k + 1] == txs[..k] + [txs[k]];
    var t: Tx, i: Input :| Some(t) in txs[..k + 1] && i in t.inputs && Listed(vtxos, i.outpoint) && p in i.items;
    assert Some(t) in txs[..k] || Some(t) in [txs[k]];
  }

  lemma ShowsNoneExtends(vtxos: seq<Vtxo>, txs: seq<Option<Tx>>, k: nat, hash: bytes -> bytes, h: bytes)
    requires k < |txs| && ShowsNone(vtxos, txs[..k], hash, h)
    requires txs[k].Some? ==> ShowsNone(vtxos, [txs[k]], hash, h)
    ensures ShowsNone(vtxos, txs[..k + 1], hash, h)
  {
    var front := txs[..k + 1];
    forall p ensures !Shows(vtxos, front, hash, h, p) {
      if Shows(vtxos, front, hash, h, p) { ShowsSplits(vtxos, txs, k, hash, h, p); }
    }
  }

  lemma ObservedExtends(txs: seq<Option<Tx>>, k: nat)
    requires k < |txs|
    ensures forall id :: Observed(txs[..k + 1], id) <==>
                         Observed(txs[..k], id) || (txs[k].Some? && txs[k].value.id == id)
  {
    assert txs[..k + 1] == txs[..k] + [txs[k]];
    if txs[k].Some? { assert Some(txs[k].value) in txs[..k + 1]; }
  }

  lemma ShowsWhole(vtxos: seq<Vtxo>, txs: seq<Option<Tx>>, k: nat, hash: bytes -> bytes, h: bytes, p: bytes)
    requires k < |txs| && Shows(vtxos, [txs[k]], hash, h, p)
    ensures Shows(vtxos, txs, hash, h, p)
  {
    var t: Tx, i: Input :| Some(t) in [txs[k]] && i in t.inputs && Listed(vtxos, i.outpoint) && p in i.items;
    assert Some(t) in txs;
  }

  method ReadLockupFate(vtxos: seq<Vtxo>, txs: seq<Option<Tx>>, hash: bytes -> bytes, h: bytes)
    returns (fate: Fate)
    ensures Fits(vtxos, txs, hash, h, fate)
  {
    if vtxos == [] { return Unknown; }
    var open, spentBy, everySpendNamed := NameSpends(vtxos);
    if open { return Open; }
    var observed: set<TxId> := {};
    var k := 0;
    while k < |txs|
      invariant 0 <= k <= |txs|
      invariant forall id :: id in observed <==> id in spentBy && Observed(txs[..k], id)
      invariant ShowsNone(vtxos, txs[..k], hash, h)
    {
      ObservedExtends(txs, k);
      if txs[k].Some? {
        var tx := txs[k].value;
        assert [txs[k]] == [Some(tx)];
        if tx.id in spentBy { observed := observed + {tx.id}; }
        var p := FindPreimage(vtxos, tx, hash, h);
        if p.Some? {
          ShowsWhole(vtxos, txs, k, hash, h, p.value);
          return Claimed(p.value, spentBy);
        }
      }
      ShowsNoneExtends(vtxos, txs, k, hash, h);
      k := k + 1;
    }
    assert txs[..k] == txs;
    SizesDecide(observed, spentBy.Keys);
    if everySpendNamed && |observed| == |spentBy| {
      forall v | v in vtxos && v.spentBy.Some? ensures Observed(txs, v.spentBy.value) {
        assert v.spentBy.value in spentBy;
      }
      return Returned(spentBy);
    }
    if everySpendNamed {
      var id :| id in spentBy && id !in observed;
      var v :| v in vtxos && v.spentBy == Some(id);
      assert !Observed(txs, v.spentBy.value);
    }
    return Unknown;
  }

  /** Counting is enough: a subset as large as the whole is the whole. */
  lemma {:induction false} SizesDecide(a: set<TxId>, b: set<TxId>)
    requires a <= b
    ensures |a| == |b| <==> a == b
    decreases |b|
  {
    if x :| x in a {
      SizesDecide(a - {x}, b - {x});
      assert a == (a - {x}) + {x} && b == (b - {x}) + {x};
    }
  }

  // ---- Main results ----

  /** The answer depends only on which outputs and transactions are listed, not on order or repeats. */
  lemma FateIgnoresOrder(vtxos: seq<Vtxo>, txs: seq<Option<Tx>>, vtxos': seq<Vtxo>, txs': seq<Option<Tx>>,
                         hash: bytes -> bytes, h: bytes, fate: Fate, fate': Fate)
    requires forall v :: v in vtxos <==> v in vtxos'
    requires forall t :: t in txs <==> t in txs'
    requires Fits(vtxos, txs, hash, h, fate) && Fits(vtxos', txs', hash, h, fate')
    ensures fate.Open? == fate'.Open? && fate.Claimed? == fate'.Claimed?
    ensures fate.Returned? == fate'.Returned? && fate.Unknown? == fate'.Unknown?
    ensures (fate.Claimed? || fate.Returned?) && OneArkTx(vtxos) ==> fate.spends == fate'.spends
  {
    assert (vtxos == []) == (vtxos' == []) by {
      if vtxos != [] { assert vtxos[0] in vtxos'; }
      if vtxos' != [] { assert vtxos'[0] in vtxos; }
    }
    assert forall o :: Listed(vtxos, o) <==> Listed(vtxos', o);
    forall p ensures Shows(vtxos, txs, hash, h, p) <==> Shows(vtxos', txs', hash, h, p) {
    }
    assert forall id :: Observed(txs, id) <==> Observed(txs', id);
    assert EverySpendObserved(vtxos, txs) <==> EverySpendObserved(vtxos', txs');
    if (fate.Claimed? || fate.Returned?) && OneArkTx(vtxos) { SameSpends(vtxos, vtxos', fate.spends, fate'.spends); }
  }

  /** Outputs spent by one transaction report one ark transaction for it. */
  ghost predicate OneArkTx(vtxos: seq<Vtxo>) {
    forall v, w | v in vtxos && w in vtxos && v.spentBy.Some? && v.spentBy == w.spentBy :: v.arkTxId == w.arkTxId
  }

  lemma SameSpends(vtxos: seq<Vtxo>, vtxos': seq<Vtxo>, a: map<TxId, Option<TxId>>, b: map<TxId, Option<TxId>>)
    requires (forall v :: v in vtxos <==> v in vtxos') && OneArkTx(vtxos) && Names(vtxos, a) && Names(vtxos', b)
    ensures a == b
  {
    forall id ensures id in a <==> id in b { }
    forall id | id in a ensures a[id] == b[id] {
      var v :| v in vtxos && v.spentBy == Some(id) && v.arkTxId == a[id];
      var w :| w in vtxos' && w.spentBy == Some(id) && w.arkTxId == b[id];
    }
  }

  /** The chain: what really spent each output. */
  type Truth = map<Outpoint, Tx>

  /**
   A returned transaction is the true one as far as its id commits to it: the same outpoints are
   spent, input by input. Witness items are no part of the id; some may be missing, none is made up.
   */
  predicate SameTx(t: Tx, truth: Tx) {
    && t.id == truth.id && |t.inputs| == |truth.inputs|
    && forall k | 0 <= k < |t.inputs| ::
         t.inputs[k].outpoint == truth.inputs[k].outpoint && forall p | p in t.inputs[k].items ::
             p in truth.inputs[k].items
  }

  /** The chain spends an outpoint once. */
  ghost predicate OneSpender(truth: Truth) {
    forall o, i | o in truth && i in truth[o].inputs && i.outpoint.Some? ::
      i.outpoint.value in truth && truth[i.outpoint.value] == truth[o]
  }

  /**
   The indexer may leave out anything, but what it says of the outputs is true: a spend it reports
   happened, and a spender it names is the one. A returned transaction with the id of a named
   spender is that spender. Any other returned transaction is junk and may hold anything.
   */
  ghost predicate Truthful(truth: Truth, vtxos: seq<Vtxo>, txs: seq<Option<Tx>>) {
    && OneSpender(truth)
    && (forall v | v in vtxos && Spent(v) :: v.outpoint in truth)
    && (forall v | v in vtxos && v.spentBy.Some? :: v.outpoint in truth && truth[v.outpoint].id == v.spentBy.value)
    && (forall v, t: Tx | v in vtxos && Some(t) in txs && v.spentBy == Some(t.id) ::
          v.outpoint in truth && SameTx(t, truth[v.outpoint]))
  }

  /** An output was really spent with `p` in the witness of its own input. */
  ghost predicate SpentWith(truth: Truth, o: Outpoint, p: bytes) {
    o in truth && exists i | i in truth[o].inputs :: i.outpoint == Some(o) && p in i.items
  }

  /** Every returned transaction that shows a preimage over a listed output carries the id that output names. */
  ghost predicate ShownByNamed(vtxos: seq<Vtxo>, txs: seq<Option<Tx>>, hash: bytes -> bytes, h: bytes) {
    forall t: Tx, i: Input, p
      | Some(t) in txs && i in t.inputs && Listed(vtxos, i.outpoint) && p in i.items && hash(p) == h ::
      Named(vtxos, i.outpoint.value, t.id)
  }

  ghost predicate Named(vtxos: seq<Vtxo>, o: Outpoint, id: TxId) {
    exists v | v in vtxos :: v.outpoint == o && v.spentBy == Some(id)
  }

  /**
   `claimed` is sound when what shows the preimage is a spender the outputs name; the code does not
   ask that it is.
   */
  lemma ClaimedIsSound(truth: Truth, vtxos: seq<Vtxo>, txs: seq<Option<Tx>>, hash: bytes -> bytes, h: bytes, fate: Fate)
    requires Truthful(truth, vtxos, txs) && Fits(vtxos, txs, hash, h, fate) && fate.Claimed?
    ensures hash(fate.preimage) == h
    ensures ShownByNamed(vtxos, txs, hash, h) ==> exists v | v in vtxos :: SpentWith(truth, v.outpoint, fate.preimage)
  {
    if ShownByNamed(vtxos, txs, hash, h) {
      var t: Tx, i: Input :| Some(t) in txs && i in t.inputs && Listed(vtxos, i.outpoint) && fate.preimage in i.items;
      assert Named(vtxos, i.outpoint.value, t.id);
      var v :| v in vtxos && v.outpoint == i.outpoint.value && v.spentBy == Some(t.id);
      var k :| 0 <= k < |t.inputs| && t.inputs[k] == i;
      assert SameTx(t, truth[v.outpoint]);
      assert truth[v.outpoint].inputs[k] in truth[v.outpoint].inputs;
      assert SpentWith(truth, v.outpoint, fate.preimage);
    }
  }

  /** Some returned transaction with the id the output names holds `p` in the output's own input. */
  ghost predicate CameBack(txs: seq<Option<Tx>>, v: Vtxo, p: bytes) {
    exists t: Tx, i: Input :: Some(t) in txs && v.spentBy == Some(t.id) && Holds(t, i, v.outpoint, p)
  }

  predicate Holds(t: Tx, i: Input, o: Outpoint, p: bytes) { i in t.inputs && i.outpoint == Some(o) && p in i.items }

  /** Every true witness item that hashes right came back in its named spender. */
  ghost predicate PreimagesCameBack(truth: Truth, vtxos: seq<Vtxo>, txs: seq<Option<Tx>>,
                                    hash: bytes -> bytes, h: bytes)
  {
    forall v, p | v in vtxos && SpentWith(truth, v.outpoint, p) && hash(p) == h :: CameBack(txs, v, p)
  }

  /** No listed output was really spent with an item that hashes right. */
  ghost predicate NoneClaimed(truth: Truth, vtxos: seq<Vtxo>, hash: bytes -> bytes, h: bytes) {
    forall v, p | v in vtxos && SpentWith(truth, v.outpoint, p) :: hash(p) != h
  }

  lemma CameBackShows(vtxos: seq<Vtxo>, txs: seq<Option<Tx>>, hash: bytes -> bytes, h: bytes, v: Vtxo, p: bytes)
    requires v in vtxos && CameBack(txs, v, p) && hash(p) == h
    ensures Shows(vtxos, txs, hash, h, p)
  {
    var t: Tx, i: Input :| Some(t) in txs && v.spentBy == Some(t.id) && Holds(t, i, v.outpoint, p);
    assert Listed(vtxos, i.outpoint);
  }

  /** Whatever junk came with it, `returned` is right if and only if no preimage was stripped from a named spender. */
  lemma ReturnedIsSoundIff(truth: Truth, vtxos: seq<Vtxo>, txs: seq<Option<Tx>>, hash: bytes -> bytes, h: bytes,
                           fate: Fate)
    requires Truthful(truth, vtxos, txs) && Fits(vtxos, txs, hash, h, fate) && fate.Returned?
    ensures forall v | v in vtxos :: v.outpoint in truth
    ensures NoneClaimed(truth, vtxos, hash, h) <==> PreimagesCameBack(truth, vtxos, txs, hash, h)
  {
    if PreimagesCameBack(truth, vtxos, txs, hash, h) {
      forall v, p | v in vtxos && SpentWith(truth, v.outpoint, p) ensures hash(p) != h {
        if hash(p) == h { CameBackShows(vtxos, txs, hash, h, v, p); }
      }
    }
  }

  /** A transaction with one input. */
  function SpendOf(o: Outpoint, id: TxId, items: seq<bytes>): Tx { Tx(id, [Input(Some(o), items)]) }

  /** `returned` can be wrong: the one output was claimed, and its claim came back without its witness. */
  lemma StrippedWitnessReadsAsReturned(o: Outpoint, id: TxId, hash: bytes -> bytes, p: bytes)
    ensures
      var truth := map[o := SpendOf(o, id, [p])];
      var vtxos, txs := [Vtxo(o, true, Some(id), None, None)], [Some(SpendOf(o, id, []))];
      && Truthful(truth, vtxos, txs) && SpentWith(truth, o, p)
      && Fits(vtxos, txs, hash, hash(p), Returned(map[id := None]))
  {
    var truth := map[o := SpendOf(o, id, [p])];
    var v := Vtxo(o, true, Some(id), None, None);
    var vtxos, txs := [v], [Some(SpendOf(o, id, []))];
    assert truth[o].inputs[0] in truth[o].inputs && p in truth[o].inputs[0].items;
    assert v in vtxos && Some(SpendOf(o, id, [])) in txs;
    assert forall t: Tx | Some(t) in txs :: t == SpendOf(o, id, []);
    assert ShowsNone(vtxos, txs, hash, hash(p));
    assert Observed(txs, id);
  }

  /**
   `claimed` can be wrong: the one output was refunded, and a transaction nobody named came back
   whose input names the output and carries the preimage.
   */
  lemma JunkReadsAsClaimed(o: Outpoint, id: TxId, junk: TxId, hash: bytes -> bytes, p: bytes)
    requires junk != id
    ensures
      var truth := map[o := SpendOf(o, id, [])];
      var vtxos, txs := [Vtxo(o, true, Some(id), None, None)], [Some(SpendOf(o, junk, [p]))];
      && Truthful(truth, vtxos, txs) && (forall x :: !SpentWith(truth, o, x))
      && Fits(vtxos, txs, hash, hash(p), Claimed(p, map[id := None]))
  {
    var v := Vtxo(o, true, Some(id), None, None);
    var t := SpendOf(o, junk, [p]);
    var vtxos, txs := [v], [Some(t)];
    assert v in vtxos && Some(t) in txs && t.inputs[0] in t.inputs && p in t.inputs[0].items;
    assert Listed(vtxos, t.inputs[0].outpoint);
    assert Shows(vtxos, txs, hash, hash(p), p);
  }

  /**
   Once every spend is named and returned, and the preimages came back where they belong, the
   answer is final and right.
   */
  lemma CompleteAnswersDecide(truth: Truth, vtxos: seq<Vtxo>, txs: seq<Option<Tx>>, hash: bytes -> bytes, h: bytes,
                              fate: Fate)
    requires Truthful(truth, vtxos, txs) && Fits(vtxos, txs, hash, h, fate)
    requires vtxos != [] && AllNamed(vtxos) && EverySpendObserved(vtxos, txs)
    ensures fate.Claimed? || fate.Returned?
    ensures ShownByNamed(vtxos, txs, hash, h) && PreimagesCameBack(truth, vtxos, txs, hash, h) ==>
              (fate.Claimed? <==> !NoneClaimed(truth, vtxos, hash, h))
  {
    assert AllSpent(vtxos);
    if fate.Claimed? {
      ClaimedIsSound(truth, vtxos, txs, hash, h, fate);
    } else if fate.Returned? {
      ReturnedIsSoundIff(truth, vtxos, txs, hash, h, fate);
    }
  }
}
