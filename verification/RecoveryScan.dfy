/**
 Recovery of stranded submarine lockups: one swap inspected on its own, and the batched scan that
 asks the indexer once for all of them. The batch must say what the single inspection says.
 */
module RecoveryScan {
  import opened Common
  import opened Locktime

  datatype Outpoint = Outpoint(txid: string, vout: nat)

  datatype Vtxo = Vtxo(outpoint: Outpoint, script: string, value: int, isSpent: bool, isRecoverable: bool)

  datatype SwapStatus = TransactionClaimed | InvoiceFailedToPay | TransactionLockupFailed | SwapExpired | OtherStatus

  /** `complete`: id, refund key, address, claim key and timeouts are all on the record. */
  datatype Swap = Swap(id: string, status: SwapStatus, complete: bool, timeout: Option<int>)

  /** The lockup rebuilt from a swap: its script and its refund locktime. */
  datatype Context = Context(scriptHex: string, refund: int)

  datatype RecoveryStatus = Recoverable | PreCltv | NoFunds | AlreadySpent | InvalidSwap

  datatype Info = Info(swap: Swap, status: RecoveryStatus, vtxoCount: nat, amountSats: int, refundLocktime: Option<int>)

  /** Everything outside, held still: the indexer's three views, the rebuilding of lockups, tip and clock. */
  datatype World = World(spendable: seq<Vtxo>, recoverable: seq<Vtxo>, all: seq<Vtxo>,
                         build: Swap -> Option<Context>, tip: Option<int>, now: int)

  // ---- Scripts, queries and de-duplication ----

  function LowerChar(c: char): char {
    if 'A' <= c <= 'Z' then (c as int + 32) as char else c
  }

  function ToLower(s: string): (r: string)
    ensures |r| == |s|
  {
    if s == "" then "" else [LowerChar(s[0])] + ToLower(s[1..])
  }

  /** Hex digits are the same in either case, and nothing else changes. */
  lemma HexCaseIgnored(c: char)
    ensures ToLower("ABCDEF") == "abcdef" && LowerChar('Z') == 'z'
    ensures c < 'A' || c > 'Z' ==> LowerChar(c) == c
  {
    LowerCons('F', "");
    LowerCons('E', "F");
    LowerCons('D', "EF");
    LowerCons('C', "DEF");
    LowerCons('B', "CDEF");
    LowerCons('A', "BCDEF");
  }

  lemma LowerCons(c: char, s: string)
    ensures ToLower([c] + s) == [LowerChar(c)] + ToLower(s)
  {
    assert ([c] + s)[1..] == s;
  }

  function Matching(vtxos: seq<Vtxo>, wanted: string -> bool): seq<Vtxo> {
    if vtxos == [] then []
    else Pick(vtxos[0], wanted) + Matching(vtxos[1..], wanted)
  }

  function Pick(v: Vtxo, wanted: string -> bool): seq<Vtxo> { if wanted(ToLower(v.script)) then [v] else [] }

  /** The indexer compares script hex without regard to case. */
  function OneOf(scripts: set<string>): string -> bool {
    (lower: string) => exists s | s in scripts :: ToLower(s) == lower
  }

  function Is(key: string): string -> bool { (lower: string) => lower == key }

  function GetVtxos(view: seq<Vtxo>, scripts: set<string>): seq<Vtxo> { Matching(view, OneOf(scripts)) }

  /** Setting a key of an insertion-ordered map: the first position is kept, the last value wins. */
  function Put(entries: seq<Vtxo>, v: Vtxo): seq<Vtxo> {
    if entries == [] then [v]
    else if entries[0].outpoint == v.outpoint then [v] + entries[1..]
    else [entries[0]] + Put(entries[1..], v)
  }

  function Dedupe(vtxos: seq<Vtxo>): seq<Vtxo> {
    if vtxos == [] then [] else Put(Dedupe(vtxos[..|vtxos| - 1]), vtxos[|vtxos| - 1])
  }

  /** An outpoint determines the script it pays. */
  ghost predicate OneScript(vtxos: seq<Vtxo>) {
    forall a, b | a in vtxos && b in vtxos && a.outpoint == b.outpoint :: ToLower(a.script) == ToLower(b.script)
  }

  lemma MatchingCons(e: Vtxo, rest: seq<Vtxo>, wanted: string -> bool)
    ensures Matching([e] + rest, wanted) == if wanted(ToLower(e.script)) then [e] + Matching(rest, wanted)
        else Matching(rest, wanted)
  {
    assert ([e] + rest)[1..] == rest;
  }

  lemma {:induction false} MatchingPick(a: seq<Vtxo>, v: Vtxo, wanted: string -> bool)
    ensures Matching(a + [v], wanted) == Matching(a, wanted) + Pick(v, wanted)
  {
    if a == [] {
      assert a + [v] == [v] && [v][1..] == [];
    } else {
      var rest := a[1..];
      MatchingPick(rest, v, wanted);
      assert (a + [v])[0] == a[0] && (a + [v])[1..] == rest + [v];
      Associative(Pick(a[0], wanted), Matching(rest, wanted), Pick(v, wanted));
    }
  }

  lemma MatchingSnoc(a: seq<Vtxo>, v: Vtxo, wanted: string -> bool)
    ensures Matching(a + [v], wanted) == if wanted(ToLower(v.script)) then Matching(a, wanted) + [v]
        else Matching(a, wanted)
  {
    MatchingPick(a, v, wanted);
    assert Matching(a, wanted) + [] == Matching(a, wanted);
  }

  lemma Associative<T>(a: seq<T>, b: seq<T>, c: seq<T>)
    ensures (a + b) + c == a + (b + c)
  {
  }

  lemma PutCons(e: Vtxo, rest: seq<Vtxo>, v: Vtxo)
    ensures Put([e] + rest, v) == if e.outpoint == v.outpoint then [v] + rest else [e] + Put(rest, v)
  {
    assert ([e] + rest)[1..] == rest;
  }

  lemma {:induction false} MatchingPut(entries: seq<Vtxo>, v: Vtxo, wanted: string -> bool)
    requires forall e | e in entries && e.outpoint == v.outpoint :: ToLower(e.script) == ToLower(v.script)
    ensures Matching(Put(entries, v), wanted)
         == if wanted(ToLower(v.script)) then Put(Matching(entries, wanted), v) else Matching(entries, wanted)
  {
    if entries == [] {
      MatchingCons(v, [], wanted);
      assert [v] == [v] + [];
    } else {
      var e, rest := entries[0], entries[1..];
      assert e in entries && entries == [e] + rest;
      MatchingCons(e, rest, wanted);
      PutCons(e, Matching(rest, wanted), v);
      if e.outpoint == v.outpoint {
        MatchingCons(v, rest, wanted);
      } else {
        MatchingPut(rest, v, wanted);
        MatchingCons(e, Put(rest, v), wanted);
      }
    }
  }

  lemma {:induction false} PutContents(entries: seq<Vtxo>, v: Vtxo)
    ensures forall e | e in Put(entries, v) :: e == v || e in entries
  {
    if entries != [] && entries[0].outpoint != v.outpoint { PutContents(entries[1..], v); }
  }

  lemma {:induction false} DedupeContents(vtxos: seq<Vtxo>)
    ensures forall e | e in Dedupe(vtxos) :: e in vtxos
  {
    if vtxos != [] {
      var front := vtxos[..|vtxos| - 1];
      DedupeContents(front);
      PutContents(Dedupe(front), vtxos[|vtxos| - 1]);
      assert vtxos == front + [vtxos[|vtxos| - 1]];
    }
  }

  lemma DedupeSnoc(front: seq<Vtxo>, v: Vtxo)
    ensures Dedupe(front + [v]) == Put(Dedupe(front), v)
  {
    assert (front + [v])[..|front|] == front;
  }

  /** De-duplicating and then picking a script is picking it and then de-duplicating. */
  lemma {:induction false} DedupeMatching(vtxos: seq<Vtxo>, wanted: string -> bool)
    requires OneScript(vtxos)
    ensures Matching(Dedupe(vtxos), wanted) == Dedupe(Matching(vtxos, wanted))
  {
    if vtxos != [] {
      var front, v := vtxos[..|vtxos| - 1], vtxos[|vtxos| - 1];
      assert vtxos == front + [v] && forall e | e in front :: e in vtxos;
      DedupeMatching(front, wanted);
      DedupeContents(front);
      assert v in vtxos;
      MatchingPut(Dedupe(front), v, wanted);
      MatchingSnoc(front, v, wanted);
      DedupeSnoc(Matching(front, wanted), v);
    }
  }

  /** Asking for many scripts and picking one is asking for that one. */
  lemma {:induction false} MatchingWithin(vtxos: seq<Vtxo>, wide: string -> bool, narrow: string -> bool)
    requires forall s :: narrow(s) ==> wide(s)
    ensures Matching(Matching(vtxos, wide), narrow) == Matching(vtxos, narrow)
  {
    if vtxos != [] {
      MatchingWithin(vtxos[1..], wide, narrow);
      MatchingCons(vtxos[0], Matching(vtxos[1..], wide), narrow);
      assert vtxos == [vtxos[0]] + vtxos[1..];
      MatchingCons(vtxos[0], vtxos[1..], wide);
      MatchingCons(vtxos[0], vtxos[1..], narrow);
    }
  }

  lemma {:induction false} MatchingSame(vtxos: seq<Vtxo>, p: string -> bool, q: string -> bool)
    requires forall s :: p(s) == q(s)
    ensures Matching(vtxos, p) == Matching(vtxos, q)
  {
    if vtxos != [] { MatchingSame(vtxos[1..], p, q); }
  }

  lemma {:induction false} MatchingAppend(a: seq<Vtxo>, b: seq<Vtxo>, wanted: string -> bool)
    ensures Matching(a + b, wanted) == Matching(a, wanted) + Matching(b, wanted)
    decreases |b|
  {
    if b == [] {
      assert a + b == a;
    } else {
      var front, v := b[..|b| - 1], b[|b| - 1];
      assert b == front + [v] && a + b == (a + front) + [v];
      MatchingAppend(a, front, wanted);
      MatchingSnoc(front, v, wanted);
      MatchingSnoc(a + front, v, wanted);
    }
  }

  lemma {:induction false} MatchingContents(vtxos: seq<Vtxo>, wanted: string -> bool)
    ensures forall v | v in Matching(vtxos, wanted) :: v in vtxos
  {
    if vtxos != [] { MatchingContents(vtxos[1..], wanted); }
  }

  /** What stays: one entry for each outpoint there was, and it is the last one listed. */
  ghost predicate KeepsLast(vtxos: seq<Vtxo>, kept: seq<Vtxo>) {
    && (forall i, j | 0 <= i < j < |kept| :: kept[i].outpoint != kept[j].outpoint)
    && (forall i | 0 <= i < |vtxos| && (forall j | i < j < |vtxos| :: vtxos[j].outpoint != vtxos[i].outpoint) ::
        vtxos[i] in kept)
    && (forall v | v in kept :: v in vtxos)
  }

  lemma {:induction false} PutDistinct(entries: seq<Vtxo>, v: Vtxo)
    requires forall i, j | 0 <= i < j < |entries| :: entries[i].outpoint != entries[j].outpoint
    ensures forall i, j | 0 <= i < j < |Put(entries, v)| :: Put(entries, v)[i].outpoint != Put(entries, v)[j].outpoint
    ensures v in Put(entries, v) && forall e | e in entries && e.outpoint != v.outpoint :: e in Put(entries, v)
  {
    PutContents(entries, v);
    if entries != [] && entries[0].outpoint != v.outpoint {
      var rest := entries[1..];
      PutDistinct(rest, v);
      PutContents(rest, v);
      forall j | 0 <= j < |Put(rest, v)| ensures Put(rest, v)[j].outpoint != entries[0].outpoint {
        assert Put(rest, v)[j] in Put(rest, v);
      }
      assert forall e | e in entries :: e == entries[0] || e in rest;
    } else if entries != [] {
      assert forall e | e in entries && e.outpoint != v.outpoint :: e in entries[1..];
    }
  }

  lemma {:induction false} DedupeKeepsLast(vtxos: seq<Vtxo>)
    ensures KeepsLast(vtxos, Dedupe(vtxos))
  {
    if vtxos != [] {
      var front, v := vtxos[..|vtxos| - 1], vtxos[|vtxos| - 1];
      DedupeKeepsLast(front);
      PutDistinct(Dedupe(front), v);
      DedupeContents(vtxos);
      forall i | 0 <= i < |vtxos| && (forall j | i < j < |vtxos| :: vtxos[j].outpoint != vtxos[i].outpoint)
        ensures vtxos[i] in Dedupe(vtxos)
      {
        if i < |front| {
          assert vtxos[|front|].outpoint != vtxos[i].outpoint;
          assert front[i] in Dedupe(front);
        }
      }
    }
  }

  // ---- The decision for one swap ----

  function Total(vtxos: seq<Vtxo>): int { if vtxos == [] then 0 else vtxos[0].value + Total(vtxos[1..]) }

  /** The tip is fetched only when some locktime is a height. */
  function TipFor(w: World, locktimes: seq<int>): Option<int> {
    if exists l | l in locktimes :: IsBlockHeight(l) then w.tip else None
  }

  predicate CanCosign(vtxos: seq<Vtxo>, swap: Swap) {
    swap.id != "" && swap.complete && exists v | v in vtxos :: !v.isSpent && !v.isRecoverable
  }

  datatype Diagnostic = Diagnostic(total: nat, allSpent: bool)

  function FromLookup(swap: Swap, refund: int, vtxos: seq<Vtxo>, diagnostic: Option<Diagnostic>, tip: Option<int>,
      now: int): Info
  {
    if vtxos != [] then
      Info(swap, if LocktimeReached(refund, tip, now) || CanCosign(vtxos, swap) then Recoverable else PreCltv,
           |vtxos|, Total(vtxos), Some(refund))
    else if diagnostic.None? || diagnostic.value.total == 0 then Info(swap, NoFunds, 0, 0, Some(refund))
    else if diagnostic.value.allSpent then Info(swap, AlreadySpent, 0, 0, Some(refund))
    else Info(swap, NoFunds, 0, 0, Some(refund))
  }

  predicate IsCandidate(swap: Swap) { swap.status != OtherStatus }

  function Refundable(w: World, scripts: set<string>): seq<Vtxo> {
    Dedupe(GetVtxos(w.spendable, scripts) + GetVtxos(w.recoverable, scripts))
  }

  function Invalid(swap: Swap): Info { Info(swap, InvalidSwap, 0, 0, swap.timeout) }

  /** One swap on its own: its own queries, its own tip, and a third query when nothing is refundable. */
  function Inspect(w: World, swap: Swap): Info {
    if !IsCandidate(swap) then Invalid(swap)
    else match w.build(swap)
      case None => Invalid(swap)
      case Some(c) =>
        var vtxos := Refundable(w, {c.scriptHex});
        var all := GetVtxos(w.all, {c.scriptHex});
        var diagnostic := if vtxos == [] then Some(Diagnostic(|all|, all != [] && forall v | v in all :: v.isSpent))
            else None;
        FromLookup(swap, c.refund, vtxos, diagnostic, TipFor(w, [c.refund]), w.now)
  }

  /** The outputs listed at a script, in either refundable view. */
  ghost function OutpointsAt(w: World, script: string): set<Outpoint> {
    PlacesIn(w.spendable, script) + PlacesIn(w.recoverable, script)
  }

  lemma {:induction false} MatchingIff(vtxos: seq<Vtxo>, wanted: string -> bool)
    ensures forall v :: v in Matching(vtxos, wanted) <==> v in vtxos && wanted(ToLower(v.script))
  {
    if vtxos != [] {
      MatchingIff(vtxos[1..], wanted);
      assert vtxos[0] in vtxos && forall v | v in vtxos :: v == vtxos[0] || v in vtxos[1..];
    }
  }

  /** An outpoint that is listed has a last listing, so it is kept. */
  lemma {:induction false} DedupeCovers(vtxos: seq<Vtxo>, v: Vtxo)
    requires v in vtxos
    ensures exists e | e in Dedupe(vtxos) :: e.outpoint == v.outpoint
  {
    var front, last := vtxos[..|vtxos| - 1], vtxos[|vtxos| - 1];
    DedupeKeepsLast(front);
    PutDistinct(Dedupe(front), last);
    if v.outpoint != last.outpoint {
      assert v in front;
      DedupeCovers(front, v);
    }
  }

  function OutpointsOf(vtxos: seq<Vtxo>): set<Outpoint> { set v | v in vtxos :: v.outpoint }

  lemma {:induction false} DistinctCount(kept: seq<Vtxo>)
    requires forall i, j | 0 <= i < j < |kept| :: kept[i].outpoint != kept[j].outpoint
    ensures |OutpointsOf(kept)| == |kept|
  {
    if kept != [] {
      DistinctCount(kept[1..]);
      var rest := OutpointsOf(kept[1..]);
      assert OutpointsOf(kept) == rest + {kept[0].outpoint} by {
        assert kept[0] in kept && forall v | v in kept :: v == kept[0] || v in kept[1..];
      }
      assert kept[0].outpoint !in rest;
    }
  }

  /** De-duplication keeps every outpoint, and each once. */
  lemma DedupeOutpoints(vtxos: seq<Vtxo>)
    ensures OutpointsOf(Dedupe(vtxos)) == OutpointsOf(vtxos) && |Dedupe(vtxos)| == |OutpointsOf(vtxos)|
  {
    DedupeKeepsLast(vtxos);
    forall v | v in vtxos ensures v.outpoint in OutpointsOf(Dedupe(vtxos)) { DedupeCovers(vtxos, v); }
    assert OutpointsOf(Dedupe(vtxos)) == OutpointsOf(vtxos);
    DistinctCount(Dedupe(vtxos));
  }

  /** Asking for one script is picking it out. */
  lemma OwnQuery(view: seq<Vtxo>, script: string)
    ensures GetVtxos(view, {script}) == Matching(view, Is(ToLower(script)))
  {
    MatchingSame(view, OneOf({script}), Is(ToLower(script)));
  }

  lemma OutpointsAppend(a: seq<Vtxo>, b: seq<Vtxo>)
    ensures OutpointsOf(a + b) == OutpointsOf(a) + OutpointsOf(b)
  {
  }

  ghost function PlacesIn(view: seq<Vtxo>, script: string): set<Outpoint> {
    set v | v in view && ToLower(v.script) == ToLower(script) :: v.outpoint
  }

  lemma QueryOutpoints(view: seq<Vtxo>, script: string)
    ensures OutpointsOf(GetVtxos(view, {script})) == PlacesIn(view, script)
  {
    OwnQuery(view, script);
    MatchingIff(view, Is(ToLower(script)));
  }

  lemma RefundableAt(w: World, script: string)
    ensures |Refundable(w, {script})| == |OutpointsAt(w, script)|
  {
    QueryOutpoints(w.spendable, script);
    QueryOutpoints(w.recoverable, script);
    OutpointsAppend(GetVtxos(w.spendable, {script}), GetVtxos(w.recoverable, {script}));
    DedupeOutpoints(GetVtxos(w.spendable, {script}) + GetVtxos(w.recoverable, {script}));
  }

  /** The output pays the script, whatever case its hex is in. */
  predicate Pays(v: Vtxo, script: string) { ToLower(v.script) == ToLower(script) }

  /** The whole view lists outputs at the script, all of them spent. */
  ghost predicate OnlySpentAt(w: World, script: string) {
    (exists v | v in w.all :: Pays(v, script)) && forall v | v in w.all && Pays(v, script) :: v.isSpent
  }

  lemma SpentAt(w: World, script: string)
    ensures
      var all := GetVtxos(w.all, {script});
      (all != [] && forall v | v in all :: v.isSpent) <==> OnlySpentAt(w, script)
  {
    OwnQuery(w.all, script);
    MatchingIff(w.all, Is(ToLower(script)));
    var all := GetVtxos(w.all, {script});
    if v :| v in w.all && Pays(v, script) { assert v in all; }
    if all != [] { assert all[0] in all; }
  }

  /** Some output left at the script is neither spent nor swept. */
  predicate LiveAt(w: World, script: string) {
    exists v | v in Refundable(w, {script}) :: !v.isSpent && !v.isRecoverable
  }

  /** The amount an inspection reports is the sum: nothing for nothing, one value for one output, additive. */
  lemma {:induction false} TotalIsSum(a: seq<Vtxo>, b: seq<Vtxo>, v: Vtxo)
    ensures Total([]) == 0 && Total([v]) == v.value && Total(a + b) == Total(a) + Total(b)
  {
    if a == [] {
      assert a + b == b;
    } else {
      TotalIsSum(a[1..], b, v);
      assert (a + b)[1..] == a[1..] + b;
    }
  }

  /** Which swaps are looked at: those whose status leaves something to recover or to explain. */
  lemma CandidateIff(w: World, swap: Swap)
    ensures Inspect(w, swap).status == InvalidSwap <==>
              swap.status !in {TransactionClaimed, InvoiceFailedToPay, TransactionLockupFailed, SwapExpired}
              || w.build(swap).None?
    ensures var i := Inspect(w, swap); i.status == InvalidSwap ==> i == Info(swap, InvalidSwap, 0, 0, swap.timeout)
  {
  }

  /**
   What an inspection of a rebuilt candidate says, in terms of the outputs listed at its script:
   each output counts once, and the tip decides height locktimes as if it were always fetched.
   */
  lemma InspectMeans(w: World, swap: Swap, c: Context)
    requires IsCandidate(swap) && w.build(swap) == Some(c)
    ensures
      var i, at := Inspect(w, swap), OutpointsAt(w, c.scriptHex);
      && i.vtxoCount == |at|
      && (i.status == Recoverable <==>
            && at != {}
            && (|| LocktimeReached(c.refund, w.tip, w.now)
                || (swap.id != "" && swap.complete && LiveAt(w, c.scriptHex))))
      && (i.status == PreCltv <==> at != {} && i.status != Recoverable)
      && (i.status == AlreadySpent <==> at == {} && OnlySpentAt(w, c.scriptHex))
      && i.status != InvalidSwap && i.refundLocktime == Some(c.refund) && i.swap == swap
      && i.amountSats == Total(Refundable(w, {c.scriptHex}))
  {
    RefundableAt(w, c.scriptHex);
    SpentAt(w, c.scriptHex);
    assert LocktimeReached(c.refund, TipFor(w, [c.refund]), w.now) == LocktimeReached(c.refund, w.tip, w.now);
  }

  /** The one difference the batch makes: it does not look for spent outputs. */
  function WithoutDiagnosis(i: Info): Info { if i.status == AlreadySpent then i.(status := NoFunds) else i }

  // ---- The batch ----

  function Get(groups: map<string, seq<Vtxo>>, key: string): seq<Vtxo> { if key in groups then groups[key] else [] }

  /** Every script's outputs are together; an output without a script is in no group. */
  ghost predicate GroupsOf(groups: map<string, seq<Vtxo>>, vtxos: seq<Vtxo>) {
    forall key | key != "" :: Get(groups, key) == Matching(vtxos, Is(key))
  }

  function AddTo(groups: map<string, seq<Vtxo>>, v: Vtxo): map<string, seq<Vtxo>> {
    var script := ToLower(v.script);
    if script == "" then groups else groups[script := Get(groups, script) + [v]]
  }

  lemma GroupsGrow(groups: map<string, seq<Vtxo>>, vtxos: seq<Vtxo>, v: Vtxo)
    requires GroupsOf(groups, vtxos)
    ensures GroupsOf(AddTo(groups, v), vtxos + [v])
  {
    forall key | key != "" ensures Get(AddTo(groups, v), key) == Matching(vtxos + [v], Is(key)) {
      MatchingSnoc(vtxos, v, Is(key));
      assert Get(groups, key) == Matching(vtxos, Is(key));
    }
  }

  method GroupByScript(vtxos: seq<Vtxo>) returns (groups: map<string, seq<Vtxo>>)
    ensures GroupsOf(groups, vtxos)
  {
    groups := map[];
    var i := 0;
    while i < |vtxos|
      invariant 0 <= i <= |vtxos| && GroupsOf(groups, vtxos[..i])
    {
      GroupsGrow(groups, vtxos[..i], vtxos[i]);
      assert vtxos[..i + 1] == vtxos[..i] + [vtxos[i]];
      groups := AddTo(groups, vtxos[i]);
      i := i + 1;
    }
    assert vtxos[..i] == vtxos;
  }

  /** A group of the batched answer is the answer to the swap's own queries. */
  lemma GroupIsOwnQuery(w: World, scripts: set<string>, s: string)
    requires s in scripts && OneScript(w.spendable + w.recoverable)
    ensures Matching(Refundable(w, scripts), Is(ToLower(s))) == Refundable(w, {s})
  {
    var wide, narrow := OneOf(scripts), Is(ToLower(s));
    var a, b := w.spendable, w.recoverable;
    var both := Matching(a, wide) + Matching(b, wide);
    MatchingContents(a, wide);
    MatchingContents(b, wide);
    assert forall v | v in both :: v in a + b;
    DedupeMatching(both, narrow);
    MatchingAppend(Matching(a, wide), Matching(b, wide), narrow);
    MatchingWithin(a, wide, narrow);
    MatchingWithin(b, wide, narrow);
    OwnQuery(a, s);
    OwnQuery(b, s);
  }

  function Candidates(swaps: seq<Swap>): seq<Swap> {
    if swaps == [] then [] else PickSwap(swaps[0]) + Candidates(swaps[1..])
  }

  function PickSwap(s: Swap): seq<Swap> { if IsCandidate(s) then [s] else [] }

  lemma {:induction false} CandidatesSnoc(swaps: seq<Swap>, s: Swap)
    ensures Candidates(swaps + [s]) == Candidates(swaps) + PickSwap(s)
  {
    if swaps == [] {
      assert swaps + [s] == [s] && [s][1..] == [];
    } else {
      CandidatesSnoc(swaps[1..], s);
      assert (swaps + [s])[0] == swaps[0] && (swaps + [s])[1..] == swaps[1..] + [s];
      Associative(PickSwap(swaps[0]), Candidates(swaps[1..]), PickSwap(s));
    }
  }

  datatype Prepared = Prepared(swap: Swap, context: Option<Context>)

  /** Every script and every locktime of the swaps that could be rebuilt. */
  ghost predicate Gathered(prepared: seq<Prepared>, scripts: set<string>, locktimes: seq<int>) {
    && (forall p | p in prepared && p.context.Some? ::
          p.context.value.scriptHex in scripts && p.context.value.refund in locktimes)
    && (forall s | s in scripts :: s != "")
  }

  /** A swap in the batch gets the verdict of its own inspection. */
  lemma BatchedVerdict(w: World, swap: Swap, c: Context, scripts: set<string>, locktimes: seq<int>)
    requires IsCandidate(swap) && w.build(swap) == Some(c) && OneScript(w.spendable + w.recoverable)
    requires c.scriptHex in scripts && c.refund in locktimes
    ensures FromLookup(swap, c.refund, Matching(Refundable(w, scripts), Is(ToLower(c.scriptHex))), None,
        TipFor(w, locktimes), w.now)
         == WithoutDiagnosis(Inspect(w, swap))
  {
    GroupIsOwnQuery(w, scripts, c.scriptHex);
    assert LocktimeReached(c.refund, TipFor(w, locktimes), w.now) ==
        LocktimeReached(c.refund, TipFor(w, [c.refund]), w.now);
  }

  method Prepare(w: World, swaps: seq<Swap>) returns (prepared: seq<Prepared>, scripts: set<string>,
      locktimes: seq<int>)
    requires forall s | s in swaps && w.build(s).Some? :: w.build(s).value.scriptHex != ""
    ensures |prepared| == |Candidates(swaps)|
    ensures forall i | 0 <= i < |prepared| ::
        prepared[i] == Prepared(Candidates(swaps)[i], w.build(Candidates(swaps)[i]))
    ensures forall p | p in prepared :: IsCandidate(p.swap)
    ensures Gathered(prepared, scripts, locktimes)
  {
    prepared, scripts, locktimes := [], {}, [];
    var i := 0;
    while i < |swaps|
      invariant 0 <= i <= |swaps|
      invariant |prepared| == |Candidates(swaps[..i])|
      invariant forall k | 0 <= k < |prepared| ::
          prepared[k] == Prepared(Candidates(swaps[..i])[k], w.build(Candidates(swaps[..i])[k]))
      invariant forall p | p in prepared :: IsCandidate(p.swap)
      invariant Gathered(prepared, scripts, locktimes)
    {
      assert swaps[..i + 1] == swaps[..i] + [swaps[i]];
      CandidatesSnoc(swaps[..i], swaps[i]);
      if IsCandidate(swaps[i]) {
        var context := w.build(swaps[i]);
        prepared := prepared + [Prepared(swaps[i], context)];
        if context.Some? {
          scripts := scripts + {context.value.scriptHex};
          locktimes := locktimes + [context.value.refund];
        }
      }
      i := i + 1;
    }
    assert swaps[..i] == swaps;
  }

  function ItemInfo(item: Prepared, groups: map<string, seq<Vtxo>>, tip: Option<int>, now: int): Info {
    match item.context
    case None => Invalid(item.swap)
    case Some(c) => FromLookup(item.swap, c.refund, Get(groups, ToLower(c.scriptHex)), None, tip, now)
  }

  /** The groups hold, for every script asked for, the batched answer's outputs there. */
  ghost predicate Grouped(w: World, scripts: set<string>, groups: map<string, seq<Vtxo>>) {
    forall s | s in scripts :: Get(groups, ToLower(s)) == Matching(Refundable(w, scripts), Is(ToLower(s)))
  }

  lemma ItemVerdict(w: World, item: Prepared, scripts: set<string>, locktimes: seq<int>, groups: map<string, seq<Vtxo>>)
    requires IsCandidate(item.swap) && item.context == w.build(item.swap) && OneScript(w.spendable + w.recoverable)
    requires item.context.Some? ==> item.context.value.scriptHex in scripts && item.context.value.refund in locktimes
    requires Grouped(w, scripts, groups)
    ensures ItemInfo(item, groups, TipFor(w, locktimes), w.now) == WithoutDiagnosis(Inspect(w, item.swap))
  {
    if item.context.Some? { BatchedVerdict(w, item.swap, item.context.value, scripts, locktimes); }
  }

  method GroupFor(w: World, scripts: set<string>) returns (groups: map<string, seq<Vtxo>>)
    requires forall s | s in scripts :: s != ""
    ensures Grouped(w, scripts, groups)
  {
    if scripts == {} { return map[]; }
    groups := GroupByScript(Refundable(w, scripts));
    forall s | s in scripts ensures ToLower(s) != "" { assert |ToLower(s)| == |s|; }
  }

  /**
   The batched scan: for every candidate swap, in order, exactly the verdict of its own inspection,
   except that a spent lockup is reported as holding no funds.
   */
  method ScanRecoverableSubmarineSwaps(w: World, swaps: seq<Swap>) returns (infos: seq<Info>)
    requires OneScript(w.spendable + w.recoverable)
    requires forall s | s in swaps && w.build(s).Some? :: w.build(s).value.scriptHex != ""
    ensures |infos| == |Candidates(swaps)|
    ensures forall i | 0 <= i < |infos| :: infos[i] == WithoutDiagnosis(Inspect(w, Candidates(swaps)[i]))
  {
    var prepared, scripts, locktimes := Prepare(w, swaps);
    var groups := GroupFor(w, scripts);
    var tip := TipFor(w, locktimes);
    infos := [];
    while |infos| < |prepared|
      invariant |infos| <= |prepared|
      invariant forall i | 0 <= i < |infos| :: infos[i] == WithoutDiagnosis(Inspect(w, Candidates(swaps)[i]))
    {
      var item := prepared[|infos|];
      assert item in prepared;
      ItemVerdict(w, item, scripts, locktimes, groups);
      infos := infos + [ItemInfo(item, groups, tip, w.now)];
    }
  }
}
