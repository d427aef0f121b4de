/**
 The amount guard of a reverse claim. Claiming publishes the preimage, so the first claim needs a
 lockup that covers the agreed amount; after that, what is left is claimed whatever it holds.
 */
module ClaimGuard {
  import opened Common
  import opened Locktime

  type TxId = string

  /** `spent`: the indexer shows a terminal spend; `arkTxId`: the offchain transaction that spent it. */
  datatype Coin = Coin(txid: TxId, value: nat, spent: bool, arkTxId: Option<TxId>)

  function Total(coins: seq<Coin>): nat {
    if coins == [] then 0 else coins[0].value + Total(coins[1..])
  }

  // ---- Attribution: did the spends of a lockup pay us what they took? ----

  type Key = Coin -> Option<TxId>

  function Spender(): Key { (c: Coin) => c.arkTxId }

  function Origin(): Key { (c: Coin) => Some(c.txid) }

  /** What the coins that name `tx` under `key` add up to. */
  function SumOf(coins: seq<Coin>, key: Key, tx: TxId): nat {
    if coins == [] then 0
    else (if key(coins[0]) == Some(tx) then coins[0].value else 0) + SumOf(coins[1..], key, tx)
  }

  /** The same over a set of transactions. */
  function SumIn(coins: seq<Coin>, key: Key, txs: set<TxId>): nat {
    if coins == [] then 0
    else (if key(coins[0]).Some? && key(coins[0]).value in txs then coins[0].value else 0) + SumIn(coins[1..], key, txs)
  }

  function SpendersOf(spent: seq<Coin>): set<TxId> {
    set c | c in spent && c.arkTxId.Some? :: c.arkTxId.value
  }

  /** Every spend is an offchain transaction that paid our scripts at least what it took. */
  predicate MadeWhole(spent: seq<Coin>, received: seq<Coin>) {
    && (forall c | c in spent :: c.arkTxId.Some?)
    && forall tx | tx in SpendersOf(spent) :: SumOf(received, Origin(), tx) >= SumOf(spent, Spender(), tx)
  }

  lemma {:induction false} SumOfSnoc(coins: seq<Coin>, c: Coin, key: Key, tx: TxId)
    ensures SumOf(coins + [c], key, tx) == SumOf(coins, key, tx) + if key(c) == Some(tx) then c.value else 0
  {
    if coins == [] {
      assert coins + [c] == [c];
    } else {
      assert (coins + [c])[1..] == coins[1..] + [c];
      SumOfSnoc(coins[1..], c, key, tx);
    }
  }

  function Or0(m: map<TxId, nat>, tx: TxId): nat { if tx in m then m[tx] else 0 }

  /** One map of sums, accumulated coin by coin. */
  method SumPerTx(coins: seq<Coin>, key: Key) returns (sums: map<TxId, nat>)
    requires forall c | c in coins :: key(c).Some?
    ensures forall tx :: tx in sums <==> exists c | c in coins :: key(c) == Some(tx)
    ensures forall tx :: Or0(sums, tx) == SumOf(coins, key, tx)
  {
    sums := map[];
    var i := 0;
    while i < |coins|
      invariant 0 <= i <= |coins|
      invariant forall tx :: tx in sums <==> exists c | c in coins[..i] :: key(c) == Some(tx)
      invariant forall tx :: Or0(sums, tx) == SumOf(coins[..i], key, tx)
    {
      var c := coins[i];
      assert coins[..i + 1] == coins[..i] + [c];
      forall tx
        ensures SumOf(coins[..i + 1], key, tx) == SumOf(coins[..i], key, tx) + if key(c) == Some(tx) then c.value else 0
      {
        SumOfSnoc(coins[..i], c, key, tx);
      }
      var tx := key(c).value;
      sums := sums[tx := Or0(sums, tx) + c.value];
      i := i + 1;
    }
    assert coins[..i] == coins;
  }

  /** `received`: what the indexer lists at our scripts; `None` when no address of ours is an Ark address. */
  method SpentIntoOurWallet(spent: seq<Coin>, received: Option<seq<Coin>>) returns (whole: bool)
    ensures whole == (received.Some? && MadeWhole(spent, received.value))
  {
    if exists c | c in spent :: c.arkTxId.None? { return false; }
    var takenByTx := SumPerTx(spent, Spender());
    if received.None? { return false; }
    var receivedByTx := SumPerTx(received.value, Origin());
    assert forall tx :: tx in takenByTx <==> tx in SpendersOf(spent);
    assert forall tx | tx in takenByTx :: takenByTx[tx] == Or0(takenByTx, tx);
    return forall tx | tx in takenByTx :: Or0(receivedByTx, tx) >= takenByTx[tx];
  }

  lemma {:induction false} SumInSplit(coins: seq<Coin>, key: Key, txs: set<TxId>, tx: TxId)
    requires tx in txs
    ensures SumIn(coins, key, txs) == SumIn(coins, key, txs - {tx}) + SumOf(coins, key, tx)
  {
    if coins != [] { SumInSplit(coins[1..], key, txs, tx); }
  }

  lemma {:induction false} SumInNone(coins: seq<Coin>, key: Key)
    ensures SumIn(coins, key, {}) == 0
  {
    if coins != [] { SumInNone(coins[1..], key); }
  }

  lemma {:induction false} SumInAll(coins: seq<Coin>, key: Key, txs: set<TxId>)
    requires forall c | c in coins :: key(c).Some? && key(c).value in txs
    ensures SumIn(coins, key, txs) == Total(coins)
  {
    if coins != [] {
      assert coins[0] in coins;
      SumInAll(coins[1..], key, txs);
    }
  }

  lemma {:induction false} SumsDominate(spent: seq<Coin>, received: seq<Coin>, txs: set<TxId>)
    requires forall tx | tx in txs :: SumOf(received, Origin(), tx) >= SumOf(spent, Spender(), tx)
    ensures SumIn(spent, Spender(), txs) <= SumIn(received, Origin(), txs)
    decreases txs
  {
    if txs == {} {
      SumInNone(spent, Spender());
      SumInNone(received, Origin());
    } else {
      var tx :| tx in txs;
      SumsDominate(spent, received, txs - {tx});
      SumInSplit(spent, Spender(), txs, tx);
      SumInSplit(received, Origin(), txs, tx);
    }
  }

  /** All that left the lockup came back to us in the very transactions that took it, each output counted once. */
  lemma AttributionConserves(spent: seq<Coin>, received: seq<Coin>)
    requires MadeWhole(spent, received)
    ensures Total(spent) <= SumIn(received, Origin(), SpendersOf(spent))
    ensures SumIn(received, Origin(), SpendersOf(spent)) <= Total(received)
  {
    SumInAll(spent, Spender(), SpendersOf(spent));
    SumsDominate(spent, received, SpendersOf(spent));
    SumInAtMost(received, Origin(), SpendersOf(spent));
  }

  /** One spend and one payment: whole when the payment is from that spend and of at least its value. */
  lemma OnePayment(c: Coin, p: Coin)
    ensures MadeWhole([c], [p]) <==>
              c.arkTxId.Some? && (c.value == 0 || (c.arkTxId == Some(p.txid) && p.value >= c.value))
  {
    if c.arkTxId.Some? {
      var tx := c.arkTxId.value;
      assert SumOf([c], Spender(), tx) == c.value;
      assert SumOf([p], Origin(), tx) == if p.txid == tx then p.value else 0;
      assert c in [c] && tx in SpendersOf([c]);
      assert forall x | x in SpendersOf([c]) :: x == tx;
    } else {
      assert c in [c];
    }
  }

  lemma {:induction false} SumInAtMost(coins: seq<Coin>, key: Key, txs: set<TxId>)
    ensures SumIn(coins, key, txs) <= Total(coins)
  {
    if coins != [] { SumInAtMost(coins[1..], key, txs); }
  }

  lemma {:induction false} SumOfRemove(coins: seq<Coin>, i: nat, key: Key, tx: TxId)
    requires i < |coins|
    ensures SumOf(coins, key, tx)
         == SumOf(coins[..i] + coins[i + 1..], key, tx) + if key(coins[i]) == Some(tx) then coins[i].value else 0
  {
    if i == 0 {
      assert coins[..0] + coins[1..] == coins[1..];
    } else {
      SumOfRemove(coins[1..], i - 1, key, tx);
      assert coins[1..][..i - 1] + coins[1..][i..] == (coins[..i] + coins[i + 1..])[1..];
    }
  }

  /** Where the first coin of one order stands in the other; the rest are again the same coins. */
  lemma SamePlace(a: seq<Coin>, b: seq<Coin>) returns (i: nat)
    requires a != [] && multiset(a) == multiset(b)
    ensures i < |b| && b[i] == a[0] && multiset(a[1..]) == multiset(b[..i] + b[i + 1..])
  {
    assert a[0] in multiset(b);
    i :| 0 <= i < |b| && b[i] == a[0];
    var x, y := a[1..], b[..i] + b[i + 1..];
    assert a == [a[0]] + x;
    assert b == b[..i] + [b[i]] + b[i + 1..];
    assert multiset(b) == multiset(y) + multiset{a[0]};
    assert multiset(a) == multiset(x) + multiset{a[0]};
    assert multiset(x) == multiset(a) - multiset{a[0]};
  }

  lemma {:induction false} SumOfAnyOrder(a: seq<Coin>, b: seq<Coin>, key: Key, tx: TxId)
    requires multiset(a) == multiset(b)
    ensures SumOf(a, key, tx) == SumOf(b, key, tx)
  {
    if a == [] {
      assert |multiset(b)| == 0;
    } else {
      var i := SamePlace(a, b);
      SumOfAnyOrder(a[1..], b[..i] + b[i + 1..], key, tx);
      SumOfRemove(b, i, key, tx);
    }
  }

  /** The answer does not depend on the order of either list. */
  lemma AttributionIgnoresOrder(spent: seq<Coin>, spent': seq<Coin>, received: seq<Coin>, received': seq<Coin>)
    requires multiset(spent) == multiset(spent') && multiset(received) == multiset(received')
    ensures MadeWhole(spent, received) == MadeWhole(spent', received')
  {
    forall c ensures c in spent <==> c in spent' {
      assert c in spent <==> c in multiset(spent);
    }
    assert SpendersOf(spent) == SpendersOf(spent');
    forall tx
      ensures SumOf(spent, Spender(), tx) == SumOf(spent', Spender(), tx)
      ensures SumOf(received, Origin(), tx) == SumOf(received', Origin(), tx)
    {
      SumOfAnyOrder(spent, spent', Spender(), tx);
      SumOfAnyOrder(received, received', Origin(), tx);
    }
  }

  // ---- The guard ----

  /** One read of the indexer during an attempt: the lockup, our own scripts, and the clock at that moment. */
  datatype View = View(coins: seq<Coin>, received: Option<seq<Coin>>, tip: Option<int>, now: int)

  function Where(coins: seq<Coin>, spent: bool): seq<Coin> {
    if coins == [] then [] else (if coins[0].spent == spent then [coins[0]] else []) + Where(coins[1..], spent)
  }

  function Unspent(v: View): seq<Coin> { Where(v.coins, false) }

  function Spends(v: View): seq<Coin> { Where(v.coins, true) }

  /** The spends seen are our claim: they paid us in full, or the sender still cannot spend without us. */
  predicate ClaimedByUs(v: View, locktime: Option<int>) {
    && Spends(v) != []
    && ((v.received.Some? && MadeWhole(Spends(v), v.received.value)) || !MayBeReached(locktime, v.tip, v.now))
  }

  predicate Covered(v: View, expected: Option<nat>) { expected.None? || Total(Unspent(v)) >= expected.value }

  predicate Actionable(v: View, expected: Option<nat>, locktime: Option<int>) {
    Unspent(v) != [] && (Covered(v, expected) || ClaimedByUs(v, locktime))
  }

  datatype Decision = Claim(coins: seq<Coin>) | NoCoins | AlreadySpent | AmountMismatch

  function Decide(v: View, expected: Option<nat>, locktime: Option<int>): Decision {
    if Unspent(v) == [] then (if v.coins == [] then NoCoins else AlreadySpent)
    else if Actionable(v, expected, locktime) then Claim(Unspent(v))
    else AmountMismatch
  }

  /** The read an attempt acts on: the first actionable one, else the last. */
  function ActsOn(views: seq<View>, expected: Option<nat>, locktime: Option<int>): View
    requires views != []
  {
    if |views| == 1 || Actionable(views[0], expected, locktime) then views[0]
    else ActsOn(views[1..], expected, locktime)
  }

  const CLAIM_VTXO_RETRY_ATTEMPTS := 3

  method Split(coins: seq<Coin>) returns (unspent: seq<Coin>, spent: seq<Coin>, total: nat)
    ensures unspent == Where(coins, false) && spent == Where(coins, true) && total == Total(unspent)
  {
    unspent, spent, total := [], [], 0;
    var i := |coins|;
    while i > 0
      invariant 0 <= i <= |coins|
      invariant unspent == Where(coins[i..], false) && spent == Where(coins[i..], true) && total == Total(unspent)
    {
      i := i - 1;
      if coins[i].spent {
        spent := [coins[i]] + spent;
      } else {
        unspent, total := [coins[i]] + unspent, coins[i].value + total;
      }
    }
  }

  /** One pass of the loop: what is unspent, what it adds up to, and whether spends of ours excuse a shortfall. */
  method ReadLockup(v: View, expected: Option<nat>, locktime: Option<int>)
    returns (unspent: seq<Coin>, total: nat, covered: bool, partiallyClaimed: bool)
    ensures unspent == Unspent(v) && total == Total(unspent) && covered == Covered(v, expected)
    ensures partiallyClaimed == (!covered && ClaimedByUs(v, locktime))
  {
    var spent: seq<Coin>;
    unspent, spent, total := Split(v.coins);
    covered := expected.None? || total >= expected.value;
    partiallyClaimed := false;
    if !covered { partiallyClaimed := LockupClaimedByUs(v, spent, locktime); }
  }

  /** The retry loop and the guard after it; `views` are the answers the reads will get. */
  method ClaimVHTLC(views: seq<View>, expected: Option<nat>, locktime: Option<int>) returns (decision: Decision)
    requires |views| == 3
    ensures decision == Decide(ActsOn(views, expected, locktime), expected, locktime)
  {
    var v := views[0];
    var unspent, total, covered, partiallyClaimed := ReadLockup(v, expected, locktime);
    var attempt := 1;
    while attempt < CLAIM_VTXO_RETRY_ATTEMPTS && !(|unspent| > 0 && (covered || partiallyClaimed))
      invariant 1 <= attempt <= CLAIM_VTXO_RETRY_ATTEMPTS && v == views[attempt - 1]
      invariant unspent == Unspent(v) && total == Total(unspent) && covered == Covered(v, expected)
      invariant partiallyClaimed == (!covered && ClaimedByUs(v, locktime))
      invariant ActsOn(views, expected, locktime) == ActsOn(views[attempt - 1..], expected, locktime)
    {
      v := views[attempt];
      unspent, total, covered, partiallyClaimed := ReadLockup(v, expected, locktime);
      attempt := attempt + 1;
    }
    assert ActsOn(views, expected, locktime) == v;
    if |unspent| == 0 { return if |v.coins| == 0 then NoCoins else AlreadySpent; }
    if expected.Some? && !partiallyClaimed && total < expected.value { return AmountMismatch; }
    return Claim(unspent);
  }

  method LockupClaimedByUs(v: View, spent: seq<Coin>, locktime: Option<int>) returns (ours: bool)
    requires spent == Spends(v)
    ensures ours == ClaimedByUs(v, locktime)
  {
    if |spent| == 0 { return false; }
    var whole := SpentIntoOurWallet(spent, v.received);
    if whole { return true; }
    return !MayBeReached(locktime, v.tip, v.now);
  }

  // ---- Any number of attempts ----

  /** One call: the answers its reads get, and whether anything it submits reaches the server. */
  datatype Attempt = Attempt(views: seq<View>, submitted: bool)

  /** What a call works with: the agreed amount, if one is on record, and the sender's refund locktime. */
  datatype Terms = Terms(expected: Option<nat>, locktime: Option<int>)

  function Outcome(a: Attempt, t: Terms): Decision
    requires a.views != []
  {
    Decide(ActsOn(a.views, t.expected, t.locktime), t.expected, t.locktime)
  }

  predicate Discloses(a: Attempt, t: Terms) { a.views != [] && a.submitted && Outcome(a, t).Claim? }

  /** Whether the preimage is out after these attempts. */
  predicate Disclosed(attempts: seq<Attempt>, t: Terms) { exists a | a in attempts :: Discloses(a, t) }

  /**
   The sender's refund locktime is known to be still ahead, in plain integers: a height needs a known
   tip below it, and a swap without a locktime is never known to be locked.
   */
  predicate SenderLockedOut(v: View, t: Terms) {
    && t.locktime.Some?
    && if t.locktime.value < 500_000_000 then v.tip.Some? && v.tip.value < t.locktime.value
       else v.now < t.locktime.value
  }

  /** While the sender cannot spend, only our claim can: a spend seen then was preceded by a disclosure. */
  ghost predicate OnlyOurs(attempts: seq<Attempt>, t: Terms) {
    attempts == [] ||
    (var front, last := attempts[..|attempts| - 1], attempts[|attempts| - 1];
     && OnlyOurs(front, t)
     && forall v | v in last.views && Spends(v) != [] && SenderLockedOut(v, t) :: Disclosed(front, t))
  }

  lemma {:induction false} ActsOnOneOf(views: seq<View>, t: Terms)
    requires views != []
    ensures var v := ActsOn(views, t.expected, t.locktime);
            v in views && (v == views[|views| - 1] || Actionable(v, t.expected, t.locktime))
  {
    if |views| > 1 { ActsOnOneOf(views[1..], t); }
  }

  /** The first attempt that discloses, if any does. */
  lemma {:induction false} FirstDisclosure(attempts: seq<Attempt>, t: Terms) returns (k: nat)
    requires Disclosed(attempts, t)
    ensures k < |attempts| && Discloses(attempts[k], t) && !Disclosed(attempts[..k], t)
  {
    var front := attempts[..|attempts| - 1];
    if Disclosed(front, t) {
      k := FirstDisclosure(front, t);
      assert attempts[..k] == front[..k];
    } else {
      k := |attempts| - 1;
    }
  }

  lemma {:induction false} OnlyOursPrefix(attempts: seq<Attempt>, t: Terms, k: nat)
    requires OnlyOurs(attempts, t) && k <= |attempts|
    ensures OnlyOurs(attempts[..k], t)
  {
    if k < |attempts| {
      OnlyOursPrefix(attempts[..|attempts| - 1], t, k);
      assert attempts[..|attempts| - 1][..k] == attempts[..k];
    } else {
      assert attempts[..k] == attempts;
    }
  }

  /** What the guard grants when the preimage is not out yet. */
  ghost predicate Earned(v: View, t: Terms) {
    || t.expected.None? || Total(Unspent(v)) >= t.expected.value
    || (&& !SenderLockedOut(v, t) && Spends(v) != [] && v.received.Some?
        && Total(Spends(v)) <= SumIn(v.received.value, Origin(), SpendersOf(Spends(v))))
  }

  /**
   The preimage first leaves on a read whose unspent coins cover the agreed amount; the one way
   around that is a lockup past its refund locktime whose every spend paid us what it took.
   */
  lemma FirstDisclosureIsCovered(attempts: seq<Attempt>, t: Terms) returns (k: nat, v: View)
    requires OnlyOurs(attempts, t) && Disclosed(attempts, t)
    ensures k < |attempts| && Discloses(attempts[k], t) && !Disclosed(attempts[..k], t)
    ensures v in attempts[k].views && Outcome(attempts[k], t) == Claim(Unspent(v)) && Unspent(v) != []
    ensures Earned(v, t)
  {
    k := FirstDisclosure(attempts, t);
    v := ActsOn(attempts[k].views, t.expected, t.locktime);
    ActsOnOneOf(attempts[k].views, t);
    OnlyOursPrefix(attempts, t, k + 1);
    assert attempts[..k + 1][..k] == attempts[..k] && attempts[..k + 1][k] == attempts[k];
    if !Covered(v, t.expected) && v.received.Some? && MadeWhole(Spends(v), v.received.value) {
      AttributionConserves(Spends(v), v.received.value);
    }
  }

  /** The spends a read shows paid us what they took. */
  predicate PaidUs(v: View) { v.received.Some? && MadeWhole(Spends(v), v.received.value) }

  /**
   What each decision means. Refused for its amount, exactly when coins fall short of the agreed amount
   and no spend is known to be ours: neither paid to us, nor made while the sender was locked out.
   */
  lemma RefusedForAmountIff(v: View, t: Terms)
    ensures Decide(v, t.expected, t.locktime) == AmountMismatch <==>
              && Unspent(v) != [] && t.expected.Some? && Total(Unspent(v)) < t.expected.value
              && ((forall c | c in v.coins :: !c.spent) || (!PaidUs(v) && !SenderLockedOut(v, t)))
    ensures Decide(v, t.expected, t.locktime) == NoCoins <==> v.coins == []
    ensures Decide(v, t.expected, t.locktime) == AlreadySpent <==> v.coins != [] && forall c | c in v.coins :: c.spent
    ensures Decide(v, t.expected, t.locktime).Claim? ==> Decide(v, t.expected, t.locktime) == Claim(Unspent(v))
  {
    WhereContents(v.coins, false);
    WhereContents(v.coins, true);
    if Spends(v) != [] { assert Spends(v)[0] in Spends(v); }
    if v.coins != [] { assert v.coins[0] in v.coins; }
    if Unspent(v) != [] { assert Unspent(v)[0] in Unspent(v); }
  }

  lemma {:induction false} WhereContents(coins: seq<Coin>, spent: bool)
    ensures forall c :: c in Where(coins, spent) <==> c in coins && c.spent == spent
  {
    if coins != [] {
      WhereContents(coins[1..], spent);
      assert coins[0] in coins && forall c | c in coins :: c == coins[0] || c in coins[1..];
    }
  }

  /**
   What cannot be established does not excuse a shortfall: with no locktime on record, or a height and
   no tip, an attempt whose reads all fall short and show no spend that made us whole is refused.
   */
  lemma UnknownLocktimeRefuses(a: Attempt, t: Terms)
    requires a.views != [] && t.expected.Some?
    requires forall v | v in a.views :: Unspent(v) != [] && Total(Unspent(v)) < t.expected.value && !PaidUs(v)
    requires t.locktime.None? || (t.locktime.value < 500_000_000 && forall v | v in a.views :: v.tip.None?)
    ensures Outcome(a, t) == AmountMismatch
  {
    ActsOnOneOf(a.views, t);
    RefusedForAmountIff(ActsOn(a.views, t.expected, t.locktime), t);
  }

  /** Once the last read shows a spend while the sender is locked out, the attempt is not refused for its amount. */
  lemma RemainderNeverRefused(a: Attempt, t: Terms)
    requires a.views != []
    requires var v := a.views[|a.views| - 1]; Spends(v) != [] && SenderLockedOut(v, t)
    ensures Outcome(a, t) != AmountMismatch
  {
    ActsOnOneOf(a.views, t);
  }
}
