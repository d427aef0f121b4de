/**
 Coverage: which offer scripts the wallet watches. Promotions and retirements of one script are
 queued behind each other, and a mark protects an address that was handed out and not yet funded.
 */
module Coverage {
  import opened Common

  type Script = string

  datatype Status =
    | Pending | Cancelling | Fulfilled | Cancelled | Recoverable
    | AwaitingFill | Claimable | Claimed | RefundedL1

  datatype Swap = Swap(swapPkScript: Script, status: Status, createdAt: int)

  datatype Watch = Watched | Retained

  datatype Job = Promote | Retire(swaps: seq<Swap>)

  /** `Writing`: decided, and waiting for the contract manager to answer. */
  datatype Phase = Waiting | Writing | Settled

  /** One queued coverage change; `after` is the change whose promise it was chained to. */
  datatype Change = Change(script: Script, job: Job, after: Option<nat>, phase: Phase)

  /** The last address handed out at a script: when, and by which change. */
  datatype Issue = Issue(at: int, change: nat)

  /** `changes` lists every call in the order of the calls; `issues` is history. */
  datatype State = State(changes: seq<Change>, inFlight: map<Script, nat>, issuedAt: map<Script, int>,
                         watch: map<Script, Watch>, issues: map<Script, Issue>)

  predicate Live(swaps: seq<Swap>, script: Script) {
    exists s | s in swaps :: s.swapPkScript == script && s.status != Fulfilled && s.status != Cancelled
  }

  predicate FundedSince(swaps: seq<Swap>, script: Script, issued: int) {
    exists s | s in swaps :: s.swapPkScript == script && s.createdAt >= issued
  }

  // ---- Steps ----

  datatype Step =
    | Call(script: Script, job: Job)
    | Begin(id: nat)
    | Answer(id: nat, landed: bool, ok: bool, now: int)
    | Drop(id: nat)

  function InFlight(s: State, script: Script): Option<nat> {
    if script in s.inFlight then Some(s.inFlight[script]) else None
  }

  function Called(s: State, script: Script, job: Job): State {
    s.(changes := s.changes + [Change(script, job, InFlight(s, script), Waiting)],
        inFlight := s.inFlight[script := |s.changes|])
  }

  /** A change runs once the one it was chained to has settled, however that one ended. */
  predicate CanBegin(s: State, id: nat) {
    && id < |s.changes| && s.changes[id].phase == Waiting
    && match s.changes[id].after
       case None => true
       case Some(p) => p < |s.changes| && s.changes[p].phase == Settled
  }

  /** The phases a change goes through; nothing leaves `Settled`. */
  predicate Forward(a: Phase, b: Phase) { (a == Waiting && b != Waiting) || (a == Writing && b == Settled) }

  function Moved(q: seq<Change>, id: nat, p: Phase): (r: seq<Change>)
    requires id < |q| && Forward(q[id].phase, p)
    ensures |r| == |q| && forall i | 0 <= i < |q| :: r[i] == if i == id then q[id].(phase := p) else q[i]
  {
    q[id := q[id].(phase := p)]
  }

  function InPhase(s: State, id: nat, p: Phase): State
    requires id < |s.changes| && Forward(s.changes[id].phase, p)
  {
    s.(changes := Moved(s.changes, id, p))
  }

  function Began(s: State, id: nat): State
    requires CanBegin(s, id)
  {
    var t := s.changes[id];
    if t.job.Promote? then InPhase(s, id, Writing)
    else if Live(t.job.swaps, t.script) then InPhase(s, id, Settled)
    else if t.script !in s.issuedAt then InPhase(s, id, Writing)
    else if FundedSince(t.job.swaps, t.script, s.issuedAt[t.script])
    then InPhase(s, id, Writing).(issuedAt := s.issuedAt - {t.script})
    else InPhase(s, id, Settled)
  }

  predicate CanAnswer(s: State, id: nat, landed: bool, ok: bool) {
    id < |s.changes| && s.changes[id].phase == Writing && (ok ==> landed)
  }

  /** The manager's answer. A write that reports failure may or may not have landed. */
  function Answered(s: State, id: nat, landed: bool, ok: bool, now: int): State
    requires CanAnswer(s, id, landed, ok)
  {
    var t := s.changes[id];
    var state := if t.job.Promote? then Watched else Retained;
    var written := if landed then InPhase(s, id, Settled).(watch := s.watch[t.script := state])
        else InPhase(s, id, Settled);
    if ok && t.job.Promote?
    then written.(issuedAt := s.issuedAt[t.script := now], issues := s.issues[t.script := Issue(now, id)])
    else written
  }

  predicate CanDrop(s: State, id: nat) {
    id < |s.changes| && s.changes[id].phase == Settled
  }

  /** The clean-up after a settled change: only the tail of a queue drops the queue. */
  function Dropped(s: State, id: nat): State
    requires CanDrop(s, id)
  {
    if InFlight(s, s.changes[id].script) == Some(id) then s.(inFlight := s.inFlight - {s.changes[id].script}) else s
  }

  predicate Enabled(s: State, step: Step) {
    match step
    case Call(_, _) => true
    case Begin(id) => CanBegin(s, id)
    case Answer(id, landed, ok, _) => CanAnswer(s, id, landed, ok)
    case Drop(id) => CanDrop(s, id)
  }

  function Next(s: State, step: Step): State
    requires Enabled(s, step)
  {
    match step
    case Call(script, job) => Called(s, script, job)
    case Begin(id) => Began(s, id)
    case Answer(id, landed, ok, now) => Answered(s, id, landed, ok, now)
    case Drop(id) => Dropped(s, id)
  }

  /** A process starts with the rows it finds and nothing queued. */
  function Start(rows: map<Script, Watch>): State { State([], map[], map[], rows, map[]) }

  /** The state after a run; `None` when some step of it was not possible. */
  function After(rows: map<Script, Watch>, steps: seq<Step>): Option<State> {
    if steps == [] then Some(Start(rows))
    else
      var before := After(rows, steps[..|steps| - 1]);
      if before.Some? && Enabled(before.value, steps[|steps| - 1]) then Some(Next(before.value, steps[|steps| - 1]))
          else None
  }

  /**
   Which steps can come next, in plain fields: a call always; a change once the one it was chained to
   has settled; any answer to a write, but that none succeeds without landing; a clean-up once settled.
   */
  lemma PossibleIff(s: State, step: Step)
    ensures Enabled(s, step) <==>
              match step
              case Call(_, _) => true
              case Begin(id) =>
                && id < |s.changes| && s.changes[id].phase == Waiting
                && (s.changes[id].after.None? || (var p := s.changes[id].after.value;
                                                  p < |s.changes| && s.changes[p].phase == Settled))
              case Answer(id, landed, ok, _) =>
                id < |s.changes| && s.changes[id].phase == Writing && (landed || !ok)
              case Drop(id) => id < |s.changes| && s.changes[id].phase == Settled
  {
  }

  /** Every possible step goes on with a run, and nothing else does. */
  lemma RunGoesOn(rows: map<Script, Watch>, steps: seq<Step>, step: Step)
    ensures After(rows, []) == Some(Start(rows))
    ensures
      var before := After(rows, steps);
      After(rows, steps + [step]) ==
        if before.Some? && Enabled(before.value, step) then Some(Next(before.value, step)) else None
  {
    assert (steps + [step])[..|steps|] == steps;
  }

  // ---- The queue ----

  ghost predicate Chained(q: seq<Change>, j: nat)
    requires j < |q|
  {
    match q[j].after
    case None => forall i | 0 <= i < j && q[i].script == q[j].script :: q[i].phase == Settled
    case Some(p) => p < j && q[p].script == q[j].script && forall i | p < i < j :: q[i].script != q[j].script
  }

  ghost predicate Tail(q: seq<Change>, script: Script, p: nat) {
    p < |q| && q[p].script == script && forall i | p < i < |q| :: q[i].script != script
  }

  ghost predicate Chains(q: seq<Change>, inFlight: map<Script, nat>) {
    && (forall j | 0 <= j < |q| :: Chained(q, j))
    && (forall script | script in inFlight :: Tail(q, script, inFlight[script]))
    && (forall i | 0 <= i < |q| && q[i].script !in inFlight :: q[i].phase == Settled)
  }

  /** Changes of one script run one at a time, in the order they were asked for. */
  ghost predicate InOrder(q: seq<Change>) {
    forall i, j | 0 <= i < j < |q| && q[i].script == q[j].script && q[j].phase != Waiting :: q[i].phase == Settled
  }

  lemma ChainsCalled(q: seq<Change>, inFlight: map<Script, nat>, script: Script, job: Job)
    requires Chains(q, inFlight)
    ensures
      var after := if script in inFlight then Some(inFlight[script]) else None;
      Chains(q + [Change(script, job, after, Waiting)], inFlight[script := |q|])
  {
    var after := if script in inFlight then Some(inFlight[script]) else None;
    var n := q + [Change(script, job, after, Waiting)];
    forall j | 0 <= j < |n| ensures Chained(n, j) {
      if j < |q| { assert Chained(q, j); }
    }
  }

  lemma ChainsMoved(q: seq<Change>, inFlight: map<Script, nat>, id: nat, p: Phase)
    requires Chains(q, inFlight) && id < |q| && Forward(q[id].phase, p)
    ensures Chains(Moved(q, id, p), inFlight)
  {
    var n := Moved(q, id, p);
    forall j | 0 <= j < |n| ensures Chained(n, j) {
      assert Chained(q, j);
    }
  }

  /** When the tail of a queue has settled, so has the rest of the queue. */
  lemma ChainsDropped(q: seq<Change>, inFlight: map<Script, nat>, script: Script)
    requires Chains(q, inFlight) && InOrder(q) && script in inFlight && q[inFlight[script]].phase == Settled
    ensures Chains(q, inFlight - {script})
  {
  }

  lemma InOrderBegin(q: seq<Change>, inFlight: map<Script, nat>, id: nat, p: Phase)
    requires Chains(q, inFlight) && InOrder(q) && id < |q| && Forward(q[id].phase, p)
    requires q[id].phase == Waiting ==>
               q[id].after.None? || (assert Chained(q, id); q[q[id].after.value].phase == Settled)
    ensures InOrder(Moved(q, id, p))
  {
    assert Chained(q, id);
  }

  // ---- The mark and the watch state ----

  /** A mark is an issuance no record has answered yet, and its script is watched. */
  ghost predicate MarksWatched(issuedAt: map<Script, int>, watch: map<Script, Watch>, issues: map<Script, Issue>) {
    forall k | k in issuedAt :: k in watch && watch[k] == Watched && k in issues && issues[k].at == issuedAt[k]
  }

  ghost predicate IssuesKnown(q: seq<Change>, issues: map<Script, Issue>) {
    forall k | k in issues ::
      var c := issues[k].change;
      c < |q| && q[c].script == k && q[c].job.Promote? && q[c].phase == Settled
  }

  /** Every record at the script is done with, in the two statuses in which nothing is left there. */
  ghost predicate AllDone(swaps: seq<Swap>, k: Script) {
    forall s | s in swaps && s.swapPkScript == k :: s.status == Fulfilled || s.status == Cancelled
  }

  /** Some record at the script was created at that time or after it. */
  ghost predicate RecordSince(swaps: seq<Swap>, k: Script, at: int) {
    exists s | s in swaps && s.swapPkScript == k :: s.createdAt >= at
  }

  /** A retirement waiting for its write has found everything done and no mark. */
  ghost predicate RetiresDecided(q: seq<Change>, issuedAt: map<Script, int>) {
    forall i | 0 <= i < |q| && q[i].job.Retire? && q[i].phase == Writing ::
      q[i].script !in issuedAt && AllDone(q[i].job.swaps, q[i].script)
  }

  /** Change `i` began after the last issuance at `k` and held a record at least as recent. */
  ghost predicate SawDeposit(q: seq<Change>, issue: Issue, k: Script, i: nat) {
    && issue.change < i < |q| && q[i].script == k && q[i].job.Retire? && q[i].phase != Waiting
    && RecordSince(q[i].job.swaps, k, issue.at)
  }

  ghost predicate Deposited(q: seq<Change>, issue: Issue, k: Script) { exists i: nat :: SawDeposit(q, issue, k, i) }

  /** Change `j` retired `k`: later than change `from`, over a list in which everything there is done. */
  ghost predicate RetiredBy(q: seq<Change>, from: int, k: Script, j: nat) {
    from < j < |q| && q[j].script == k && q[j].job.Retire? && q[j].phase == Settled && AllDone(q[j].job.swaps, k)
  }

  function IssuedBy(issues: map<Script, Issue>, k: Script): int { if k in issues then issues[k].change else -1 }

  ghost predicate Retirement(q: seq<Change>, from: int, k: Script) { exists j: nat :: RetiredBy(q, from, k, j) }

  ghost predicate MarksEarned(q: seq<Change>, issuedAt: map<Script, int>, issues: map<Script, Issue>) {
    forall k | k in issues && k !in issuedAt :: Deposited(q, issues[k], k)
  }

  ghost predicate RetiresEarned(rows: map<Script, Watch>, q: seq<Change>, watch: map<Script, Watch>,
      issues: map<Script, Issue>)
  {
    forall k | k in watch && watch[k] == Retained ::
      Retirement(q, IssuedBy(issues, k), k) || (k in rows && rows[k] == Retained && k !in issues)
  }

  ghost predicate Queued(s: State) { Chains(s.changes, s.inFlight) && InOrder(s.changes) }

  ghost predicate Marked(s: State) {
    MarksWatched(s.issuedAt, s.watch, s.issues) && IssuesKnown(s.changes, s.issues)
        && RetiresDecided(s.changes, s.issuedAt)
  }

  ghost predicate Earned(rows: map<Script, Watch>, s: State) {
    MarksEarned(s.changes, s.issuedAt, s.issues) && RetiresEarned(rows, s.changes, s.watch, s.issues)
  }

  ghost predicate Inv(rows: map<Script, Watch>, s: State) { Queued(s) && Marked(s) && Earned(rows, s) }

  // ---- Each step keeps them ----

  /** `n` continues `q`: nothing settled is undone, nothing begun is forgotten. */
  ghost predicate Continues(q: seq<Change>, n: seq<Change>) {
    && |q| <= |n|
    && forall i | 0 <= i < |q| ::
         && n[i].script == q[i].script && n[i].job == q[i].job
         && (n[i].phase == q[i].phase || Forward(q[i].phase, n[i].phase))
  }

  lemma MarksEarnedContinue(q: seq<Change>, n: seq<Change>, issuedAt: map<Script, int>, issues: map<Script, Issue>)
    requires MarksEarned(q, issuedAt, issues) && Continues(q, n)
    ensures MarksEarned(n, issuedAt, issues)
  {
    forall k | k in issues && k !in issuedAt ensures Deposited(n, issues[k], k) {
      var i: nat :| SawDeposit(q, issues[k], k, i);
      assert SawDeposit(n, issues[k], k, i);
    }
  }

  lemma RetiresEarnedContinue(rows: map<Script, Watch>, q: seq<Change>, n: seq<Change>, watch: map<Script, Watch>,
      issues: map<Script, Issue>)
    requires RetiresEarned(rows, q, watch, issues) && Continues(q, n)
    ensures RetiresEarned(rows, n, watch, issues)
  {
    forall k | k in watch && watch[k] == Retained && Retirement(q, IssuedBy(issues, k), k)
      ensures Retirement(n, IssuedBy(issues, k), k)
    {
      var j: nat :| RetiredBy(q, IssuedBy(issues, k), k, j);
      assert RetiredBy(n, IssuedBy(issues, k), k, j);
    }
  }

  /** A change that has begun and is not settled is later than the last issuance at its script. */
  lemma LaterThanIssue(q: seq<Change>, issues: map<Script, Issue>, id: nat)
    requires InOrder(q) && IssuesKnown(q, issues) && id < |q| && q[id].phase != Settled
    ensures IssuedBy(issues, q[id].script) < id
  {
  }

  lemma CalledMarked(s: State, script: Script, job: Job)
    requires Marked(s)
    ensures Marked(Called(s, script, job)) && Continues(s.changes, Called(s, script, job).changes)
  {
  }

  lemma CalledQueued(s: State, script: Script, job: Job)
    requires Queued(s)
    ensures Queued(Called(s, script, job))
  {
    ChainsCalled(s.changes, s.inFlight, script, job);
  }

  lemma CalledKeeps(rows: map<Script, Watch>, s: State, script: Script, job: Job)
    requires Inv(rows, s)
    ensures Inv(rows, Called(s, script, job))
  {
    CalledQueued(s, script, job);
    CalledMarked(s, script, job);
    EarnedContinue(rows, s, Called(s, script, job));
  }

  lemma EarnedContinue(rows: map<Script, Watch>, s: State, n: State)
    requires Earned(rows, s) && Continues(s.changes, n.changes) && s.issuedAt == n.issuedAt && s.watch == n.watch
        && s.issues == n.issues
    ensures Earned(rows, n)
  {
    MarksEarnedContinue(s.changes, n.changes, s.issuedAt, s.issues);
    RetiresEarnedContinue(rows, s.changes, n.changes, s.watch, s.issues);
  }

  lemma DroppedKeeps(rows: map<Script, Watch>, s: State, id: nat)
    requires Inv(rows, s) && CanDrop(s, id)
    ensures Inv(rows, Dropped(s, id))
  {
    var script := s.changes[id].script;
    if InFlight(s, script) == Some(id) { ChainsDropped(s.changes, s.inFlight, script); }
  }

  lemma PhaseKeepsQueue(s: State, id: nat, p: Phase)
    requires Queued(s) && (CanBegin(s, id) || CanAnswer(s, id, true, true)) && Forward(s.changes[id].phase, p)
    ensures Queued(InPhase(s, id, p)) && Continues(s.changes, InPhase(s, id, p).changes)
  {
    ChainsMoved(s.changes, s.inFlight, id, p);
    InOrderBegin(s.changes, s.inFlight, id, p);
  }

  /** A retirement that finds the deposit takes the mark away and goes on to write. */
  lemma UnmarkKeeps(rows: map<Script, Watch>, s: State, id: nat)
    requires Inv(rows, s) && CanBegin(s, id) && s.changes[id].job.Retire? && s.changes[id].script in s.issuedAt
    requires FundedSince(s.changes[id].job.swaps, s.changes[id].script, s.issuedAt[s.changes[id].script])
    requires !Live(s.changes[id].job.swaps, s.changes[id].script)
    ensures Inv(rows, InPhase(s, id, Writing).(issuedAt := s.issuedAt - {s.changes[id].script}))
  {
    var n := InPhase(s, id, Writing);
    PhaseKeepsQueue(s, id, Writing);
    EarnedContinue(rows, s, n);
    LaterThanIssue(s.changes, s.issues, id);
    var k := s.changes[id].script;
    assert SawDeposit(n.changes, n.issues[k], k, id);
  }

  /** Moving a change on, with the mark where it is. */
  lemma PhaseKeeps(rows: map<Script, Watch>, s: State, id: nat, p: Phase)
    requires Inv(rows, s) && (CanBegin(s, id) || CanAnswer(s, id, true, true)) && Forward(s.changes[id].phase, p)
    requires p == Writing && s.changes[id].job.Retire? ==>
               s.changes[id].script !in s.issuedAt && AllDone(s.changes[id].job.swaps, s.changes[id].script)
    ensures Inv(rows, InPhase(s, id, p))
  {
    PhaseKeepsQueue(s, id, p);
    EarnedContinue(rows, s, InPhase(s, id, p));
    PhaseKeepsMarked(s, id, p);
  }

  lemma PhaseKeepsMarked(s: State, id: nat, p: Phase)
    requires Marked(s) && id < |s.changes| && Forward(s.changes[id].phase, p)
    requires p == Writing && s.changes[id].job.Retire? ==>
               s.changes[id].script !in s.issuedAt && AllDone(s.changes[id].job.swaps, s.changes[id].script)
    ensures Marked(InPhase(s, id, p))
  {
  }

  lemma BeganKeeps(rows: map<Script, Watch>, s: State, id: nat)
    requires Inv(rows, s) && CanBegin(s, id)
    ensures Inv(rows, Began(s, id))
  {
    var t := s.changes[id];
    if t.job.Promote? {
      PhaseKeeps(rows, s, id, Writing);
    } else if Live(t.job.swaps, t.script) {
      PhaseKeeps(rows, s, id, Settled);
    } else if t.script !in s.issuedAt {
      PhaseKeeps(rows, s, id, Writing);
    } else if FundedSince(t.job.swaps, t.script, s.issuedAt[t.script]) {
      UnmarkKeeps(rows, s, id);
    } else {
      PhaseKeeps(rows, s, id, Settled);
    }
  }

  /** Writing `watched`, whatever the answer. */
  lemma WatchKeeps(rows: map<Script, Watch>, s: State, k: Script)
    requires Inv(rows, s)
    ensures Inv(rows, s.(watch := s.watch[k := Watched]))
  {
  }

  function Issued(s: State, k: Script, id: nat, now: int): State {
    s.(issuedAt := s.issuedAt[k := now], issues := s.issues[k := Issue(now, id)])
  }

  lemma IssueMarked(s: State, id: nat, now: int)
    requires Marked(s) && id < |s.changes| && s.changes[id].job.Promote? && s.changes[id].phase == Settled
    requires s.changes[id].script in s.watch && s.watch[s.changes[id].script] == Watched
    requires forall i | 0 <= i < |s.changes| && s.changes[i].script == s.changes[id].script ::
        s.changes[i].phase != Writing
    ensures Marked(Issued(s, s.changes[id].script, id, now))
  {
    var n := Issued(s, s.changes[id].script, id, now);
    assert MarksWatched(n.issuedAt, n.watch, n.issues);
    assert IssuesKnown(n.changes, n.issues);
    assert RetiresDecided(n.changes, n.issuedAt);
  }

  lemma IssueEarned(rows: map<Script, Watch>, s: State, k: Script, id: nat, now: int)
    requires Earned(rows, s) && k in s.watch && s.watch[k] == Watched
    ensures Earned(rows, Issued(s, k, id, now))
  {
    var n := Issued(s, k, id, now);
    forall j | j in n.watch && n.watch[j] == Retained
      ensures Retirement(n.changes, IssuedBy(n.issues, j), j) || (j in rows && rows[j] == Retained && j !in n.issues)
    {
      assert IssuedBy(n.issues, j) == IssuedBy(s.issues, j);
    }
    forall j | j in n.issues && j !in n.issuedAt ensures Deposited(n.changes, n.issues[j], j) {
      assert j in s.issues && j !in s.issuedAt && n.issues[j] == s.issues[j];
    }
  }

  /** Handing out an address of a watched script, with no change of it left running. */
  lemma IssueKeeps(rows: map<Script, Watch>, s: State, id: nat, now: int)
    requires Inv(rows, s) && id < |s.changes| && s.changes[id].job.Promote? && s.changes[id].phase == Settled
    requires s.changes[id].script in s.watch && s.watch[s.changes[id].script] == Watched
    requires forall i | 0 <= i < |s.changes| && s.changes[i].script == s.changes[id].script ::
        s.changes[i].phase != Writing
    ensures Inv(rows, Issued(s, s.changes[id].script, id, now))
  {
    IssueMarked(s, id, now);
    IssueEarned(rows, s, s.changes[id].script, id, now);
  }

  /** Nothing else of a script is being written when one of its changes gets its answer. */
  lemma AloneWriting(q: seq<Change>, id: nat)
    requires InOrder(q) && id < |q| && q[id].phase == Writing
    ensures forall i | 0 <= i < |q| && q[i].script == q[id].script && q[i].phase == Writing :: i == id
  {
  }

  lemma PromotedKeeps(rows: map<Script, Watch>, s: State, id: nat, landed: bool, ok: bool, now: int)
    requires Inv(rows, s) && CanAnswer(s, id, landed, ok) && s.changes[id].job.Promote?
    ensures Inv(rows, Answered(s, id, landed, ok, now))
  {
    PhaseKeeps(rows, s, id, Settled);
    AloneWriting(s.changes, id);
    if landed { WatchKeeps(rows, InPhase(s, id, Settled), s.changes[id].script); }
    if ok { IssueKeeps(rows, InPhase(s, id, Settled).(watch := s.watch[s.changes[id].script := Watched]), id, now); }
  }

  /** Writing `retained` after a settled retirement that is later than the last issuance. */
  lemma RetainKeeps(rows: map<Script, Watch>, s: State, id: nat)
    requires Inv(rows, s) && id < |s.changes| && s.changes[id].script !in s.issuedAt
    requires RetiredBy(s.changes, IssuedBy(s.issues, s.changes[id].script), s.changes[id].script, id)
    ensures Inv(rows, s.(watch := s.watch[s.changes[id].script := Retained]))
  {
  }

  lemma RetiredKeeps(rows: map<Script, Watch>, s: State, id: nat, landed: bool, ok: bool, now: int)
    requires Inv(rows, s) && CanAnswer(s, id, landed, ok) && s.changes[id].job.Retire?
    ensures Inv(rows, Answered(s, id, landed, ok, now))
  {
    PhaseKeeps(rows, s, id, Settled);
    LaterThanIssue(s.changes, s.issues, id);
    if landed { RetainKeeps(rows, InPhase(s, id, Settled), id); }
  }

  lemma {:induction false} ReachableInv(rows: map<Script, Watch>, steps: seq<Step>)
    requires After(rows, steps).Some?
    ensures Inv(rows, After(rows, steps).value)
  {
    if steps != [] {
      var before := After(rows, steps[..|steps| - 1]).value;
      ReachableInv(rows, steps[..|steps| - 1]);
      match steps[|steps| - 1]
      case Call(script, job) => CalledKeeps(rows, before, script, job);
      case Begin(id) => BeganKeeps(rows, before, id);
      case Answer(id, landed, ok, now) =>
        if before.changes[id].job.Promote? {
          PromotedKeeps(rows, before, id, landed, ok, now);
        } else {
          RetiredKeeps(rows, before, id, landed, ok, now);
        }
      case Drop(id) => DroppedKeeps(rows, before, id);
    }
  }

  // ---- What a caller may rely on ----

  /** One change of a script at a time, in the order of the calls, however the earlier ones ended. */
  lemma OneAtATime(rows: map<Script, Watch>, steps: seq<Step>, i: nat, j: nat)
    requires After(rows, steps).Some? && i < j < |After(rows, steps).value.changes|
    ensures
      var q := After(rows, steps).value.changes;
      q[i].script == q[j].script && q[j].phase != Waiting ==> q[i].phase == Settled
  {
    ReachableInv(rows, steps);
  }

  lemma FirstMayBegin(s: State, id: nat)
    requires Chains(s.changes, s.inFlight) && id < |s.changes| && s.changes[id].phase == Waiting
    requires forall i | 0 <= i < id && s.changes[i].script == s.changes[id].script :: s.changes[i].phase == Settled
    ensures CanBegin(s, id)
  {
    assert Chained(s.changes, id);
  }

  /** The queue never stalls: the first unsettled change of a script is being written or may begin. */
  lemma QueueNeverStalls(rows: map<Script, Watch>, steps: seq<Step>, id: nat)
    requires After(rows, steps).Some? && id < |After(rows, steps).value.changes|
    requires
      var q := After(rows, steps).value.changes;
      q[id].phase != Settled && forall i | 0 <= i < id && q[i].script == q[id].script :: q[i].phase == Settled
    ensures
      var s := After(rows, steps).value;
      s.changes[id].phase == Writing || CanBegin(s, id)
  {
    ReachableInv(rows, steps);
    var s := After(rows, steps).value;
    if s.changes[id].phase == Waiting { FirstMayBegin(s, id); }
  }

  /** An address that was handed out and not yet seen funded is watched, in every state. */
  lemma OutstandingIsWatched(rows: map<Script, Watch>, steps: seq<Step>, k: Script)
    requires After(rows, steps).Some? && k in After(rows, steps).value.issuedAt
    ensures k in After(rows, steps).value.watch && After(rows, steps).value.watch[k] == Watched
  {
    ReachableInv(rows, steps);
  }

  /**
   A script this process issued is retained only on evidence gathered since that issuance: a
   retirement over a list with nothing live there, and a list with a record at least as recent.
   */
  lemma RetainedOnlyOnEvidence(rows: map<Script, Watch>, steps: seq<Step>, k: Script)
    requires After(rows, steps).Some?
    requires var s := After(rows, steps).value; k in s.watch && s.watch[k] == Retained && k in s.issues
    ensures
      var s := After(rows, steps).value;
      && Retirement(s.changes, s.issues[k].change, k) && Deposited(s.changes, s.issues[k], k)
      && exists i: nat, j: nat ::
           && s.issues[k].change < i < |s.changes| && s.issues[k].change < j < |s.changes|
           && s.changes[i].script == k && s.changes[i].job.Retire? && s.changes[i].phase != Waiting
           && s.changes[j].script == k && s.changes[j].job.Retire? && s.changes[j].phase == Settled
           && (exists r | r in s.changes[i].job.swaps && r.swapPkScript == k :: r.createdAt >= s.issues[k].at)
           && (forall r | r in s.changes[j].job.swaps && r.swapPkScript == k ::
                 r.status == Fulfilled || r.status == Cancelled)
  {
    ReachableInv(rows, steps);
    var s := After(rows, steps).value;
    var i: nat :| SawDeposit(s.changes, s.issues[k], k, i);
    var j: nat :| RetiredBy(s.changes, s.issues[k].change, k, j);
    assert s.changes[i].script == k && s.changes[j].script == k;
  }

  lemma OnlyAnswersWrite(s: State, step: Step)
    requires Enabled(s, step) && !step.Answer?
    ensures Next(s, step).watch == s.watch
  {
  }

  lemma RetiringAnswer(s: State, step: Step, k: Script)
    requires Enabled(s, step) && (k in s.watch ==> s.watch[k] != Retained)
    requires k in Next(s, step).watch && Next(s, step).watch[k] == Retained
    ensures step.Answer? && step.landed && s.changes[step.id].script == k && s.changes[step.id].job.Retire?
  {
    if !step.Answer? { OnlyAnswersWrite(s, step); }
  }

  /**
   Which retirements go on to write, in plain fields: those over a list in which every record at the
   script is fulfilled or cancelled, when no address is outstanding there or a record is as recent as
   it. The others settle at once, and only a mark that was answered is cleared.
   */
  lemma RetirementWritesIff(s: State, id: nat)
    requires CanBegin(s, id) && s.changes[id].job.Retire?
    ensures
      var c, n := s.changes[id], Next(s, Begin(id));
      var done := forall r | r in c.job.swaps && r.swapPkScript == c.script ::
        r.status == Fulfilled || r.status == Cancelled;
      var marked := c.script in s.issuedAt;
      var answered := marked && exists r | r in c.job.swaps && r.swapPkScript == c.script ::
        r.createdAt >= s.issuedAt[c.script];
      && n.changes[id].phase == (if done && (!marked || answered) then Writing else Settled)
      && n.issuedAt == (if done && answered then s.issuedAt - {c.script} else s.issuedAt)
      && n.watch == s.watch
  {
    var c := s.changes[id];
    assert Live(c.job.swaps, c.script) <==> !AllDone(c.job.swaps, c.script);
  }

  /** The queue of a script is dropped by the clean-up of its last change, and by no other. */
  lemma DropsLastOnly(s: State, id: nat)
    requires Enabled(s, Drop(id))
    ensures
      var n, script := Next(s, Drop(id)), s.changes[id].script;
      && n == s.(inFlight := n.inFlight)
      && (script in s.inFlight && s.inFlight[script] == id ==> n.inFlight == s.inFlight - {script})
      && (script !in s.inFlight || s.inFlight[script] != id ==> n == s)
  {
  }

  /**
   What an answer writes: the change's own watch state if the write landed, and a mark only for a
   promotion that succeeded.
   */
  lemma AnswerWrites(s: State, id: nat, landed: bool, ok: bool, now: int)
    requires CanAnswer(s, id, landed, ok)
    ensures
      var c, n := s.changes[id], Next(s, Answer(id, landed, ok, now));
      && n.changes[id].phase == Settled
      && (forall k | k != c.script :: (k in n.watch <==> k in s.watch) && (k in s.watch ==> n.watch[k] == s.watch[k]))
      && (landed && c.job.Promote? ==> c.script in n.watch && n.watch[c.script] == Watched)
      && (landed && c.job.Retire? ==> c.script in n.watch && n.watch[c.script] == Retained)
      && (!landed ==> n.watch == s.watch)
      && n.issuedAt == (if ok && c.job.Promote? then s.issuedAt[c.script := now] else s.issuedAt)
  {
  }

  /**
   The step that retires: its own list has nothing live at the script, no mark is left there, and
   the last issuance was answered by a record in a list read since.
   */
  lemma RetiringStep(rows: map<Script, Watch>, steps: seq<Step>, step: Step, k: Script)
    requires After(rows, steps).Some? && Enabled(After(rows, steps).value, step)
    requires var s := After(rows, steps).value; k in s.watch ==> s.watch[k] != Retained
    requires var n := Next(After(rows, steps).value, step); k in n.watch && n.watch[k] == Retained
    ensures
      var s := After(rows, steps).value;
      && step.Answer? && step.landed && s.changes[step.id].script == k && s.changes[step.id].job.Retire?
      && (forall r | r in s.changes[step.id].job.swaps && r.swapPkScript == k ::
            r.status == Fulfilled || r.status == Cancelled)
      && k !in s.issuedAt
      && (k in s.issues ==> Deposited(s.changes, s.issues[k], k))
  {
    var s := After(rows, steps).value;
    RetiringAnswer(s, step, k);
    ReachableInv(rows, steps);
    assert RetiresDecided(s.changes, s.issuedAt) && MarksEarned(s.changes, s.issuedAt, s.issues);
  }

  // ---- The module state as the code keeps it ----

  class CoverageChanges {
    var changes: seq<Change>
    var inFlight: map<Script, nat>
    var issuedAt: map<Script, int>
    var watch: map<Script, Watch>
    ghost var issues: map<Script, Issue>

    ghost function View(): State reads this { State(changes, inFlight, issuedAt, watch, issues) }

    constructor (rows: map<Script, Watch>)
      ensures View() == Start(rows)
    {
      changes, inFlight, issuedAt, watch, issues := [], map[], map[], rows, map[];
    }

    /** Queue a change behind whatever is in flight for its script. */
    method Serialize(script: Script, job: Job)
      modifies this
      ensures View() == Called(old(View()), script, job)
    {
      var previous := if script in inFlight then Some(inFlight[script]) else None;
      inFlight := inFlight[script := |changes|];
      changes := changes + [Change(script, job, previous, Waiting)];
    }

    /** Whether an issued address still waits for its deposit; a record of the deposit clears the mark. */
    method AddressOutstanding(swaps: seq<Swap>, script: Script) returns (outstanding: bool)
      modifies this`issuedAt
      ensures outstanding == (script in old(issuedAt) && !RecordSince(swaps, script, old(issuedAt)[script]))
      ensures issuedAt == if outstanding then old(issuedAt) else old(issuedAt) - {script}
    {
      if script !in issuedAt { return false; }
      if FundedSince(swaps, script, issuedAt[script]) {
        issuedAt := issuedAt - {script};
        return false;
      }
      return true;
    }

    method RunChange(id: nat)
      requires CanBegin(View(), id)
      modifies this
      ensures View() == Began(old(View()), id)
    {
      var t := changes[id];
      var write := t.job.Promote?;
      if t.job.Retire? && !Live(t.job.swaps, t.script) {
        var outstanding := AddressOutstanding(t.job.swaps, t.script);
        write := !outstanding;
      }
      changes := Moved(changes, id, if write then Writing else Settled);
    }

    method ManagerAnswers(id: nat, landed: bool, ok: bool, now: int)
      requires CanAnswer(View(), id, landed, ok)
      modifies this
      ensures View() == Answered(old(View()), id, landed, ok, now)
    {
      var t := changes[id];
      if landed { watch := watch[t.script := if t.job.Promote? then Watched else Retained]; }
      if ok && t.job.Promote? {
        issuedAt, issues := issuedAt[t.script := now], issues[t.script := Issue(now, id)];
      }
      changes := Moved(changes, id, Settled);
    }

    method DropQueue(id: nat)
      requires CanDrop(View(), id)
      modifies this`inFlight
      ensures View() == Dropped(old(View()), id)
    {
      var script := changes[id].script;
      if script in inFlight && inFlight[script] == id { inFlight := inFlight - {script}; }
    }
  }
}
