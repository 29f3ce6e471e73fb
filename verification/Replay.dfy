/** Replay convergence: followers apply parts of the committed log without keeping track, a
    leader later applies it from its last-applied index on, and the database comes out as
    if every command had been run once, in order. */
module Replay {
  import opened Types
  import opened Rules
  import opened Interpreter
  import opened Reactions
  import opened Effects
  import opened KeyValue
  import opened Applying
  import opened Outcomes
  import opened NodeRuns

  // ----- databases -----

  function Written(cs: seq<MachineCommand>): set<string> {
    set i | 0 <= i < |cs| && IsWrite(cs[i]) :: cs[i].key
  }

  /** Two databases differ at most on `keys`. */
  ghost predicate AgreeOff(a: Database, b: Database, keys: set<string>) {
    forall x :: x !in keys ==> (x in a <==> x in b) && (x in a ==> a[x] == b[x])
  }

  lemma WrittenHead(cs: seq<MachineCommand>)
    requires |cs| > 0
    ensures Written(cs) == (if IsWrite(cs[0]) then {cs[0].key} else {}) + Written(cs[1..])
  {
    forall x | x in Written(cs) ensures x in (if IsWrite(cs[0]) then {cs[0].key} else {}) + Written(cs[1..]) {
      var i :| 0 <= i < |cs| && IsWrite(cs[i]) && cs[i].key == x;
      if i > 0 { assert cs[1..][i - 1] == cs[i]; }
    }
    forall x | x in Written(cs[1..]) ensures x in Written(cs) {
      var i :| 0 <= i < |cs| - 1 && IsWrite(cs[1..][i]) && cs[1..][i].key == x;
      assert cs[i + 1].key == x;
    }
  }

  lemma WrittenConcat(a: seq<MachineCommand>, b: seq<MachineCommand>)
    ensures Written(a) + Written(b) == Written(a + b)
  {
    forall x | x in Written(a) ensures x in Written(a + b) {
      var i :| 0 <= i < |a| && IsWrite(a[i]) && a[i].key == x; assert (a + b)[i] == a[i];
    }
    forall x | x in Written(b) ensures x in Written(a + b) {
      var i :| 0 <= i < |b| && IsWrite(b[i]) && b[i].key == x; assert (a + b)[|a| + i] == b[i];
    }
  }

  /** Commands change only the keys they write. */
  lemma {:induction false} FoldOff(db: Database, cs: seq<MachineCommand>)
    ensures AgreeOff(db, Fold(db, cs), Written(cs))
    decreases |cs|
  {
    if |cs| > 0 {
      FoldOff(Run(db, cs[0]), cs[1..]);
      WrittenHead(cs);
    }
  }

  /** What the commands write no longer depends on the database they start from. */
  lemma {:induction false} FoldErases(a: Database, b: Database, keys: set<string>, cs: seq<MachineCommand>)
    requires AgreeOff(a, b, keys)
    ensures AgreeOff(Fold(a, cs), Fold(b, cs), keys - Written(cs))
    decreases |cs|
  {
    if |cs| > 0 {
      var c := cs[0];
      FoldErases(Run(a, c), Run(b, c), if IsWrite(c) then keys - {c.key} else keys, cs[1..]);
      WrittenHead(cs);
    }
  }

  lemma AgreeEverywhere(a: Database, b: Database)
    requires AgreeOff(a, b, {})
    ensures a == b
  {
    assert a.Keys == b.Keys;
    forall x | x in a ensures a[x] == b[x] {}
  }

  /** `sub` is `whole` with some commands left out: `at` says where each one comes from. */
  ghost predicate Subsequence(sub: seq<MachineCommand>, whole: seq<MachineCommand>, at: seq<nat>) {
    && |at| == |sub|
    && (forall i, j :: 0 <= i < j < |at| ==> at[i] < at[j])
    && (forall i :: 0 <= i < |at| ==> at[i] < |whole| && whole[at[i]] == sub[i])
  }

  /** Applying any part of a command list and then all of it is applying it once. */
  lemma ReplayConverges(db: Database, sub: seq<MachineCommand>, whole: seq<MachineCommand>, at: seq<nat>)
    requires Subsequence(sub, whole, at)
    ensures Fold(Fold(db, sub), whole) == Fold(db, whole)
  {
    forall x | x in Written(sub) ensures x in Written(whole) {
      var i :| 0 <= i < |sub| && IsWrite(sub[i]) && sub[i].key == x;
      assert whole[at[i]].key == x;
    }
    FoldOff(db, sub);
    FoldErases(db, Fold(db, sub), Written(sub), whole);
    assert Written(sub) - Written(whole) == {};
    AgreeEverywhere(Fold(db, whole), Fold(Fold(db, sub), whole));
  }

  // ----- a node since its last start -----

  /** The database the log up to and including its last-applied entry stands for. */
  function Meaning(n: NodeState): Database
    requires -1 <= n.lastApplied < |n.log|
  {
    Before(map[], n.log, 0, n.lastApplied + 1)
  }

  /** Keys that committed entries beyond the last-applied one write. */
  function Pending(n: NodeState): set<string>
    requires -1 <= n.lastApplied <= n.commitIndex < |n.log|
  {
    Written(Commands(n.log, n.lastApplied + 1, n.commitIndex + 1))
  }

  /** The database is what the applied prefix stands for, except on pending keys. */
  ghost predicate Converging(n: NodeState) {
    && -1 <= n.lastApplied <= n.commitIndex < |n.log|
    && AgreeOff(Meaning(n), n.database, Pending(n))
  }

  /** A step that does not disturb what is committed: the commit index does not go back nor
      past the log, and the committed entries do what they did. */
  ghost predicate Settled(n: NodeState, k: NodeState) {
    && n.commitIndex <= k.commitIndex < |k.log|
    && AlikeUpTo(n.log, k.log, n.commitIndex + 1)
  }

  /** Committing more with the same last-applied index. */
  lemma ConvergingGrows(n: NodeState, k: NodeState)
    requires Converging(n) && Settled(n, k) && k.lastApplied == n.lastApplied && k.database == n.database
    ensures Converging(k)
  {
    PendingGrows(n, k);
  }

  lemma PendingGrows(n: NodeState, k: NodeState)
    requires -1 <= n.lastApplied <= n.commitIndex < |n.log|
    requires Settled(n, k) && k.lastApplied == n.lastApplied
    ensures Meaning(k) == Meaning(n) && Pending(n) <= Pending(k)
  {
    CommandsSame(n.log, k.log, 0, n.lastApplied + 1);
    CommandsSame(n.log, k.log, n.lastApplied + 1, n.commitIndex + 1);
    CommandsSplit(k.log, n.lastApplied + 1, n.commitIndex + 1, k.commitIndex + 1);
    WrittenConcat(Commands(k.log, n.lastApplied + 1, n.commitIndex + 1), Commands(k.log, n.commitIndex + 1, k.commitIndex + 1));
  }

  /** A follower applying entries `from..upto`, all pending, keeps converging. */
  lemma FollowerConverges(n: NodeState, k: NodeState, from: nat, upto: nat)
    requires Converging(n) && Settled(n, k) && k.lastApplied == n.lastApplied
    requires n.commitIndex < from <= upto <= k.commitIndex + 1
    requires k.database == Before(n.database, k.log, from, upto)
    ensures Converging(k)
  {
    hide Meaning, Pending, Fold, AgreeOff, Commands;
    PendingGrows(n, k);
    var cs := Commands(k.log, from, upto);
    FoldOff(n.database, cs);
    WrittenPending(k, from, upto);
    AgreeOffTrans(Meaning(n), n.database, k.database, Pending(n), Written(cs), Pending(k));
  }

  lemma WrittenPending(k: NodeState, from: nat, upto: nat)
    requires -1 <= k.lastApplied <= k.commitIndex < |k.log|
    requires k.lastApplied < from <= upto <= k.commitIndex + 1
    ensures Written(Commands(k.log, from, upto)) <= Pending(k)
  {
    hide Commands, Written;
    CommandsSplit(k.log, k.lastApplied + 1, from, k.commitIndex + 1);
    CommandsSplit(k.log, from, upto, k.commitIndex + 1);
    WrittenConcat(Commands(k.log, k.lastApplied + 1, from), Commands(k.log, from, k.commitIndex + 1));
    WrittenConcat(Commands(k.log, from, upto), Commands(k.log, upto, k.commitIndex + 1));
  }

  lemma AgreeOffTrans(a: Database, b: Database, c: Database, x: set<string>, y: set<string>, z: set<string>)
    requires AgreeOff(a, b, x) && AgreeOff(b, c, y) && x <= z && y <= z
    ensures AgreeOff(a, c, z)
  {
  }

  /** A leader that applies everything from its last-applied index to its commit index has
      converged. */
  lemma LeaderConverges(n: NodeState, k: NodeState)
    requires Converging(n) && Settled(n, k) && k.lastApplied == k.commitIndex
    requires |n.log| == |k.log| && SameLog(n.log, k.log)
    requires k.database == Before(n.database, n.log, n.lastApplied + 1, k.commitIndex + 1)
    ensures k.database == Meaning(k) && Converging(k)
  {
    hide Fold;
    var from := n.lastApplied + 1;
    var cs := Commands(n.log, from, k.commitIndex + 1);
    PendingCovered(n, k.commitIndex);
    FoldErases(Meaning(n), n.database, Pending(n), cs);
    AgreeEverywhere(Fold(Meaning(n), cs), Fold(n.database, cs));
    CommandsSplit(n.log, 0, from, k.commitIndex + 1);
    FoldConcat(map[], Commands(n.log, 0, from), cs);
    CommandsSame(n.log, k.log, 0, k.commitIndex + 1);
    ExactConverges(k);
  }

  lemma PendingCovered(n: NodeState, upto: int)
    requires -1 <= n.lastApplied <= n.commitIndex <= upto < |n.log|
    ensures Pending(n) - Written(Commands(n.log, n.lastApplied + 1, upto + 1)) == {}
  {
    CommandsSplit(n.log, n.lastApplied + 1, n.commitIndex + 1, upto + 1);
    WrittenConcat(Commands(n.log, n.lastApplied + 1, n.commitIndex + 1), Commands(n.log, n.commitIndex + 1, upto + 1));
  }

  lemma ExactConverges(k: NodeState)
    requires -1 <= k.lastApplied <= k.commitIndex < |k.log| && k.database == Meaning(k)
    ensures Converging(k)
  {
  }

  predicate Applies(n: NodeState, ev: Event) {
    ev.AppendReply? && n.role.Leader? && ev.ack.term <= n.currentTerm && ev.ack.success
  }

  lemma ConvergingAppend(n: NodeState, m: AppendRequest, now: int)
    requires !n.halted && Converging(n)
    requires var k := React(n, AppendEntries(m), now).node; !k.halted && Settled(n, k)
    ensures Converging(React(n, AppendEntries(m), now).node)
  {
    hide React, Takes, Stored, Converging, Before, AppliedRange, Rewind;
    var k := React(n, AppendEntries(m), now).node;
    ConvergingBounds(n);
    if !Takes(n, m) {
      NotTakenKeep(n, m, now);
      ConvergingGrows(n, k);
    } else {
      FollowerApplies(n, m, now);
      var st := Stored(Receiver(n, m.term), m, now);
      if m.commit <= n.commitIndex || n.commitIndex + 1 >= m.commit {
        ConvergingGrows(n, k);
      } else {
        AppliedRangeGives(st.(commitIndex := Min(m.commit, m.prevIndex + |m.entries|)), k, n.commitIndex + 1, m.commit);
        SameBefore(n.database, st.log, k.log, n.commitIndex + 1, m.commit);
        FollowerConverges(n, k, n.commitIndex + 1, m.commit);
      }
    }
  }

  lemma ConvergingBounds(n: NodeState)
    requires Converging(n)
    ensures -1 <= n.lastApplied <= n.commitIndex < |n.log|
  {
  }

  lemma AppliedRangeGives(n: NodeState, k: NodeState, i: nat, j: nat)
    requires i <= j <= |n.log| && AppliedRange(n, k, i, j)
    ensures k.database == Before(n.database, n.log, i, j) && k.commitIndex == n.commitIndex
  {
  }

  lemma SameBefore(db: Database, a: seq<LogEntry>, b: seq<LogEntry>, i: nat, j: nat)
    requires SameLog(a, b) && i <= j <= |a|
    ensures Before(db, a, i, j) == Before(db, b, i, j)
  {
    CommandsSame(a, b, i, j);
  }

  lemma ConvergingReply(n: NodeState, r: AppendAnswer, now: int)
    requires !n.halted && Converging(n) && Applies(n, AppendReply(r))
    requires var k := React(n, AppendReply(r), now).node; !k.halted && Settled(n, k)
    ensures var k := React(n, AppendReply(r), now).node; Converging(k) && k.lastApplied == k.commitIndex && k.database == Meaning(k)
  {
    hide React, Converging, Before, AppliedRange, NewCommit, Implement, Pending;
    var k := React(n, AppendReply(r), now).node;
    var a := Acknowledged(n, r);
    ConvergingBounds(n);
    LeaderApplies(n, r, now);
    CommitNotBack(n, r);
    AppendReplyOutcome(n, r, now);
    AcknowledgedRun(n, r, a, now);
    var c := NewCommit(n, r.address);
    if n.lastApplied >= c {
      BeforeNothing(n.database, n.log, n.lastApplied + 1);
    } else {
      NoCommitMove(n, r, k, now);
      AppliedRangeGives(a, k, n.lastApplied + 1, c + 1);
    }
    LeaderConverges(n, k);
  }

  lemma NoCommitMove(n: NodeState, r: AppendAnswer, k: NodeState, now: int)
    requires !n.halted && Applies(n, AppendReply(r)) && -1 <= n.lastApplied < |n.log|
    requires k == React(n, AppendReply(r), now).node && !k.halted && n.lastApplied < NewCommit(n, r.address)
    ensures k.commitIndex == Acknowledged(n, r).commitIndex
  {
    hide React, NewCommit, AppliedRange;
    LeaderApplies(n, r, now);
    AppliedRangeGives(Acknowledged(n, r), k, n.lastApplied + 1, Stop(n, NewCommit(n, r.address)));
  }

  lemma CommitNotBack(n: NodeState, r: AppendAnswer)
    ensures NewCommit(n, r.address) >= n.commitIndex
    ensures Acknowledged(n, r).commitIndex == NewCommit(n, r.address)
  {
    hide Committable;
    ScanNotBack(n, r.address, n.commitIndex + 1, n.commitIndex);
  }

  lemma {:induction false} ScanNotBack(n: NodeState, responder: Address, at: int, best: int)
    requires best < at
    ensures Scan(n, responder, at, best) >= best
    decreases LastIndex(n) - at
  {
    hide Committable;
    if at <= LastIndex(n) { ScanNotBack(n, responder, at + 1, if Committable(n, responder, at) then at else best); }
  }

  /** Every event that leaves the committed prefix alone keeps a node converging; a leader's
      apply loop makes the database exact. */
  lemma StepConverges(n: NodeState, ev: Event, now: int)
    requires !n.halted && !ev.StateChanged? && Converging(n)
    requires var k := React(n, ev, now).node; !k.halted && Settled(n, k)
    ensures var k := React(n, ev, now).node;
            && Converging(k)
            && (Applies(n, ev) ==> k.lastApplied == k.commitIndex && k.database == Meaning(k))
  {
    hide React, Converging;
    if ev.AppendEntries? {
      ConvergingAppend(n, ev.append, now);
    } else if Applies(n, ev) {
      ConvergingReply(n, ev.ack, now);
    } else {
      OthersKeep(n, ev, now);
      ConvergingBounds(n);
      ConvergingGrows(n, React(n, ev, now).node);
    }
  }

  /** A run without a restart in which nothing committed is disturbed and nothing panics. */
  ghost predicate SettledRun(n: NodeState, steps: seq<NodeStep>) {
    && (forall i :: 0 <= i < |steps| ==> steps[i].Happens?)
    && (forall i :: 0 <= i < |steps| ==> Settled(At(n, steps, i), At(n, steps, i + 1)))
    && (forall i :: 0 <= i <= |steps| ==> !At(n, steps, i).halted)
  }

  lemma {:induction false} ConvergingAlways(n: NodeState, steps: seq<NodeStep>, i: nat, lastHeard: int, now: int)
    requires External(steps) && i <= |steps|
    requires SettledRun(Restart(n, lastHeard, now).node, steps)
    ensures Converging(At(Restart(n, lastHeard, now).node, steps, i))
  {
    hide React, Restart, Converging, Settled;
    var start := Restart(n, lastHeard, now).node;
    if i == 0 {
      RestartOutcome(n, lastHeard, now);
      FreshConverges(start);
    } else {
      ConvergingAlways(n, steps, i - 1, lastHeard, now);
      assert At(start, steps, i) == NodeNext(At(start, steps, i - 1), steps[i - 1]);
      StepConverges(At(start, steps, i - 1), steps[i - 1].event, steps[i - 1].now);
    }
  }

  lemma FreshConverges(n: NodeState)
    requires n.lastApplied == -1 && n.commitIndex == -1 && n.database == map[]
    ensures Converging(n)
  {
  }

  /** In a run since the last start in which the committed prefix is never overwritten, a
      leader's database after its apply loop is the fold of the log up to its last-applied
      index, whatever parts it applied while it followed others. */
  lemma LeaderDatabaseIsFold(n: NodeState, steps: seq<NodeStep>, i: nat, lastHeard: int, now: int)
    requires External(steps) && i < |steps|
    requires SettledRun(Restart(n, lastHeard, now).node, steps)
    requires Applies(At(Restart(n, lastHeard, now).node, steps, i), steps[i].event)
    ensures var k := At(Restart(n, lastHeard, now).node, steps, i + 1);
            -1 <= k.lastApplied < |k.log| && k.database == Meaning(k)
  {
    hide React, Restart, Converging, Settled, Meaning, Applies;
    var start := Restart(n, lastHeard, now).node;
    ConvergingAlways(n, steps, i, lastHeard, now);
    assert At(start, steps, i + 1) == NodeNext(At(start, steps, i), steps[i]);
    StepConverges(At(start, steps, i), steps[i].event, steps[i].now);
    ConvergingBounds(At(start, steps, i + 1));
  }
}
