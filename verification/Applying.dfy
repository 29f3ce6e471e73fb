/** What the apply loops of follower and leader do to database, results and indices. */
module Applying {
  import opened Types
  import opened Rules
  import opened Interpreter
  import opened KeyValue

  /** The commands among entries `i..j`, in order. */
  function Commands(log: seq<LogEntry>, i: nat, j: nat): seq<MachineCommand>
    requires i <= j <= |log|
    decreases j - i
  {
    if i == j then []
    else
      var c := CommandOf(log[i].payload);
      (if log[i].kind == CommandEntry && c.Some? then [c.value] else []) + Commands(log, i + 1, j)
  }

  /** Every command entry among `i..j` holds a command that decodes. */
  predicate Decodable(log: seq<LogEntry>, i: nat, j: nat)
    requires i <= j <= |log|
  {
    forall k :: i <= k < j && log[k].kind == CommandEntry ==> CommandOf(log[k].payload).Some?
  }

  /** The command an entry makes the machine run, if any. */
  function Runs(e: LogEntry): Option<MachineCommand> {
    if e.kind == CommandEntry then CommandOf(e.payload) else None
  }

  lemma CommandsFirst(log: seq<LogEntry>, i: nat, j: nat)
    requires i < j <= |log|
    ensures Commands(log, i, j) == (if Runs(log[i]).Some? then [Runs(log[i]).value] else []) + Commands(log, i + 1, j)
  {
  }

  lemma NoCommands(log: seq<LogEntry>, i: nat)
    requires i <= |log|
    ensures Commands(log, i, i) == []
  {
  }

  lemma {:induction false} CommandsSame(a: seq<LogEntry>, b: seq<LogEntry>, i: nat, j: nat)
    requires i <= j <= |a| && AlikeUpTo(a, b, j)
    ensures Commands(a, i, j) == Commands(b, i, j)
    decreases j - i
  {
    if i == j {
      NoCommands(a, i);
      NoCommands(b, i);
    } else {
      CommandsSame(a, b, i + 1, j);
      CommandsFirst(a, i, j);
      CommandsFirst(b, i, j);
      hide Commands;
      assert Alike(a[i], b[i]);
    }
  }

  lemma {:induction false} CommandsSplit(log: seq<LogEntry>, i: nat, m: nat, j: nat)
    requires i <= m <= j <= |log|
    ensures Commands(log, i, j) == Commands(log, i, m) + Commands(log, m, j)
    decreases m - i
  {
    if i == m {
      NoCommands(log, m);
      assert [] + Commands(log, m, j) == Commands(log, m, j);
    } else {
      CommandsSplit(log, i + 1, m, j);
      CommandsFirst(log, i, m);
      CommandsFirst(log, i, j);
      hide Commands;
      AppendAssociates(if Runs(log[i]).Some? then [Runs(log[i]).value] else [], Commands(log, i + 1, m), Commands(log, m, j));
    }
  }

  lemma AppendAssociates(a: seq<MachineCommand>, b: seq<MachineCommand>, c: seq<MachineCommand>)
    ensures (a + b) + c == a + (b + c)
  {
  }

  lemma {:induction false} FoldConcat(db: Database, a: seq<MachineCommand>, b: seq<MachineCommand>)
    ensures Fold(db, a + b) == Fold(Fold(db, a), b)
    decreases |a|
  {
    if |a| == 0 {
      assert a + b == b;
    } else {
      assert (a + b)[1..] == a[1..] + b;
      FoldConcat(Run(db, a[0]), a[1..], b);
    }
  }

  /** The database before entry `j`, when entries from `i` on are applied to `db`. */
  function Before(db: Database, log: seq<LogEntry>, i: nat, j: nat): Database
    requires i <= j <= |log|
  {
    Fold(db, Commands(log, i, j))
  }

  /** Entries `i..j` of `k` are those of `n`, each with the result its command had when run
      after the ones before it; all other entries are untouched. */
  ghost predicate ResultsIn(n: NodeState, k: NodeState, i: nat, j: nat)
    requires i <= j <= |n.log|
  {
    && |k.log| == |n.log|
    && (forall x :: 0 <= x < |n.log| && !(i <= x < j && n.log[x].kind == CommandEntry) ==> k.log[x] == n.log[x])
    && (forall x :: i <= x < j && n.log[x].kind == CommandEntry && CommandOf(n.log[x].payload).Some? ==>
          k.log[x] == n.log[x].(result := Result(Before(n.database, n.log, i, x), CommandOf(n.log[x].payload).value)))
  }

  /** The node after the commands among `i..j` have been applied, results filled in. */
  ghost predicate AppliedRange(n: NodeState, k: NodeState, i: nat, j: nat)
    requires i <= j <= |n.log|
  {
    && k == n.(database := k.database, log := k.log, lastApplied := k.lastApplied)
    && k.database == Before(n.database, n.log, i, j)
    && ResultsIn(n, k, i, j)
  }

  /** The database before entry `x` does not depend on whether entry `i` was run first. */
  lemma BeforeShift(n: NodeState, k1: NodeState, i: nat, x: nat)
    requires i < x <= |n.log| && n.log[i].kind == CommandEntry && CommandOf(n.log[i].payload).Some?
    requires SameLog(n.log, k1.log) && k1.database == Run(n.database, CommandOf(n.log[i].payload).value)
    ensures Before(k1.database, k1.log, i + 1, x) == Before(n.database, n.log, i, x)
  {
    CommandsSame(n.log, k1.log, i + 1, x);
    var c := CommandOf(n.log[i].payload).value;
    assert Commands(n.log, i, x) == [c] + Commands(n.log, i + 1, x);
    FoldConcat(n.database, [c], Commands(n.log, i + 1, x));
    assert Fold(n.database, [c]) == Run(n.database, c);
  }

  lemma AppliedOne(n: NodeState, i: nat)
    requires i < |n.log| && CommandOf(n.log[i].payload).Some?
    ensures var k1 := Applied(n, i); var c := CommandOf(n.log[i].payload).value;
            && k1 == n.(database := Run(n.database, c), log := k1.log) && SameLog(n.log, k1.log)
            && k1.log == n.log[i := n.log[i].(result := Result(n.database, c))]
  {
  }

  /** The first entry of a range, then the rest. */
  lemma FirstThenRest(n: NodeState, k1: NodeState, k: NodeState, i: nat, j: nat)
    requires i < j <= |n.log|
    requires n.log[i].kind == CommandEntry && CommandOf(n.log[i].payload).Some?
    requires k1 == Applied(n, i)
    requires |k1.log| == |n.log| && AppliedRange(k1, k, i + 1, j)
    ensures AppliedRange(n, k, i, j)
  {
    hide Applied, Before;
    AppliedOne(n, i);
    BeforeShift(n, k1, i, j);
    assert Before(n.database, n.log, i, i) == n.database by { BeforeNothing(n.database, n.log, i); }
    assert k.log[i] == k1.log[i];
    forall x | i < x < j && n.log[x].kind == CommandEntry && CommandOf(n.log[x].payload).Some?
      ensures k.log[x] == n.log[x].(result := Result(Before(n.database, n.log, i, x), CommandOf(n.log[x].payload).value))
    {
      BeforeShift(n, k1, i, x);
      assert k1.log[x] == n.log[x];
    }
  }

  lemma BeforeNothing(db: Database, log: seq<LogEntry>, i: nat)
    requires i <= |log|
    ensures Before(db, log, i, i) == db
  {
  }

  lemma NothingApplied(n: NodeState, i: nat)
    requires i <= |n.log|
    ensures AppliedRange(n, n, i, i) && Decodable(n.log, i, i)
  {
  }

  lemma DecodableStep(log: seq<LogEntry>, i: nat, j: nat)
    requires i < j <= |log|
    ensures Decodable(log, i, j) <==>
              (log[i].kind == CommandEntry ==> CommandOf(log[i].payload).Some?) && Decodable(log, i + 1, j)
  {
  }

  lemma DecodableSame(a: seq<LogEntry>, b: seq<LogEntry>, i: nat, j: nat)
    requires SameLog(a, b) && i <= j <= |a|
    ensures Decodable(a, i, j) <==> Decodable(b, i, j)
  {
    assert forall x :: 0 <= x < |a| ==> Same(a[x], b[x]);
  }

  lemma SkipFirst(n: NodeState, k: NodeState, i: nat, j: nat)
    requires i < j <= |n.log| && n.log[i].kind != CommandEntry
    requires AppliedRange(n, k, i + 1, j)
    ensures AppliedRange(n, k, i, j)
  {
    assert Commands(n.log, i, j) == Commands(n.log, i + 1, j);
    forall x | i < x < j ensures Before(n.database, n.log, i + 1, x) == Before(n.database, n.log, i, x) {
      assert Commands(n.log, i, x) == Commands(n.log, i + 1, x);
    }
  }

  lemma LastAppliedFree(n: NodeState, applied: int, k: NodeState, i: nat, j: nat)
    requires i <= j <= |n.log| && AppliedRange(n.(lastApplied := applied), k, i, j)
    ensures AppliedRange(n, k, i, j)
  {
  }

  lemma AppliedNone(n: NodeState, i: nat)
    requires i < |n.log| && CommandOf(n.log[i].payload).None?
    ensures Applied(n, i) == n.(halted := true)
  {
  }

  // ----- the follower's loop -----

  /** What the follower walks over is what is now in its log. */
  ghost predicate Reads(n: NodeState, m: AppendRequest, k: NodeState, i: int) {
    forall x :: i <= x < m.commit ==> ReadAt(n, m, k, x)
  }

  ghost predicate ReadAt(n: NodeState, m: AppendRequest, k: NodeState, x: int) {
    0 <= x < |k.log| && EntryFor(n, m, x).Some? && Same(EntryFor(n, m, x).value, k.log[x])
  }

  lemma {:induction false} ApplyRun(n: NodeState, m: AppendRequest, i: nat, ev: Event, k: NodeState, now: int)
    requires !k.halted && i <= m.commit <= |k.log| && Reads(n, m, k, i)
    ensures var o := Implement(ApplyActions(n, m, i), ev, true, k, now);
            && (o.node.halted <==> !Decodable(k.log, i, m.commit))
            && (!o.node.halted ==> AppliedRange(k, o.node, i, m.commit) && o.node.lastApplied == k.lastApplied)
    decreases m.commit - i
  {
    hide Implement, Perform, EntryFor, AppliedRange, Decodable, Applied, Reads, ApplyActions;
    if i >= m.commit {
      WalkEnds(n, m, i);
      Nothing(ev, true, k, now);
      NothingApplied(k, i);
    } else {
      var rest := ApplyActions(n, m, i + 1);
      DecodableStep(k.log, i, m.commit);
      assert ReadAt(n, m, k, i) by { ReadsFirst(n, m, i, k); }
      WalkFirst(n, m, i);
      if k.log[i].kind == CommandEntry {
        Ran(k, i, true);
        ConsQuiet(ApplyEntry(i), rest, ev, true, k, Applied(k, i), now);
        if CommandOf(k.log[i].payload).None? {
          AppliedNone(k, i);
          Dead(rest, ev, true, Applied(k, i), now);
        } else {
          AppliedOne(k, i);
          DecodableSame(k.log, Applied(k, i).log, i + 1, m.commit);
          ReadsOn(n, m, i, k, Applied(k, i));
          ApplyRun(n, m, i + 1, ev, Applied(k, i), now);
          var o := Implement(rest, ev, true, Applied(k, i), now).node;
          if !o.halted { FirstThenRest(k, Applied(k, i), o, i, m.commit); }
        }
      } else {
        ReadsOn(n, m, i, k, k);
        ApplyRun(n, m, i + 1, ev, k, now);
        var o := Implement(rest, ev, true, k, now).node;
        if !o.halted { SkipFirst(k, o, i, m.commit); }
      }
    }
  }

  lemma WalkEnds(n: NodeState, m: AppendRequest, i: int)
    requires i >= m.commit
    ensures ApplyActions(n, m, i) == []
  {
  }

  lemma WalkFirst(n: NodeState, m: AppendRequest, i: nat)
    requires i < m.commit && EntryFor(n, m, i).Some?
    ensures ApplyActions(n, m, i)
         == if EntryFor(n, m, i).value.kind == CommandEntry then [ApplyEntry(i)] + ApplyActions(n, m, i + 1)
            else ApplyActions(n, m, i + 1)
  {
    hide EntryFor;
    assert [] + ApplyActions(n, m, i + 1) == ApplyActions(n, m, i + 1);
  }

  lemma ReadsFirst(n: NodeState, m: AppendRequest, i: int, k: NodeState)
    requires Reads(n, m, k, i) && i < m.commit
    ensures ReadAt(n, m, k, i)
  {
    hide ReadAt;
  }

  lemma Ran(k: NodeState, i: int, chan: bool)
    ensures Perform(k, ApplyEntry(i), chan) == Outcome(Applied(k, i), [])
  {
    hide Applied;
  }

  lemma ReadsOn(n: NodeState, m: AppendRequest, i: nat, k: NodeState, k1: NodeState)
    requires Reads(n, m, k, i) && (SameLog(k.log, k1.log) || k1 == k) && m.commit <= |k.log|
    ensures Reads(n, m, k1, i + 1)
  {
    hide EntryFor;
    forall x | i + 1 <= x < m.commit ensures ReadAt(n, m, k1, x) {
      assert ReadAt(n, m, k, x);
      if k1 != k { assert Same(k.log[x], k1.log[x]); }
    }
  }

  // ----- the leader's loop -----

  /** One entry of the leader's loop, then the rest of it. */
  lemma LeaderStep(n: NodeState, i: nat, upto: int, ev: Event, k: NodeState, now: int)
    requires !k.halted && i <= upto < |n.log|
    ensures var k0 := k.(lastApplied := i);
            Implement(AdvanceActions(n, i, upto), ev, false, k, now).node
            == Implement(AdvanceActions(n, i + 1, upto), ev, false, if n.log[i].kind == CommandEntry then Applied(k0, i) else k0, now).node
  {
    hide Implement, Perform, Applied, AdvanceActions;
    var rest := AdvanceActions(n, i + 1, upto);
    var k0 := k.(lastApplied := i);
    AdvanceFirst(n, i, upto);
    Moved(k, i);
    if n.log[i].kind == CommandEntry {
      ConsQuiet(SetLastApplied(i), [ApplyEntry(i)] + rest, ev, false, k, k0, now);
      Ran(k0, i, false);
      ConsQuiet(ApplyEntry(i), rest, ev, false, k0, Applied(k0, i), now);
    } else {
      ConsQuiet(SetLastApplied(i), rest, ev, false, k, k0, now);
    }
  }

  lemma AdvanceFirst(n: NodeState, i: nat, upto: int)
    requires i <= upto < |n.log|
    ensures AdvanceActions(n, i, upto)
         == [SetLastApplied(i)] + (if n.log[i].kind == CommandEntry then [ApplyEntry(i)] + AdvanceActions(n, i + 1, upto)
                                   else AdvanceActions(n, i + 1, upto))
  {
    var rest := AdvanceActions(n, i + 1, upto);
    assert [] + rest == rest;
  }

  lemma Moved(k: NodeState, i: int)
    ensures Perform(k, SetLastApplied(i), false) == Outcome(k.(lastApplied := i), [])
  {
  }

  lemma {:induction false} LeaderRun(n: NodeState, i: nat, upto: int, ev: Event, k: NodeState, now: int)
    requires !k.halted && SameLog(n.log, k.log) && i <= upto + 1 <= |n.log|
    ensures var o := Implement(AdvanceActions(n, i, upto), ev, false, k, now).node;
            && (o.halted <==> !Decodable(k.log, i, upto + 1))
            && (!o.halted ==> AppliedRange(k, o, i, upto + 1)
                              && o.lastApplied == if i <= upto then upto else k.lastApplied)
    decreases upto - i
  {
    hide Implement, AppliedRange, Decodable, Applied, AdvanceActions;
    if i > upto {
      NoAdvance(n, i, upto);
      Nothing(ev, false, k, now);
      NothingApplied(k, i);
    } else {
      assert Same(n.log[i], k.log[i]);
      var k0 := k.(lastApplied := i);
      LeaderStep(n, i, upto, ev, k, now);
      DecodableStep(k.log, i, upto + 1);
      if k.log[i].kind == CommandEntry {
        var k1 := Applied(k0, i);
        if CommandOf(k.log[i].payload).None? {
          AppliedNone(k0, i);
          Dead(AdvanceActions(n, i + 1, upto), ev, false, k1, now);
        } else {
          AppliedOne(k0, i);
          DecodableSame(k.log, k1.log, i + 1, upto + 1);
          LeaderRun(n, i + 1, upto, ev, k1, now);
          var o := Implement(AdvanceActions(n, i + 1, upto), ev, false, k1, now).node;
          if !o.halted { FirstThenRest(k0, k1, o, i, upto + 1); LastAppliedFree(k, i, o, i, upto + 1); }
        }
      } else {
        LeaderRun(n, i + 1, upto, ev, k0, now);
        var o := Implement(AdvanceActions(n, i + 1, upto), ev, false, k0, now).node;
        if !o.halted { SkipFirst(k0, o, i, upto + 1); LastAppliedFree(k, i, o, i, upto + 1); }
      }
    }
  }

  lemma NoAdvance(n: NodeState, i: int, upto: int)
    requires i > upto
    ensures AdvanceActions(n, i, upto) == []
  {
  }
}
