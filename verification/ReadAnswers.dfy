/** What a client that probes for a read is told, and when that is what the log says. */
module ReadAnswers {
  import opened Types
  import opened Interpreter
  import opened KeyValue
  import opened Applying
  import opened NodeRuns
  import opened Replay
  import opened Ticket
  import opened Reading

  /** A leader that has applied no further than its log takes a command; as long as it stays
      leader, once the command is applied the probe for it answers with what the entries
      before it make of the database the leader had when it applied it. */
  lemma ProbeReads(n: NodeState, c: MachineCommand, steps: seq<NodeStep>, i: nat, now: int) returns (j: nat, value: string)
    requires !n.halted && n.role.Leader? && -1 <= n.lastApplied < |n.log|
    requires External(steps) && i <= |steps| && StaysLeader(React(n, Command(Machine(c)), now).node, steps)
    ensures var start := React(n, Command(Machine(c)), now).node; var k := At(start, steps, i); var at := |n.log|;
            k.lastApplied >= at ==>
              && React(k, Probe(at, n.currentTerm), now).out == [Answer(Completed(value))]
              && j < i && var m := At(start, steps, j);
                 && -1 <= m.lastApplied < at < |m.log| && m.log[at].payload == Machine(c)
                 && AnswersWith(m.database, m.log, m.lastApplied + 1, at, c, value)
  {
    hide React, Before, At, External, StaysLeader;
    j := ProbeHonoured(n, Machine(c), steps, i, now);
    var start := React(n, Command(Machine(c)), now).node;
    var at := |n.log|;
    value := "";
    if At(start, steps, i).lastApplied >= at {
      var m := At(start, steps, j);
      var k := At(start, steps, j + 1);
      StandsThere(n, c, steps, j, now);
      value := Result(Before(m.database, m.log, m.lastApplied + 1, at), c);
      LastEntryStands(m.database, m.log, m.lastApplied + 1, at, c.key);
    }
  }

  lemma StandsThere(n: NodeState, c: MachineCommand, steps: seq<NodeStep>, j: nat, now: int)
    requires !n.halted && n.role.Leader? && -1 <= n.lastApplied < |n.log| && j <= |steps|
    requires External(steps) && StaysLeader(React(n, Command(Machine(c)), now).node, steps)
    ensures var m := At(React(n, Command(Machine(c)), now).node, steps, j);
            |n.log| < |m.log| && m.log[|n.log|].payload == Machine(c)
  {
    hide React, At;
    var l := ProbeHonoured(n, Machine(c), steps, j, now);
  }

  // ----- reading the past -----

  /** The database stands for the applied prefix except on pending keys. Then what a read at
      `at` finds is what the log before it says from its very start, if no committed entry at
      `at` or after it writes to the key. */
  lemma ReadsPast(n: NodeState, at: nat, key: string, v: Option<string>)
    requires Converging(n) && n.lastApplied < at <= |n.log|
    requires forall x :: at <= x <= n.commitIndex ==> !EntryWrites(n.log[x], key)
    requires ValueAfter(n.database, n.log, n.lastApplied + 1, at, key, v)
    ensures ValueAfter(map[], n.log, 0, at, key, v)
  {
    hide Fold, Commands, Written;
    var from := n.lastApplied + 1;
    if NoneAmong(n.log, from, at, key) {
      StandsFor(n, at, key);
      Stretch(n.log, from, at, key, v);
    } else {
      var w :| from <= w < at && LastAmong(n.log, from, at, key, w) && v == Some(n.log[w].payload.command.value);
      assert LastAmong(n.log, 0, at, key, w);
    }
  }

  /** Nothing committed and not yet applied writes to the key: the database has it as the
      applied prefix left it. */
  lemma StandsFor(n: NodeState, at: nat, key: string)
    requires Converging(n) && n.lastApplied < at <= |n.log| && NoneAmong(n.log, n.lastApplied + 1, at, key)
    requires forall x :: at <= x <= n.commitIndex ==> !EntryWrites(n.log[x], key)
    ensures ValueAfter(map[], n.log, 0, n.lastApplied + 1, key, ValueIn(n.database, key))
  {
    hide Fold, Commands, Written, ValueAfter, LastAmong;
    var from := n.lastApplied + 1;
    NotPending(n.log, from, n.commitIndex + 1, key);
    LastEntryStands(map[], n.log, 0, from, key);
    assert ValueIn(Meaning(n), key) == ValueIn(n.database, key);
  }

  /** Entries that do not write to the key add nothing. */
  lemma Stretch(log: seq<LogEntry>, from: nat, at: nat, key: string, v: Option<string>)
    requires from <= at <= |log| && NoneAmong(log, from, at, key) && ValueAfter(map[], log, 0, from, key, v)
    ensures ValueAfter(map[], log, 0, at, key, v)
  {
    if !NoneAmong(log, 0, from, key) {
      var w :| 0 <= w < from && LastAmong(log, 0, from, key, w) && v == Some(log[w].payload.command.value);
      assert LastAmong(log, 0, at, key, w);
    }
  }

  lemma {:induction false} NotPending(log: seq<LogEntry>, i: nat, j: nat, key: string)
    requires i <= j <= |log|
    ensures NoneAmong(log, i, j, key) <==> key !in Written(Commands(log, i, j))
    decreases j - i
  {
    if i < j {
      NotPending(log, i + 1, j, key);
      CommandsFirst(log, i, j);
      var rest := Commands(log, i + 1, j);
      if Runs(log[i]).Some? {
        assert ([Runs(log[i]).value] + rest)[1..] == rest;
        WrittenHead([Runs(log[i]).value] + rest);
      } else {
        assert [] + rest == rest;
      }
      assert NoneAmong(log, i, j, key) <==> !EntryWrites(log[i], key) && NoneAmong(log, i + 1, j, key);
    }
  }

  /** And only then: if a committed entry at `at` or after it writes to the key, and none
      between the applied prefix and `at`, the same node may as well hold any value there -
      it may have applied that write as a follower - and a read at `at` finds it. */
  lemma ReadsFuture(n: NodeState, at: nat, x: nat, key: string, value: string)
    requires Converging(n) && n.lastApplied < at <= x <= n.commitIndex && EntryWrites(n.log[x], key)
    requires forall w :: n.lastApplied < w < at ==> !EntryWrites(n.log[w], key)
    ensures var k := n.(database := n.database[key := value]);
            Converging(k) && ValueAfter(k.database, k.log, k.lastApplied + 1, at, key, Some(value))
  {
    hide Fold;
    var k := n.(database := n.database[key := value]);
    NotPending(n.log, n.lastApplied + 1, n.commitIndex + 1, key);
    assert key in Pending(k);
    assert NoneAmong(k.log, k.lastApplied + 1, at, key);
  }
}
