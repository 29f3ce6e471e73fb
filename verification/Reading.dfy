/** What reads return: the value of the last write before them, or the empty string. */
module Reading {
  import opened Types
  import opened KeyValue
  import opened Applying

  /** The command is a write to `key`. */
  predicate WritesTo(c: MachineCommand, key: string) {
    c.operation == "write" && c.key == key
  }

  /** Position `i` holds the last write to `key` in the list. */
  ghost predicate LastWriteAt(cs: seq<MachineCommand>, key: string, i: int) {
    0 <= i < |cs| && WritesTo(cs[i], key) && forall j :: i < j < |cs| ==> !WritesTo(cs[j], key)
  }

  ghost predicate NeverWritten(cs: seq<MachineCommand>, key: string) {
    forall i :: 0 <= i < |cs| ==> !WritesTo(cs[i], key)
  }

  /** After any list of commands every key has the value last written to it, and reads as
      before if there was no such write. */
  lemma {:induction false} LastWriteStands(db: Database, cs: seq<MachineCommand>, key: string)
    ensures NeverWritten(cs, key) ==> (key in Fold(db, cs) <==> key in db) && (key in db ==> Fold(db, cs)[key] == db[key])
    ensures forall i :: LastWriteAt(cs, key, i) ==> key in Fold(db, cs) && Fold(db, cs)[key] == cs[i].value
    decreases |cs|
  {
    if |cs| > 0 {
      var c, rest := cs[0], cs[1..];
      LastWriteStands(Run(db, c), rest, key);
      assert NeverWritten(cs, key) ==> NeverWritten(rest, key) && !WritesTo(c, key) by {
        forall i | 0 <= i < |rest| ensures rest[i] == cs[i + 1] {}
      }
      forall i | LastWriteAt(cs, key, i) ensures key in Fold(db, cs) && Fold(db, cs)[key] == cs[i].value {
        if i > 0 {
          LastWriteTail(cs, key, i);
        } else {
          forall j | 0 <= j < |rest| ensures !WritesTo(rest[j], key) { assert rest[j] == cs[j + 1]; }
          assert NeverWritten(rest, key);
        }
      }
    }
  }

  lemma LastWriteTail(cs: seq<MachineCommand>, key: string, i: int)
    requires LastWriteAt(cs, key, i) && i > 0
    ensures LastWriteAt(cs[1..], key, i - 1) && cs[1..][i - 1] == cs[i]
  {
    forall j | i - 1 < j < |cs| - 1 ensures !WritesTo(cs[1..][j], key) { assert cs[1..][j] == cs[j + 1]; }
  }

  /** A read after a list of commands on an empty database returns the value last written to
      its key, or the empty string; a write returns what it writes, and leaves all other keys
      alone. */
  lemma ReadsLastWrite(cs: seq<MachineCommand>, c: MachineCommand)
    ensures c.operation != "write" ==>
              && (forall i :: LastWriteAt(cs, c.key, i) ==> Result(Fold(map[], cs), c) == cs[i].value)
              && (NeverWritten(cs, c.key) ==> Result(Fold(map[], cs), c) == "")
              && Run(Fold(map[], cs), c) == Fold(map[], cs)
    ensures c.operation == "write" ==>
              && Result(Fold(map[], cs), c) == c.value
              && Run(Fold(map[], cs), c) == Fold(map[], cs)[c.key := c.value]
  {
    hide Fold;
    LastWriteStands(map[], cs, c.key);
  }

  // ----- logs -----

  /** The entry is a command that writes to `key`. A record read as a command is no write. */
  predicate EntryWrites(e: LogEntry, key: string) {
    e.kind == CommandEntry && e.payload.Machine? && WritesTo(e.payload.command, key)
  }

  /** The value of `key` in `db` after the commands among entries `i..j`: what the last entry
      among them that writes to it says, or what it was. */
  ghost predicate ValueAfter(db: Database, log: seq<LogEntry>, i: nat, j: nat, key: string, after: Option<string>)
    requires i <= j <= |log|
  {
    || (exists w :: i <= w < j && LastAmong(log, i, j, key, w) && after == Some(log[w].payload.command.value))
    || (NoneAmong(log, i, j, key) && after == if key in db then Some(db[key]) else None)
  }

  ghost predicate LastAmong(log: seq<LogEntry>, i: nat, j: nat, key: string, w: nat)
    requires i <= j <= |log|
  {
    i <= w < j && EntryWrites(log[w], key) && forall x :: w < x < j ==> !EntryWrites(log[x], key)
  }

  ghost predicate NoneAmong(log: seq<LogEntry>, i: nat, j: nat, key: string)
    requires i <= j <= |log|
  {
    forall x :: i <= x < j ==> !EntryWrites(log[x], key)
  }

  function ValueIn(db: Database, key: string): Option<string> {
    if key in db then Some(db[key]) else None
  }

  /** Applying entries `i..j` leaves every key with the value the last of them that writes to
      it gives. */
  lemma {:induction false} LastEntryStands(db: Database, log: seq<LogEntry>, i: nat, j: nat, key: string)
    requires i <= j <= |log|
    ensures ValueAfter(db, log, i, j, key, ValueIn(Before(db, log, i, j), key))
    decreases j - i
  {
    if i == j {
      BeforeNothing(db, log, i);
    } else {
      var e := log[i];
      var db1 := if Runs(e).Some? then Run(db, Runs(e).value) else db;
      BeforeFirst(db, log, i, j);
      LastEntryStands(db1, log, i + 1, j, key);
      FirstEntry(db, log, i, key);
      ValueStep(db, db1, log, i, j, key, ValueIn(Before(db, log, i, j), key));
    }
  }

  lemma BeforeFirst(db: Database, log: seq<LogEntry>, i: nat, j: nat)
    requires i < j <= |log|
    ensures Before(db, log, i, j) == Before(if Runs(log[i]).Some? then Run(db, Runs(log[i]).value) else db, log, i + 1, j)
  {
    CommandsFirst(log, i, j);
    if Runs(log[i]).Some? {
      FoldConcat(db, [Runs(log[i]).value], Commands(log, i + 1, j));
      assert Fold(db, [Runs(log[i]).value]) == Run(db, Runs(log[i]).value);
    } else {
      assert [] + Commands(log, i + 1, j) == Commands(log, i + 1, j);
    }
  }

  lemma FirstEntry(db: Database, log: seq<LogEntry>, i: nat, key: string)
    requires i < |log|
    ensures var db1 := if Runs(log[i]).Some? then Run(db, Runs(log[i]).value) else db;
            ValueIn(db1, key) == if EntryWrites(log[i], key) then Some(log[i].payload.command.value) else ValueIn(db, key)
  {
  }

  lemma ValueStep(db: Database, db1: Database, log: seq<LogEntry>, i: nat, j: nat, key: string, after: Option<string>)
    requires i < j <= |log| && ValueAfter(db1, log, i + 1, j, key, after)
    requires ValueIn(db1, key) == if EntryWrites(log[i], key) then Some(log[i].payload.command.value) else ValueIn(db, key)
    ensures ValueAfter(db, log, i, j, key, after)
  {
    if NoneAmong(log, i + 1, j, key) {
      if EntryWrites(log[i], key) { assert LastAmong(log, i, j, key, i); }
    } else {
      var w :| i + 1 <= w < j && LastAmong(log, i + 1, j, key, w) && after == Some(log[w].payload.command.value);
      assert LastAmong(log, i, j, key, w);
    }
  }

  /** `value` is what a command after entries `i..at` of a log answers, on a database that was
      `db` before them: a write its own value, a read the value of the last of these entries
      that writes to its key, else what `db` says of it, else the empty string. */
  ghost predicate AnswersWith(db: Database, log: seq<LogEntry>, i: nat, at: nat, c: MachineCommand, value: string)
    requires i <= at <= |log|
  {
    if c.operation == "write" then value == c.value
    else (value == "" && ValueAfter(db, log, i, at, c.key, None)) || ValueAfter(db, log, i, at, c.key, Some(value))
  }

  /** What an apply loop over entries `i..j` leaves: every key as the last write among them
      says; beside each write its own value, beside each read the value its key had just
      before, or the empty string; and everything else untouched. */
  lemma AppliedMeans(n: NodeState, k: NodeState, i: nat, j: nat)
    requires i <= j <= |n.log| && AppliedRange(n, k, i, j)
    ensures k == n.(database := k.database, log := k.log, lastApplied := k.lastApplied) && |k.log| == |n.log|
    ensures forall key :: ValueAfter(n.database, n.log, i, j, key, ValueIn(k.database, key))
    ensures forall x :: 0 <= x < |n.log| && !(i <= x < j && n.log[x].kind == CommandEntry) ==> k.log[x] == n.log[x]
    ensures forall x :: i <= x < j && n.log[x].kind == CommandEntry && n.log[x].payload.Machine? ==>
              && k.log[x] == n.log[x].(result := k.log[x].result)
              && AnswersWith(n.database, n.log, i, x, n.log[x].payload.command, k.log[x].result)
  {
    hide Before;
    forall key ensures ValueAfter(n.database, n.log, i, j, key, ValueIn(k.database, key)) {
      LastEntryStands(n.database, n.log, i, j, key);
    }
    forall x | i <= x < j && n.log[x].kind == CommandEntry && n.log[x].payload.Machine?
      ensures AnswersWith(n.database, n.log, i, x, n.log[x].payload.command, k.log[x].result)
    {
      var c := n.log[x].payload.command;
      LastEntryStands(n.database, n.log, i, x, c.key);
      assert k.log[x].result == Result(Before(n.database, n.log, i, x), c);
    }
  }
}
