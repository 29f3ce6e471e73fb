/** The executor: it owns storage, status, log and state machine, and carries out lists of
    actions on them in place. Every method is proved against the interpreter on values. */
module Executors {
  import opened Types
  import opened Decimal
  import opened Storage
  import opened Statuses
  import opened RaftLogs
  import Rules
  import RuleHandler
  import KeyValue
  import Interpreter

  /** A log over a store that holds `entries` is a log of `entries`. */
  lemma LogOf(log: RaftLog, entries: seq<LogEntry>)
    requires LogStored(log.storage.data, entries) && log.lastIndex == |entries| - 1
    ensures log.Valid() && log.Contents() == entries
  {
    hide LogStored;
    assert log.Valid();
    LogStoredUnique(log.storage.data, entries, log.Contents());
  }

  /** What a process knows right after it opened its storage: the durable status, the log,
      and defaults for everything else. */
  function Opened(d: Durable, log: seq<LogEntry>, minElectionTimeout: int, lastHeard: int): NodeState {
    NodeState(Follower, d.address, d.currentTerm, d.votedFor, 0, -1, -1, d.peers,
              Indices(d.peers, map[], 0), Indices(d.peers, map[], -1),
              d.changeIndex, d.changeTerm, lastHeard, minElectionTimeout, log, map[], false)
  }

  predicate Persists(a: Action) {
    a.SetCurrentTerm? || a.SetVotedFor? || a.SetClusterChange?
  }

  predicate InMemory(a: Action) {
    a.SetVoteCount? || a.SetCommitIndex? || a.SetLastApplied? || a.SetNextIndex? || a.SetMatchIndex? || a.SetLeaderLastHeard?
  }

  lemma FieldMeans(n: NodeState, a: Action, chan: bool)
    requires InMemory(a)
    ensures Interpreter.Perform(n, a, chan).out == []
    ensures Interpreter.Perform(n, a, chan).node ==
              match a
              case SetVoteCount(c) => n.(voteCount := c)
              case SetCommitIndex(i) => n.(commitIndex := i)
              case SetLastApplied(i) => n.(lastApplied := i)
              case SetNextIndex(p, i) => n.(nextIndex := n.nextIndex[p := i])
              case SetMatchIndex(p, i) => n.(matchIndex := n.matchIndex[p := i])
              case SetLeaderLastHeard(t) => n.(leaderLastHeard := t)
  {
  }

  class Executor {
    const storage: Store
    const status: Status
    const log: RaftLog
    const machine: KeyValue.StateMachine
    /** Everything that left the node: replies, requests to peers, timer settings. */
    var sent: seq<Output>
    /** The process died of a panic. */
    var halted: bool

    ghost predicate Valid()
      reads this, storage, status, log
    {
      status.storage == storage && log.storage == storage && status.Valid() && log.Valid()
    }

    /** The state as a value. */
    function Node(): (n: NodeState)
      requires Valid()
      reads this, storage, status, log, machine
      ensures n.role == status.role && n.halted == halted
    {
      NodeState(status.role, status.address, status.currentTerm, status.votedFor, status.voteCount,
                status.commitIndex, status.lastApplied, status.peers, status.nextIndex, status.matchIndex,
                status.changeIndex, status.changeTerm, status.leaderLastHeard, status.minElectionTimeout,
                log.Contents(), machine.database, halted)
    }

    /** Open the given storage; address and peers count only when it is fresh. */
    constructor (nodeAddress: Address, peerAddresses: seq<Address>, storage: Store, minElectionTimeout: int, longAgo: int)
      requires Readable(storage.data) && exists log :: LogStored(storage.data, log)
      modifies storage
      ensures Valid() && fresh(status) && fresh(log) && fresh(machine) && this.storage == storage && sent == []
      ensures forall d, log :: StatusStored(old(storage.data), d) && LogStored(old(storage.data), log) ==>
                Node() == Opened(d, log, minElectionTimeout, longAgo)
      ensures old(storage.data) == map[] ==>
                Node() == Opened(Durable(nodeAddress, peerAddresses, 0, "", -1, -1), [], minElectionTimeout, longAgo)
    {
      hide LogStored, StatusStored, OnlyStatusWritten, OnlyLogWritten, Indices, IntStored, FormatInt, Readable;
      ghost var entries :| LogStored(storage.data, entries);
      ghost var start := storage.data;
      this.storage := storage;
      var stat := new Status(nodeAddress, peerAddresses, storage, minElectionTimeout, longAgo);
      StatusWritesKeepLog(start, storage.data, entries);
      var opened' := RaftLog.Open(storage);
      status, log := stat, opened'.value;
      machine := new KeyValue.StateMachine();
      sent, halted := [], false;
      new;
      forall l | LogStored(start, l) ensures l == entries { LogStoredUnique(start, entries, l); }
      if start == map[] { EmptyLog(entries); }
    }

    /** Enter the follower state for the first time. */
    method Run(now: int)
      requires Valid()
      modifies this, storage, status, log, machine
      ensures var r := old(Node()).(role := Follower); var o := Interpreter.Implement(Rules.OnStateChanged(r), StateChanged, false, r, now);
              Valid() && Node() == o.node && sent == old(sent) + o.out
    {
      hide LogStored, StatusStored, OnlyStatusWritten, OnlyLogWritten, Indices, IntStored, FormatInt,
           RaftLog.Contents, RaftLog.Valid;
      hide Interpreter.Implement, Rules.OnStateChanged;
      status.SetState(Follower);
      var actions := RuleHandler.OnStateChanged(Node());
      ImplementActions(actions, StateChanged, false, now);
    }

    // ----- single actions -----

    method WriteTerm(term: int)
      requires Valid()
      modifies status, storage
      ensures Valid() && Node() == old(Node()).(currentTerm := term)
    {
      hide LogStored, StatusStored, OnlyStatusWritten, OnlyLogWritten, IntStored, FormatInt;
      ghost var start, before := storage.data, log.Contents();
      status.SetCurrentTerm(term);
      StatusWritesKeepLog(start, storage.data, before);
      LogOf(log, before);
    }

    method WriteVote(vote: Address)
      requires Valid()
      modifies status, storage
      ensures Valid() && Node() == old(Node()).(votedFor := vote)
    {
      hide LogStored, StatusStored, OnlyStatusWritten, OnlyLogWritten, IntStored, FormatInt;
      ghost var start, before := storage.data, log.Contents();
      status.SetVotedFor(vote);
      StatusWritesKeepLog(start, storage.data, before);
      LogOf(log, before);
    }

    method WriteChange(index: int, term: int)
      requires Valid()
      modifies status, storage
      ensures Valid() && Node() == old(Node()).(changeIndex := index, changeTerm := term)
    {
      hide LogStored, StatusStored, OnlyStatusWritten, OnlyLogWritten, IntStored, FormatInt;
      ghost var start, before := storage.data, log.Contents();
      status.SetClusterChange(index, term);
      StatusWritesKeepLog(start, storage.data, before);
      LogOf(log, before);
    }

    /** A field of the status that is also written to the store. */
    method WriteDurable(a: Action, chan: bool)
      requires Valid() && Persists(a)
      modifies status, storage
      ensures Valid() && Node() == Interpreter.Perform(old(Node()), a, chan).node
      ensures Interpreter.Perform(old(Node()), a, chan).out == []
    {
      hide Valid, Node;
      match a {
        case SetCurrentTerm(t) => WriteTerm(t);
        case SetVotedFor(v) => WriteVote(v);
        case SetClusterChange(i, t) => WriteChange(i, t);
      }
    }

    method ReplacePeers(peers: seq<Address>)
      requires Valid()
      modifies status, storage
      ensures Valid() && Node() == Interpreter.WithPeers(old(Node()), peers)
    {
      hide LogStored, StatusStored, OnlyStatusWritten, OnlyLogWritten, Indices, IntStored, FormatInt;
      ghost var start, before := storage.data, log.Contents();
      status.SetPeerAddresses(peers);
      StatusWritesKeepLog(start, storage.data, before);
      LogOf(log, before);
    }

    method WriteField(a: Action, chan: bool)
      requires Valid() && InMemory(a)
      modifies status
      ensures Valid() && Node() == Interpreter.Perform(old(Node()), a, chan).node
      ensures Interpreter.Perform(old(Node()), a, chan).out == []
    {
      hide LogStored, StatusStored, RaftLog.Contents, RaftLog.Valid, Interpreter.Perform;
      FieldMeans(Node(), a, chan);
      match a {
        case SetVoteCount(c) => status.SetVoteCount(c);
        case SetCommitIndex(i) => status.SetCommitIndex(i);
        case SetLastApplied(i) => status.SetLastApplied(i);
        case SetNextIndex(p, i) => status.SetNextIndex(p, i);
        case SetMatchIndex(p, i) => status.SetMatchIndex(p, i);
        case SetLeaderLastHeard(t) => status.SetLeaderLastHeard(t);
      }
    }

    method IncludeServer(server: Address)
      requires Valid()
      modifies status, storage
      ensures Valid() && Node() == Interpreter.Included(old(Node()), server)
    {
      hide LogStored, StatusStored, OnlyStatusWritten, OnlyLogWritten, Interpreter.WithPeers, IntStored, FormatInt;
      var addresses := status.peers;
      var inTheList := false;
      for i := 0 to |addresses|
        invariant inTheList <==> server in addresses[..i]
      {
        if server == addresses[i] {
          inTheList := true;
          break;
        }
      }
      assert addresses[..|addresses|] == addresses;
      if !inTheList {
        ReplacePeers(addresses + [server]);
      }
    }

    /** Copy every other address into a list one shorter; overflowing it is a panic, and so
        is making that list for nobody. */
    static method CopyOthers(oldAddresses: seq<Address>, server: Address) returns (addresses: Option<seq<Address>>)
      ensures var kept := Rules.Others(oldAddresses, server);
              addresses == if |kept| >= |oldAddresses| then None else Some(kept + seq(|oldAddresses| - 1 - |kept|, _ => ""))
    {
      hide Rules.Others;
      if |oldAddresses| == 0 {
        OthersNobody(server);
        return None;
      }
      assert oldAddresses[0..] == oldAddresses;
      var copy := seq(|oldAddresses| - 1, _ => "");
      var index := 0;
      for i := 0 to |oldAddresses|
        invariant 0 <= index <= |copy| == |oldAddresses| - 1
        invariant copy[..index] + Rules.Others(oldAddresses[i..], server) == Rules.Others(oldAddresses, server)
        invariant forall j :: index <= j < |copy| ==> copy[j] == ""
      {
        OthersStep(oldAddresses, i, server);
        if oldAddresses[i] != server {
          if index == |copy| {
            return None;
          }
          copy := copy[index := oldAddresses[i]];
          index := index + 1;
        }
      }
      OthersNobody(server);
      assert oldAddresses[|oldAddresses|..] == [] && copy[..index] == Rules.Others(oldAddresses, server);
      assert copy == copy[..index] + seq(|copy| - index, _ => "");
      addresses := Some(copy);
    }

    method ExcludeServer(server: Address)
      requires Valid()
      modifies this`halted, status, storage
      ensures Valid() && Node() == Interpreter.Excluded(old(Node()), server)
    {
      hide LogStored, StatusStored, OnlyStatusWritten, OnlyLogWritten, Interpreter.WithPeers, IntStored, FormatInt;
      var addresses := CopyOthers(status.peers, server);
      if addresses.None? {
        halted := true;
      } else {
        ReplacePeers(addresses.value);
      }
    }

    method AppendOne(entry: LogEntry)
      requires Valid()
      modifies log, storage
      ensures Valid() && Node() == old(Node()).(log := old(Node()).log + [entry])
    {
      hide LogStored, StatusStored, OnlyStatusWritten, OnlyLogWritten, Indices, IntStored, FormatInt;
      ghost var start := storage.data;
      log.Append(entry);
      LogWritesKeepStatus(start, storage.data, status.Persisted());
    }

    method AppendEntries(entries: seq<LogEntry>)
      requires Valid()
      modifies log, storage
      ensures Valid() && Node() == old(Node()).(log := old(Node()).log + entries)
    {
      hide Valid, Node;
      for i := 0 to |entries|
        invariant Valid() && Node() == old(Node()).(log := old(Node()).log + entries[..i])
      {
        AppendOne(entries[i]);
        assert entries[..i + 1] == entries[..i] + [entries[i]];
      }
      assert entries[..|entries|] == entries;
    }

    /** False for the panic on an empty log. */
    method DeleteOne() returns (ok: bool)
      requires Valid()
      modifies log, storage
      ensures Valid() && ok == (|old(Node()).log| > 0)
      ensures Node() == if ok then old(Node()).(log := old(Node()).log[..|old(Node()).log| - 1]) else old(Node())
    {
      hide LogStored, StatusStored, OnlyStatusWritten, OnlyLogWritten, Indices, IntStored, FormatInt;
      ghost var start := storage.data;
      ok := log.Remove();
      LogWritesKeepStatus(start, storage.data, status.Persisted());
    }

    method DeleteEntries(count: int)
      requires Valid()
      modifies this`halted, log, storage
      ensures Valid() && Node() == Interpreter.Deleted(old(Node()), count)
    {
      hide RaftLog.Contents, RaftLog.Valid, Status.Valid;
      ghost var all := Node().log;
      var index := 0;
      while index < count
        invariant 0 <= index <= |all| && (index <= count || index == 0)
        invariant Valid() && Node() == old(Node()).(log := all[..|all| - index])
      {
        var ok := DeleteOne();
        if !ok {
          halted := true;
          return;
        }
        index := index + 1;
      }
    }

    method ApplyEntry(index: int)
      requires Valid()
      modifies this`halted, log, storage, machine
      ensures Valid() && Node() == Interpreter.Applied(old(Node()), index)
    {
      hide LogStored, StatusStored, OnlyStatusWritten, OnlyLogWritten, Indices, IntStored, FormatInt;
      var entry := log.Get(index);
      if entry.None? {
        halted := true;
        return;
      }
      var result := machine.Apply(entry.value.payload);
      if result.None? {
        halted := true;
        return;
      }
      StoreResult(index, entry.value.(result := result.value));
    }

    method StoreResult(index: int, entry: LogEntry)
      requires Valid() && 0 <= index < |Node().log|
      modifies log, storage
      ensures Valid() && Node() == old(Node()).(log := old(Node()).log[index := entry])
    {
      hide LogStored, StatusStored, OnlyStatusWritten, OnlyLogWritten, Indices, IntStored, FormatInt;
      ghost var start := storage.data;
      var ok := log.Update(index, entry);
      LogWritesKeepStatus(start, storage.data, status.Persisted());
    }

    method Send(o: Output)
      requires Valid()
      modifies this`sent
      ensures Valid() && Node() == old(Node()) && sent == old(sent) + [o]
    {
      hide LogStored, StatusStored, RaftLog.Contents, RaftLog.Valid, Status.Valid;
      sent := sent + [o];
    }

    method Die()
      requires Valid()
      modifies this`halted
      ensures Valid() && Node() == old(Node()).(halted := true)
    {
      hide LogStored, StatusStored, RaftLog.Contents, RaftLog.Valid, Status.Valid;
      halted := true;
    }

    /** What goes out: to the reply channel, to a peer, or to the timer. */
    method Emit(a: Action, chan: bool)
      requires Valid() && (a.ResetTimer? || a.SendAppend? || a.SendVote? || a.Respond? || a.Crash?)
      modifies this
      ensures Valid() && Node() == Interpreter.Perform(old(Node()), a, chan).node
      ensures sent == old(sent) + Interpreter.Perform(old(Node()), a, chan).out
    {
      hide Valid, Node, Interpreter.Included, Interpreter.Excluded, Interpreter.Deleted, Interpreter.Applied;
      match a {
        case ResetTimer(h) => Send(Timer(h));
        case SendAppend(d, m) => Send(AppendRpc(d, m));
        case SendVote(d, m) => Send(VoteRpc(d, m));
        case Respond(r) =>
          if chan {
            Send(Answer(r));
          } else {
            Die();
          }
        case Crash => Die();
      }
    }

    /** Every action that does not nest. */
    method Perform(a: Action, chan: bool)
      requires Valid() && !Interpreter.IsControl(a)
      modifies this, storage, status, log, machine
      ensures Valid() && Node() == Interpreter.Perform(old(Node()), a, chan).node
      ensures sent == old(sent) + Interpreter.Perform(old(Node()), a, chan).out
    {
      hide Valid, Node;
      hide Interpreter.Included, Interpreter.Excluded, Interpreter.Deleted, Interpreter.Applied;
      if InMemory(a) {
        WriteField(a, chan);
      } else if Persists(a) {
        WriteDurable(a, chan);
      } else if a.SetPeers? {
        ReplacePeers(a.peers);
      } else if a.IncludeServer? {
        IncludeServer(a.server);
      } else if a.ExcludeServer? {
        ExcludeServer(a.server);
      } else if a.AppendLog? {
        AppendEntries(a.entries);
      } else if a.DeleteLog? {
        DeleteEntries(a.count);
      } else if a.ApplyEntry? {
        ApplyEntry(a.index);
      } else {
        Emit(a, chan);
      }
    }

    // ----- lists of actions -----

    /** Carry out the actions in order. */
    method ImplementActions(actions: seq<Action>, ev: Event, chan: bool, now: int)
      requires Valid()
      modifies this, storage, status, log, machine
      ensures Valid() && Node() == Interpreter.Implement(actions, ev, chan, old(Node()), now).node
      ensures sent == old(sent) + Interpreter.Implement(actions, ev, chan, old(Node()), now).out
      decreases Interpreter.Level(actions, status.role.Follower?), |actions|, 2
    {
      hide Valid, Node;
      hide Interpreter.Implement, Interpreter.First, Interpreter.Level, Remaining;
      ghost var start, out := Node(), [];
      var i := 0;
      Begun(actions, ev, chan, now, start);
      while i < |actions| && !halted
        invariant 0 <= i <= |actions|
        invariant Valid() && sent == old(sent) + out
        invariant Interpreter.Level(actions[i..], status.role.Follower?) <= Interpreter.Level(actions, start.role.Follower?)
        invariant Remaining(actions, i, ev, chan, now, start, Node(), out)
      {
        ghost var n := Node();
        RestNoDeeper(actions[i..], ev, chan, n, now);
        StepTaken(actions, i, ev, chan, now, start, n, out);
        out := out + Interpreter.First(actions[i..], ev, chan, n, now).out;
        ImplementFirst(actions[i..], ev, chan, now);
        assert actions[i..][1..] == actions[i + 1..];
        i := i + 1;
      }
      Finished(actions, i, ev, chan, now, start, Node(), out);
    }

    /** The first action of a list, nested work included. */
    method ImplementFirst(actions: seq<Action>, ev: Event, chan: bool, now: int)
      requires Valid() && |actions| > 0
      modifies this, storage, status, log, machine
      ensures Valid() && Node() == Interpreter.First(actions, ev, chan, old(Node()), now).node
      ensures sent == old(sent) + Interpreter.First(actions, ev, chan, old(Node()), now).out
      decreases Interpreter.Level(actions, status.role.Follower?), |actions|, 1
    {
      hide Valid, Node, Interpreter.First, Interpreter.Perform, Interpreter.Level;
      if actions[0].SetState? {
        EnterState(actions, ev, chan, now);
      } else if actions[0].Reprocess? {
        ProcessAgain(actions, ev, chan, now);
      } else {
        PlainFirst(actions, ev, chan, Node(), now);
        Perform(actions[0], chan);
      }
    }

    /** A state change runs its own actions before the rest of the list. */
    method EnterState(actions: seq<Action>, ev: Event, chan: bool, now: int)
      requires Valid() && |actions| > 0 && actions[0].SetState?
      modifies this, storage, status, log, machine
      ensures Valid() && Node() == Interpreter.First(actions, ev, chan, old(Node()), now).node
      ensures sent == old(sent) + Interpreter.First(actions, ev, chan, old(Node()), now).out
      decreases Interpreter.Level(actions, status.role.Follower?), |actions|, 0
    {
      hide Interpreter.Implement, Interpreter.First, Interpreter.Level, Rules.OnStateChanged, Valid, Node;
      StateFirst(actions, ev, chan, Node(), now);
      SetRole(actions[0].role);
      var subactions := RuleHandler.OnStateChanged(Node());
      ImplementActions(subactions, StateChanged, false, now);
    }

    method SetRole(role: Role)
      requires Valid()
      modifies status
      ensures Valid() && Node() == old(Node()).(role := role)
    {
      hide LogStored, StatusStored, RaftLog.Contents, RaftLog.Valid;
      status.SetState(role);
    }

    /** `Reprocess` hands the event to the handler of the role the node is in by then. */
    method ProcessAgain(actions: seq<Action>, ev: Event, chan: bool, now: int)
      requires Valid() && |actions| > 0 && actions[0].Reprocess?
      modifies this, storage, status, log, machine
      ensures Valid() && Node() == Interpreter.First(actions, ev, chan, old(Node()), now).node
      ensures sent == old(sent) + Interpreter.First(actions, ev, chan, old(Node()), now).out
      decreases Interpreter.Level(actions, status.role.Follower?), |actions|, 0
    {
      hide Interpreter.Implement, Interpreter.First, Interpreter.Level, Rules.Handle, Valid, Node;
      ReprocessFirst(actions, ev, chan, Node(), now);
      var subactions := RuleHandler.Handle(Node(), ev, now);
      ImplementActions(subactions, ev, chan, now);
    }

    /** One event, from the handler's decision to its last effect. */
    method OnEvent(ev: Event, now: int)
      requires Valid()
      modifies this, storage, status, log, machine
      ensures Valid() && Node() == Interpreter.React(old(Node()), ev, now).node
      ensures sent == old(sent) + Interpreter.React(old(Node()), ev, now).out
    {
      hide Valid, Node;
      if halted {
        return;
      }
      var actions := RuleHandler.Handle(Node(), ev, now);
      ImplementActions(actions, ev, IsRpc(ev), now);
    }
  }

  lemma OthersNobody(server: Address)
    ensures Rules.Others([], server) == []
  {
  }

  lemma OthersStep(a: seq<Address>, i: nat, server: Address)
    requires i < |a|
    ensures Rules.Others(a[i..], server) == (if a[i] != server then [a[i]] else []) + Rules.Others(a[i + 1..], server)
  {
    assert a[i..][1..] == a[i + 1..];
  }

  // ----- the loop of ImplementActions -----

  /** From node `n`, with `out` already sent, what remains of the list leads where the whole
      list leads from `start`. */
  ghost predicate Remaining(actions: seq<Action>, i: int, ev: Event, chan: bool, now: int,
                            start: NodeState, n: NodeState, out: seq<Output>) {
    0 <= i <= |actions| &&
    var r := Interpreter.Implement(actions[i..], ev, chan, n, now);
    Interpreter.Implement(actions, ev, chan, start, now) == Outcome(r.node, out + r.out)
  }

  lemma Begun(actions: seq<Action>, ev: Event, chan: bool, now: int, start: NodeState)
    ensures actions[0..] == actions && Remaining(actions, 0, ev, chan, now, start, start, [])
  {
    hide Interpreter.Implement;
    assert actions[0..] == actions;
  }

  lemma StepTaken(actions: seq<Action>, i: int, ev: Event, chan: bool, now: int, start: NodeState, n: NodeState, out: seq<Output>)
    requires Remaining(actions, i, ev, chan, now, start, n, out) && i < |actions| && !n.halted
    ensures var o := Interpreter.First(actions[i..], ev, chan, n, now);
            Remaining(actions, i + 1, ev, chan, now, start, o.node, out + o.out)
  {
    hide Interpreter.Implement, Interpreter.First;
    Interpreter.Unfold(actions[i..], ev, chan, n, now);
    assert actions[i..][1..] == actions[i + 1..];
    var o := Interpreter.First(actions[i..], ev, chan, n, now);
    var r := Interpreter.Implement(actions[i + 1..], ev, chan, o.node, now);
    assert out + (o.out + r.out) == (out + o.out) + r.out;
  }

  lemma Finished(actions: seq<Action>, i: int, ev: Event, chan: bool, now: int, start: NodeState, n: NodeState, out: seq<Output>)
    requires Remaining(actions, i, ev, chan, now, start, n, out) && (i == |actions| || n.halted)
    ensures Interpreter.Implement(actions, ev, chan, start, now) == Outcome(n, out)
  {
    hide Interpreter.Implement;
    if n.halted {
      Interpreter.Dead(actions[i..], ev, chan, n, now);
    } else {
      Interpreter.Nothing(ev, chan, n, now);
    }
  }

  /** The rest of a list nests no deeper than the list. */
  lemma RestNoDeeper(actions: seq<Action>, ev: Event, chan: bool, n: NodeState, now: int)
    requires |actions| > 0
    ensures var o := Interpreter.First(actions, ev, chan, n, now);
            Interpreter.Level(actions[1..], o.node.role.Follower?) <= Interpreter.Level(actions, n.role.Follower?)
  {
    hide Interpreter.Implement, Interpreter.Perform, Rules.Handle, Rules.OnStateChanged;
    Interpreter.LevelDependence(actions[1..]);
  }

  /** What a state change or a reprocessing nests into nests less deeply than the list. */
  lemma StateFirst(actions: seq<Action>, ev: Event, chan: bool, n: NodeState, now: int)
    requires |actions| > 0 && actions[0].SetState?
    ensures var m := n.(role := actions[0].role);
            && Interpreter.Level(Rules.OnStateChanged(m), m.role.Follower?) < Interpreter.Level(actions, n.role.Follower?)
            && Interpreter.First(actions, ev, chan, n, now) == Interpreter.Implement(Rules.OnStateChanged(m), StateChanged, false, m, now)
  {
    hide Interpreter.Implement, Interpreter.Perform, Rules.Handle, Rules.OnStateChanged;
    Interpreter.OnStateChangedFlat(n.(role := actions[0].role));
  }

  lemma ReprocessFirst(actions: seq<Action>, ev: Event, chan: bool, n: NodeState, now: int)
    requires |actions| > 0 && actions[0].Reprocess?
    ensures Interpreter.Level(Rules.Handle(n, ev, now), n.role.Follower?) < Interpreter.Level(actions, n.role.Follower?)
    ensures Interpreter.First(actions, ev, chan, n, now) == Interpreter.Implement(Rules.Handle(n, ev, now), ev, chan, n, now)
  {
    hide Interpreter.Implement, Interpreter.Perform, Rules.Handle, Rules.OnStateChanged;
    Interpreter.HandleLevel(n, ev, now);
  }

  lemma PlainFirst(actions: seq<Action>, ev: Event, chan: bool, n: NodeState, now: int)
    requires |actions| > 0 && !Interpreter.IsControl(actions[0])
    ensures Interpreter.First(actions, ev, chan, n, now) == Interpreter.Perform(n, actions[0], chan)
  {
    hide Interpreter.Implement, Interpreter.Perform, Rules.Handle, Rules.OnStateChanged;
  }

  lemma EmptyLog(log: seq<LogEntry>)
    requires LogStored(map[], log)
    ensures log == []
  {
  }

  /** A process started on fresh storage is the node a system begins with. */
  method Boot(address: Address, peers: seq<Address>, minElectionTimeout: int, longAgo: int, now: int) returns (e: Executor)
    ensures fresh(e) && e.Valid()
    ensures e.Node() == Interpreter.Restart(Interpreter.Blank(address, peers, minElectionTimeout), longAgo, now).node
  {
    hide LogStored, StatusStored, OnlyStatusWritten, OnlyLogWritten, Interpreter.Implement, Rules.OnStateChanged;
    var storage := new Store();
    FreshStorage();
    e := new Executor(address, peers, storage, minElectionTimeout, longAgo);
    e.Run(now);
  }

  lemma FreshStorage()
    ensures Readable(map[]) && LogStored(map[], [])
  {
  }

  /** A process that dies and comes back over the same storage is the node's restart. */
  method Reboot(died: Executor, longAgo: int, now: int) returns (back: Executor)
    requires died.Valid()
    modifies died.storage
    ensures fresh(back) && back.Valid() && back.storage == died.storage
    ensures back.Node() == Interpreter.Restart(old(died.Node()), longAgo, now).node
  {
    hide LogStored, StatusStored, OnlyStatusWritten, OnlyLogWritten, Indices, IntStored, FormatInt, Readable,
         Interpreter.Implement, Rules.OnStateChanged;
    StoredIsReadable(died.storage.data, died.status.Persisted());
    ghost var d, log := died.status.Persisted(), died.log.Contents();
    assert StatusStored(died.storage.data, d) && LogStored(died.storage.data, log);
    back := new Executor("", [], died.storage, died.status.minElectionTimeout, longAgo);
    back.Run(now);
  }

  lemma StoredIsReadable(data: Data, d: Durable)
    requires StatusStored(data, d)
    ensures Readable(data)
  {
    hide FormatInt;
    IntRead(data, TERM_KEY, d.currentTerm, 0);
    IntRead(data, CHANGE_INDEX_KEY, d.changeIndex, -1);
    IntRead(data, CHANGE_TERM_KEY, d.changeTerm, -1);
  }

  lemma IntRead(data: Data, key: string, x: int, default: int)
    requires IntStored(data, key, x, default)
    ensures IntReadable(data, key)
  {
    if key in data { RoundTrip(x); }
  }
}
