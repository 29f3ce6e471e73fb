/** Membership changes from the fields of the node and the message alone: what a leader
    records, what configuration its log then amounts to, and what a follower makes of it. */
module Membership {
  import opened Types
  import opened Rules
  import opened Interpreter
  import opened Reactions
  import opened Effects
  import opened Config
  import opened Hearing

  /** Nothing stands in the way of a change: the last one the leader knows of is committed, and
      so is an entry of its own term. */
  predicate Unhindered(n: NodeState) {
    n.changeIndex <= n.commitIndex && 0 <= n.commitIndex < |n.log| && n.log[n.commitIndex].term == n.currentTerm
  }

  /** A refused change changes nothing, and the answer says why. */
  lemma ChangeHindered(n: NodeState, ev: Event, now: int)
    requires !n.halted && n.role.Leader? && (ev.AddServer? || ev.RemoveServer?) && !Unhindered(n)
    ensures React(n, ev, now)
         == Outcome(n, [Answer(Failed(if n.commitIndex < n.changeIndex then "previous change in progress"
                                      else "did not commit anything on current term yet"))])
  {
    hide React;
    ChangeOutcome(n, ev, now);
  }

  /** The index maps `k` has for its peers: what `n` knew of them, or 0 and -1. */
  ghost predicate IndicesKept(n: NodeState, k: NodeState) {
    && (forall x :: x in k.nextIndex <==> x in k.peers)
    && (forall x :: x in k.nextIndex ==> k.nextIndex[x] == if x in n.nextIndex then n.nextIndex[x] else 0)
    && (forall x :: x in k.matchIndex <==> x in k.peers)
    && (forall x :: x in k.matchIndex ==> k.matchIndex[x] == if x in n.matchIndex then n.matchIndex[x] else -1)
  }

  /** An addition. The leader appends a record of the configuration it knows, itself included,
      and of that one with the new server; it lists the server among its peers, once, and names
      the place of the record. Its own index of the last change it does not touch. */
  lemma ServerAdded(n: NodeState, server: Address, now: int)
    requires !n.halted && n.role.Leader? && Unhindered(n)
    ensures var o := React(n, AddServer(server), now); var k := o.node;
            && o.out == [Answer(CheckLater(|n.log|, n.currentTerm))]
            && k == n.(peers := if server in n.peers then n.peers else n.peers + [server],
                       nextIndex := k.nextIndex, matchIndex := k.matchIndex,
                       log := n.log + [LogEntry(n.currentTerm, AddServerEntry,
                                Cluster(ClusterRecord(n.changeIndex, n.changeTerm, n.peers + [n.address],
                                                      n.peers + [n.address, server])), "")])
            && (if server in n.peers then k.nextIndex == n.nextIndex && k.matchIndex == n.matchIndex else IndicesKept(n, k))
  {
    hide React, Indices;
    ChangeOutcome(n, AddServer(server), now);
  }

  /** A removal of a peer. The new configuration is the one the leader knows without the server;
      the list of peers gets one shorter, and blank slots stand for its further copies. A
      removal of anybody else, the leader itself included, is death. */
  lemma ServerRemoved(n: NodeState, server: Address, now: int) returns (left: seq<Address>)
    requires !n.halted && n.role.Leader? && Unhindered(n)
    ensures multiset(left) == multiset(n.peers + [n.address])[server := 0]
    ensures var o := React(n, RemoveServer(server), now); var k := o.node;
            if server !in n.peers then o == Outcome(n.(halted := true), [])
            else
              && o.out == [Answer(CheckLater(|n.log|, n.currentTerm))]
              && k == n.(peers := k.peers, nextIndex := k.nextIndex, matchIndex := k.matchIndex,
                         log := n.log + [LogEntry(n.currentTerm, AddServerEntry,
                                  Cluster(ClusterRecord(n.changeIndex, n.changeTerm, n.peers + [n.address], left)), "")])
              && |k.peers| == |n.peers| - 1
              && multiset(k.peers) == multiset(n.peers)[server := 0] + multiset(seq(multiset(n.peers)[server] - 1, _ => ""))
              && IndicesKept(n, k)
  {
    hide React, Indices, Others;
    left := Others(n.peers + [n.address], server);
    OthersAre(n.peers + [n.address], server);
    OthersAre(n.peers, server);
    OthersCount(n.peers, server);
    ChangeOutcome(n, RemoveServer(server), now);
  }

  // ----- the configuration in force -----

  /** For a leader that knows the configuration its log amounts to, an addition adds exactly the
      new server to it. */
  lemma AdditionAdds(n: NodeState, server: Address, now: int, base: set<Address>)
    requires !n.halted && n.role.Leader? && Unhindered(n) && Knows(n, base)
    ensures var k := React(n, AddServer(server), now).node;
            !k.halted && ConfigOf(k.log, base) == ConfigOf(n.log, base) + {server}
  {
    hide React, LastChange, SetOf;
    ServerAdded(n, server, now);
    var e := React(n, AddServer(server), now).node.log[|n.log|];
    SpliceConfig(n.log, [e], base);
    LastIs([e], 0);
    SetOfConcat(n.peers, [n.address]);
    assert n.peers + [n.address, server] == n.peers + [n.address] + [server];
    SetOfConcat(n.peers + [n.address], [server]);
    SetOfOne(n.address);
    SetOfOne(server);
  }

  /** And a removal of a peer takes exactly that one out. */
  lemma RemovalRemoves(n: NodeState, server: Address, now: int, base: set<Address>)
    requires !n.halted && n.role.Leader? && Unhindered(n) && Knows(n, base) && server in n.peers
    ensures var k := React(n, RemoveServer(server), now).node;
            !k.halted && ConfigOf(k.log, base) == ConfigOf(n.log, base) - {server}
  {
    hide React, LastChange, ConfigOf;
    var left := ServerRemoved(n, server, now);
    var e := React(n, RemoveServer(server), now).node.log[|n.log|];
    SpliceConfig(n.log, [e], base);
    LastIs([e], 0);
    SetOfConcat(n.peers, [n.address]);
    SetOfOne(n.address);
    SetOfLeft(left, n.peers + [n.address], server);
  }

  lemma SetOfLeft(left: seq<Address>, all: seq<Address>, server: Address)
    requires multiset(left) == multiset(all)[server := 0]
    ensures SetOf(left) == SetOf(all) - {server}
  {
    SetOfHas(left);
    SetOfHas(all);
    forall x ensures x in left <==> x in all && x != server {
      assert x in left <==> multiset(left)[x] > 0;
      assert x in all <==> multiset(all)[x] > 0;
    }
  }

  // ----- followers -----

  /** A request without changes that cuts off changes the node knows of: it falls back to the
      last change that is left, with all members of that configuration but itself as peers. */
  lemma CutFallsBack(n: NodeState, m: AppendRequest, now: int, base: set<Address>)
    requires !n.halted && Hears(n, m) && Replied(React(n, AppendEntries(m), now).out, true)
    requires Tracks(n, base) && Chained(n.log, base) && |m.entries| > 0 && m.prevIndex < n.changeIndex
    requires forall x :: 0 <= x < |m.entries| ==> m.entries[x].kind != AddServerEntry && m.entries[x].kind != RemoveServerEntry
    ensures -1 <= m.prevIndex < |n.log|
    ensures var k := React(n, AppendEntries(m), now).node; var left := n.log[..m.prevIndex + 1];
            && k.changeIndex == LastChange(left) && k.changeTerm == ChangeTermOf(left)
            && SetOf(k.peers) == ConfigOf(left, base) - {n.address}
  {
    hide React, Takes, Stored, Rewind, Receiver, Hears, LastChange, Others, ConfigOf, ChangeTermOf, SetOf, Chained;
    AcceptedLog(n, m, now);
    TakenConfig(n, m, now);
    var f := Receiver(n, m.term);
    LastIs(m.entries, -1);
    SameLogSelf(n.log);
    TracksSame(n, f, base);
    RewindTerminates(f, base, m);
    StoredConfig(f, m, now);
    OthersSet(Rewind(f.log, m.prevIndex, Recorded(f)).cluster, n.address);
  }

  /** A follower that accepts a request whose last change is the leader's addition has, among
      its peers, the leader, everybody the leader listed, and the new server - except itself. */
  lemma AdditionAdopted(n: NodeState, server: Address, now: int, f: NodeState, m: AppendRequest, later: int, c: nat)
    requires !n.halted && n.role.Leader? && Unhindered(n)
    requires !f.halted && Hears(f, m) && Replied(React(f, AppendEntries(m), later).out, true) && c < |m.entries|
    requires var log := React(n, AddServer(server), now).node.log; |log| > |n.log| && Same(m.entries[c], log[|n.log|])
    requires forall x :: c < x < |m.entries| ==> m.entries[x].kind != AddServerEntry && m.entries[x].kind != RemoveServerEntry
    ensures var g := React(f, AppendEntries(m), later).node;
            forall x :: x in g.peers <==> (x in n.peers || x == n.address || x == server) && x != f.address
  {
    hide React, Hears, Replied;
    ServerAdded(n, server, now);
    AcceptedConfig(f, m, later, c);
    var g := React(f, AppendEntries(m), later).node;
    InOthers(g.peers, n.peers + [n.address, server], f.address);
  }

  /** One that accepts a removal has the leader and everybody the leader listed except the
      server removed - and except itself. */
  lemma RemovalAdopted(n: NodeState, server: Address, now: int, f: NodeState, m: AppendRequest, later: int, c: nat)
    requires !n.halted && n.role.Leader? && Unhindered(n) && server in n.peers
    requires !f.halted && Hears(f, m) && Replied(React(f, AppendEntries(m), later).out, true) && c < |m.entries|
    requires var log := React(n, RemoveServer(server), now).node.log; |log| > |n.log| && Same(m.entries[c], log[|n.log|])
    requires forall x :: c < x < |m.entries| ==> m.entries[x].kind != AddServerEntry && m.entries[x].kind != RemoveServerEntry
    ensures var g := React(f, AppendEntries(m), later).node;
            forall x :: x in g.peers <==> (x in n.peers || x == n.address) && x != server && x != f.address
  {
    hide React, Hears, Replied;
    var left := ServerRemoved(n, server, now);
    AcceptedConfig(f, m, later, c);
    var g := React(f, AppendEntries(m), later).node;
    InOthers(g.peers, left, f.address);
    InOthers(left, n.peers + [n.address], server);
  }

  lemma InOthers(some: seq<Address>, all: seq<Address>, out: Address)
    requires multiset(some) == multiset(all)[out := 0]
    ensures forall x :: x in some <==> x in all && x != out
  {
    forall x ensures x in some <==> x in all && x != out {
      assert x in some <==> multiset(some)[x] > 0;
      assert x in all <==> multiset(all)[x] > 0;
    }
  }
}
