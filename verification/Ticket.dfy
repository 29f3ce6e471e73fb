/** The client's ticket: where an accepted command lands, and what probing for it yields
    while the node stays leader. */
module Ticket {
  import opened Types
  import opened Rules
  import opened Interpreter
  import opened Reactions
  import opened Effects
  import opened KeyValue
  import opened Applying
  import opened Outcomes
  import opened NodeRuns
  import opened Replay

  /** A command accepted at index `at` in term `term` sits there. */
  ghost predicate Placed(n: NodeState, at: nat, term: int, p: Payload) {
    at < |n.log| && n.log[at].term == term && n.log[at].kind == CommandEntry && n.log[at].payload == p
  }

  /** Entry `at` has been applied by step from `n` to `k`, on top of exactly the entries
      before it that `n` had not applied yet, and carries the command's result. */
  ghost predicate AppliedThen(n: NodeState, k: NodeState, at: nat) {
    && -1 <= n.lastApplied < at <= k.lastApplied && at < |n.log| && at < |k.log|
    && CommandOf(n.log[at].payload).Some?
    && k.log[at].result == Result(Before(n.database, n.log, n.lastApplied + 1, at), CommandOf(n.log[at].payload).value)
  }

  /** One event of a leader that stays leader: the log keeps what it has, applied entries
      are not touched again, and the last-applied index passes an entry only by applying it. */
  lemma LeaderEvent(n: NodeState, ev: Event, now: int, at: nat)
    requires !n.halted && n.role.Leader? && !ev.StateChanged? && at < |n.log| && n.lastApplied >= -1
    requires n.log[at].kind == CommandEntry
    requires var k := React(n, ev, now).node; k.role.Leader? && !k.halted
    ensures var k := React(n, ev, now).node;
            && k.currentTerm == n.currentTerm && k.lastApplied >= n.lastApplied
            && at < |k.log| && Same(n.log[at], k.log[at])
            && (n.lastApplied >= at ==> k.log[at] == n.log[at])
            && (n.lastApplied < at <= k.lastApplied ==> AppliedThen(n, k, at))
  {
    hide React, EffectOf, Implement, NewCommit, AppliedRange, Decodable;
    var k := React(n, ev, now).node;
    Effect(n, ev, now);
    if Applies(n, ev) {
      AppliesEvent(n, ev.ack, now, at);
    } else if ev.AppendEntries? {
      LeaderKeepsRole(n, ev.append, now);
    } else {
      OthersKeep(n, ev, now);
      assert k.log[..|n.log|][at] == n.log[at];
    }
  }

  lemma AppliesEvent(n: NodeState, r: AppendAnswer, now: int, at: nat)
    requires !n.halted && Applies(n, AppendReply(r)) && at < |n.log| && -1 <= n.lastApplied
    requires n.log[at].kind == CommandEntry && !React(n, AppendReply(r), now).node.halted
    ensures var k := React(n, AppendReply(r), now).node;
            && k.lastApplied >= n.lastApplied && at < |k.log|
            && Same(n.log[at], k.log[at]) && k.currentTerm == n.currentTerm
            && (n.lastApplied >= at ==> k.log[at] == n.log[at])
            && (n.lastApplied < at <= k.lastApplied ==> AppliedThen(n, k, at))
  {
    hide React, NewCommit, Before;
    LeaderApplies(n, r, now);
    var c := NewCommit(n, r.address);
    if n.lastApplied < c {
      var a := Acknowledged(n, r);
      var k := React(n, AppendReply(r), now).node;
      assert n.lastApplied < at < Stop(n, c) ==> CommandOf(n.log[at].payload).Some?;
    }
  }

  /** The ticket names the place: the command is appended at that index with that term. */
  lemma TicketNamesPlace(n: NodeState, p: Payload, now: int)
    requires !n.halted && n.role.Leader?
    ensures var o := React(n, Command(p), now);
            && o.out == [Answer(CheckLater(|n.log|, n.currentTerm))]
            && Placed(o.node, |n.log|, n.currentTerm, p)
  {
    hide React;
    CommandOutcome(n, p, now);
  }

  /** While the node stays leader the command stays where the ticket says, and once applied
      its entry carries the result of exactly one application. */
  lemma {:induction false} CommandStays(n: NodeState, steps: seq<NodeStep>, at: nat, term: int, p: Payload, i: nat) returns (j: nat)
    requires External(steps) && StaysLeader(n, steps) && i <= |steps|
    requires Placed(n, at, term, p) && n.currentTerm == term && -1 <= n.lastApplied < at
    ensures var k := At(n, steps, i);
            && Placed(k, at, term, p) && k.currentTerm == term && k.lastApplied >= -1
            && (k.lastApplied >= at ==>
                  && j < i && AppliedThen(At(n, steps, j), At(n, steps, j + 1), at)
                  && Placed(At(n, steps, j), at, term, p)
                  && k.log[at].result == At(n, steps, j + 1).log[at].result)
  {
    hide React, AppliedThen;
    j := 0;
    if i > 0 {
      var j0 := CommandStays(n, steps, at, term, p, i - 1);
      var m := At(n, steps, i - 1);
      assert At(n, steps, i) == NodeNext(m, steps[i - 1]);
      LeaderEvent(m, steps[i - 1].event, steps[i - 1].now, at);
      j := if m.lastApplied >= at then j0 else i - 1;
    }
  }

  /** The client's guarantee. A leader that has applied no further than its log accepts a
      command; as long as it stays leader, probing with the ticket never fails: it says
      "check later" until the entry is applied, and from then on returns the result of
      running that very command right after the entries before it. */
  lemma ProbeHonoured(n: NodeState, p: Payload, steps: seq<NodeStep>, i: nat, now: int) returns (j: nat)
    requires !n.halted && n.role.Leader? && -1 <= n.lastApplied < |n.log|
    requires External(steps) && i <= |steps| && StaysLeader(React(n, Command(p), now).node, steps)
    ensures var start := React(n, Command(p), now).node; var k := At(start, steps, i); var at := |n.log|;
            && Placed(k, at, n.currentTerm, p)
            && (k.lastApplied < at ==> React(k, Probe(at, n.currentTerm), now).out == [Answer(CheckLater(at, n.currentTerm))])
            && (k.lastApplied >= at ==>
                  && j < i
                  && var m := At(start, steps, j);
                  && AppliedThen(m, At(start, steps, j + 1), at) && CommandOf(p).Some?
                  && React(k, Probe(at, n.currentTerm), now).out
                     == [Answer(Completed(Result(Before(m.database, m.log, m.lastApplied + 1, at), CommandOf(p).value)))])
  {
    hide React, Before;
    TicketNamesPlace(n, p, now);
    CommandOutcome(n, p, now);
    var start := React(n, Command(p), now).node;
    j := CommandStays(start, steps, |n.log|, n.currentTerm, p, i);
    ProbeOutcome(At(start, steps, i), |n.log|, n.currentTerm, now);
  }

  /** Without the bound on the last-applied index the ticket can lie: a probe right after
      acceptance then claims completion, with an empty result, of a command never run. */
  lemma EarlyCompletionIff(n: NodeState, p: Payload, now: int)
    requires !n.halted && n.role.Leader?
    ensures var k := React(n, Command(p), now).node;
            React(k, Probe(|n.log|, n.currentTerm), now).out == [Answer(Completed(""))] <==> n.lastApplied >= |n.log|
  {
    hide React;
    CommandOutcome(n, p, now);
    ProbeOutcome(React(n, Command(p), now).node, |n.log|, n.currentTerm, now);
  }
}
