/** Term order and the leader's tail: invariants of every run, with no hypothesis on who
    leads. */
module TermOrder {
  import opened Types
  import opened Rules
  import opened Interpreter
  import opened Reactions
  import opened Effects
  import opened Network

  ghost predicate Ordered(log: seq<LogEntry>) {
    forall i, j :: 0 <= i < j < |log| ==> log[i].term <= log[j].term
  }

  ghost predicate Below(log: seq<LogEntry>, term: int) {
    forall i :: 0 <= i < |log| ==> 0 <= log[i].term <= term
  }

  /** A leader's last entry is of its own term. */
  ghost predicate Tail(n: NodeState) {
    n.role.Leader? ==> |n.log| > 0 && n.log[|n.log| - 1].term == n.currentTerm
  }

  ghost predicate NodeOrdered(n: NodeState) {
    n.currentTerm >= 0 && Ordered(n.log) && Below(n.log, n.currentTerm) && Tail(n)
  }

  ghost predicate RequestOrdered(m: AppendRequest) {
    |m.entries| > 0 ==>
      && Ordered(m.entries) && Below(m.entries, m.term) && m.prevTerm <= m.entries[0].term
  }

  ghost predicate Addressed(s: System) {
    forall a :: a in s.nodes ==> s.nodes[a].address == a
  }

  ghost predicate AllOrdered(s: System) {
    && Addressed(s)
    && (forall a :: a in s.nodes ==> NodeOrdered(s.nodes[a]))
    && (forall p :: p in s.net && p.AppendPacket? ==> RequestOrdered(p.append))
  }

  lemma SameLogOrdered(a: seq<LogEntry>, b: seq<LogEntry>, t: int)
    requires SameLog(a, b) && Ordered(a) && Below(a, t)
    ensures Ordered(b) && Below(b, t)
  {
    assert forall i :: 0 <= i < |b| ==> a[i].term == b[i].term;
  }

  /** Cutting an ordered log after an entry of term `prevTerm` and appending entries that
      start no lower keeps it ordered. */
  lemma SpliceOrdered(log: seq<LogEntry>, m: AppendRequest, t: int)
    requires Ordered(log) && Below(log, t) && t <= m.term
    requires RequestOrdered(m) && |m.entries| > 0
    requires -1 <= m.prevIndex < |log| && (m.prevIndex >= 0 ==> log[m.prevIndex].term == m.prevTerm)
    ensures Ordered(log[..m.prevIndex + 1] + m.entries) && Below(log[..m.prevIndex + 1] + m.entries, m.term)
  {
    var k := m.prevIndex + 1;
    var new' := log[..k] + m.entries;
    forall i, j | 0 <= i < j < |new'| ensures new'[i].term <= new'[j].term {
      if i < k <= j {
        assert log[i].term <= m.prevTerm;
        assert m.entries[0].term <= m.entries[j - k].term;
      }
    }
  }

  /** Every event keeps a node ordered, provided what it receives is ordered. */
  lemma StepOrdered(n: NodeState, ev: Event, now: int)
    requires NodeOrdered(n) && !ev.StateChanged?
    requires ev.AppendEntries? ==> RequestOrdered(ev.append)
    ensures NodeOrdered(React(n, ev, now).node)
  {
    hide React, EffectOf;
    if n.halted {
      DeadStep(n, ev, now);
    } else {
      var k := React(n, ev, now).node;
      Effect(n, ev, now);
      match EffectOf(n, ev)
      case Kept =>
        SameLogOrdered(n.log, k.log, n.currentTerm);
      case Grown =>
        GrownOrdered(n, k);
      case Replaced =>
        ReplacedIsAppend(n, ev);
        var m := ev.append;
        SpliceOrdered(n.log, m, n.currentTerm);
        SameLogOrdered(n.log[..m.prevIndex + 1] + m.entries, k.log, m.term);
    }
  }

  lemma GrownOrdered(n: NodeState, k: NodeState)
    requires NodeOrdered(n) && k.currentTerm == n.currentTerm
    requires |k.log| == |n.log| + 1 && k.log[..|n.log|] == n.log && k.log[|n.log|].term == n.currentTerm
    ensures NodeOrdered(k)
  {
    assert forall i :: 0 <= i < |n.log| ==> k.log[i] == n.log[i];
  }

  /** What a leader's request says: the entries are its own log from there on, and the term
      it claims for the entry before them is that entry's term. */
  ghost predicate Honest(n: NodeState, m: AppendRequest) {
    m.term == n.currentTerm && NamesPrevious(n.log, m) && m.entries == n.log[m.prevIndex + 1..]
  }

  predicate NamesPrevious(log: seq<LogEntry>, m: AppendRequest) {
    -1 <= m.prevIndex < |log| && m.prevTerm == if m.prevIndex >= 0 then log[m.prevIndex].term else -1
  }

  lemma HonestPrevious(n: NodeState, m: AppendRequest)
    requires Honest(n, m)
    ensures NamesPrevious(n.log, m)
  {
  }

  lemma HonestRequest(n: NodeState, next: int)
    requires Tail(n) && n.role.Leader? && next >= 0
    ensures Honest(n, RequestFor(n, next))
  {
    assert n.log[|n.log|..] == [];
  }

  lemma HonestRequestOrdered(n: NodeState, next: int)
    requires NodeOrdered(n) && n.role.Leader? && next >= 0
    ensures RequestOrdered(RequestFor(n, next))
  {
    hide RequestFor, Ordered, Below, RequestOrdered, Honest;
    HonestRequest(n, next);
    SuffixRequest(n, RequestFor(n, next));
  }

  lemma SuffixRequest(n: NodeState, m: AppendRequest)
    requires Ordered(n.log) && Below(n.log, n.currentTerm) && Honest(n, m)
    ensures RequestOrdered(m)
  {
    hide Ordered, Below;
    var k := m.prevIndex + 1;
    SuffixOrdered(n.log, k, m.term);
    if k < |n.log| { TermsAt(n.log, m.term, k - 1, k); }
  }

  lemma TermsAt(log: seq<LogEntry>, t: int, i: int, j: nat)
    requires Ordered(log) && Below(log, t) && i < j < |log|
    ensures log[j].term >= 0 && (i >= 0 ==> log[i].term <= log[j].term)
  {
  }

  lemma SuffixOrdered(log: seq<LogEntry>, k: nat, t: int)
    requires Ordered(log) && Below(log, t) && k <= |log|
    ensures Ordered(log[k..]) && Below(log[k..], t)
  {
    assert forall i :: 0 <= i < |log[k..]| ==> log[k..][i] == log[k + i];
  }

  lemma RestartOrdered(n: NodeState, lastHeard: int, now: int)
    requires NodeOrdered(n)
    ensures NodeOrdered(Restart(n, lastHeard, now).node)
  {
    RestartOutcome(n, lastHeard, now);
  }

  lemma NextOrdered(s: System, c: Choice)
    requires AllOrdered(s)
    ensures AllOrdered(Next(s, c))
  {
    hide React, Restart;
    if !Enabled(s, c) {
    } else if c.Reboot? {
      RestartOrdered(s.nodes[c.node], c.lastHeard, c.now);
      RestartOutcome(s.nodes[c.node], c.lastHeard, c.now);
    } else {
      var n := s.nodes[Target(c)];
      StepOf(s, c);
      StepOrdered(n, EventFor(c), c.now);
      StepAddress(n, EventFor(c), c.now);
      forall p | p in Next(s, c).net && p.AppendPacket? ensures RequestOrdered(p.append) {
        if p !in s.net { NewRequestOrdered(s, c, p); }
      }
    }
  }

  lemma StepAddress(n: NodeState, ev: Event, now: int)
    requires !ev.StateChanged?
    ensures React(n, ev, now).node.address == n.address && React(n, ev, now).node.currentTerm >= n.currentTerm
  {
    hide React, EffectOf;
    if n.halted { DeadStep(n, ev, now); } else { Effect(n, ev, now); }
  }

  lemma NoEntriesOrdered(n: NodeState)
    ensures RequestOrdered(OpeningHeartbeat(n))
  {
  }

  lemma NewRequestOrdered(s: System, c: Choice, p: Packet)
    requires AllOrdered(s) && Enabled(s, c) && !c.Reboot?
    requires p in Next(s, c).net && p !in s.net && p.AppendPacket?
    ensures RequestOrdered(p.append)
  {
    hide React, RequestFor, Next, RequestOrdered;
    var i := NewPacket(s, c, p);
    assert RequestOrdered(OpeningHeartbeat(s.nodes[Target(c)])) by { NoEntriesOrdered(s.nodes[Target(c)]); }
    var n := s.nodes[Target(c)];
    if EventFor(c).Timeout? {
      HonestRequestOrdered(n, Lookup(n.nextIndex, p.dest));
    }
  }

  /** Term order, over every run: log terms never decrease along a log nor exceed the node's
      term, every leader's last entry is of its term, and every append request in the
      network carries its terms in order. */
  lemma {:induction false} TermOrderAlways(s: System, run: seq<Choice>)
    requires Initial(s)
    ensures AllOrdered(After(s, run))
  {
    if |run| == 0 {
      forall a | a in s.nodes ensures NodeOrdered(s.nodes[a]) && s.nodes[a].address == a {
        RestartOutcome(Blank(a, s.nodes[a].peers, s.nodes[a].minElectionTimeout), s.nodes[a].leaderLastHeard, 0);
      }
    } else {
      TermOrderAlways(s, run[..|run| - 1]);
      NextOrdered(After(s, run[..|run| - 1]), run[|run| - 1]);
    }
  }
}
