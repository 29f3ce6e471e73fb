/** Stale truncations come from overtaking: if no node gets a leader's requests in another
    order than they were sent, no request ever cuts off what the node already shares with the
    leader. */
module Delivery {
  import opened Types
  import opened Rules
  import opened Interpreter
  import opened Reactions
  import opened Effects
  import opened Network
  import opened TermOrder
  import opened Leadership
  import opened LogMatching
  import opened Elections
  import opened Completeness
  import opened Commitment
  import opened Openings

  /** The choice delivers an append request with entries. */
  predicate Feeds(c: Choice) {
    c.Deliver? && c.packet.AppendPacket? && |c.packet.append.entries| > 0
  }

  /** The request delivered at step `j` was on its way before the one delivered at step `i`
      was sent, to the same node in the same leadership, and yet arrives after it. */
  ghost predicate Overtakes(s: System, run: seq<Choice>, i: nat, j: nat)
    requires i < j < |run|
  {
    && Feeds(run[i]) && Feeds(run[j])
    && run[i].packet.dest == run[j].packet.dest && run[i].packet.append.term == run[j].packet.append.term
    && exists k :: 0 <= k <= i && SentBetween(s, run, k, run[j].packet, run[i].packet)
  }

  ghost predicate SentBetween(s: System, run: seq<Choice>, k: nat, p: Packet, q: Packet)
    requires k <= |run|
  {
    p in After(s, run[..k]).net && q !in After(s, run[..k]).net
  }

  ghost predicate InOrder(s: System, run: seq<Choice>) {
    forall i, j :: 0 <= i < j < |run| ==> !Overtakes(s, run, i, j)
  }

  /** With one such delivery at most there is no order to disturb. */
  lemma SoleFeedInOrder(s: System, run: seq<Choice>, h: nat)
    requires forall i :: 0 <= i < |run| && Feeds(run[i]) ==> i == h
    ensures InOrder(s, run)
  {
    hide Feeds, SentBetween;
  }

  // ----- when a request was sent -----

  lemma {:induction false} NetGrows(s: System, run: seq<Choice>, i: nat, j: nat)
    requires i <= j <= |run|
    ensures After(s, run[..i]).net <= After(s, run[..j]).net
    decreases j
  {
    hide After, Next;
    if i < j {
      NetGrows(s, run, i, j - 1);
      PrefixNext(s, run, j - 1);
      NetAndGrants(After(s, run[..j - 1]), run[j - 1]);
    }
  }

  lemma NothingSent(s: System, run: seq<Choice>)
    requires Initial(s)
    ensures After(s, run[..0]).net == {}
  {
    hide Initial;
    assert run[..0] == [];
    NoNetYet(s);
  }

  lemma {:induction false} FirstSent(s: System, run: seq<Choice>, j: nat, p: Packet) returns (k: nat)
    requires Initial(s) && j <= |run| && p in After(s, run[..j]).net
    ensures k < j && p !in After(s, run[..k]).net && p in After(s, run[..k + 1]).net
    decreases j
  {
    hide After, Initial;
    NothingSent(s, run);
    if p in After(s, run[..j - 1]).net {
      k := FirstSent(s, run, j - 1, p);
    } else {
      k := j - 1;
    }
  }

  /** A timeout's request speaks for the leader log of its term, which ends in that term. */
  lemma SentAs(s: System, c: Choice, p: Packet)
    requires Sound(s) && p in Next(s, c).net && p !in s.net && p.AppendPacket? && p.routine
    ensures Target(c) in s.nodes && p.dest in s.nodes[Target(c)].peers
    ensures (p.append.term, Target(c)) in s.hist.leaders && p.append.term in s.hist.leaderLog
    ensures |p.view| == |s.hist.leaderLog[p.append.term]| > 0 && p.view[|p.view| - 1].term == p.append.term
  {
    hide React, Next, PacketsOf, Noted, Rooted, PacketMatched, RequestFor, Candidacies, Wins, Ordered, Below;
    NetAndGrants(s, c);
    var i := NewPacket(s, c, p);
    StepOf(s, c);
    LeaderOrdered(s, Target(c));
  }

  lemma LeaderOrdered(s: System, a: Address)
    requires AllOrdered(s) && a in s.nodes && s.nodes[a].role.Leader?
    ensures var n := s.nodes[a]; |n.log| > 0 && n.log[|n.log| - 1].term == n.currentTerm
  {
    hide Ordered, Below, RequestOrdered;
  }

  lemma LogsGrowTo(s: System, run: seq<Choice>, i: nat, j: nat)
    requires Initial(s) && OneLeader(After(s, run).hist) && i <= j <= |run|
    ensures Extends(After(s, run[..i]).hist.leaderLog, After(s, run[..j]).hist.leaderLog)
  {
    hide After, Initial, OneLeader;
    OneLeaderAt(s, run, j);
    assert run[..j][..i] == run[..i];
    LogsGrow(s, run[..j], i);
  }

  // ----- where a node has the entries of its term from -----

  /** Step `h` feeds node `x`, in term `t`, a request that speaks for entry `i`. */
  ghost predicate Took(s: System, run: seq<Choice>, h: nat, x: Address, t: int, i: nat)
    requires h < |run|
  {
    && Feeds(run[h]) && run[h].packet in After(s, run[..h]).net && run[h].packet.routine
    && run[h].packet.dest == x && run[h].packet.append.term == t && |run[h].packet.view| > i
  }

  ghost predicate TookBy(s: System, run: seq<Choice>, j: nat, x: Address, t: int, i: nat)
    requires j <= |run|
  {
    exists h :: 0 <= h < j && Took(s, run, h, x, t, i)
  }

  /** Whatever a node holds of its own term, unless it leads it, it was fed. */
  ghost predicate NodeFed(s: System, run: seq<Choice>, j: nat, x: Address, n: NodeState, leaders: set<(int, Address)>)
    requires j <= |run|
  {
    (n.currentTerm, x) !in leaders ==>
      forall i :: 0 <= i < |n.log| && n.log[i].term == n.currentTerm ==> TookBy(s, run, j, x, n.currentTerm, i)
  }

  ghost predicate AllFed(s: System, run: seq<Choice>, j: nat)
    requires j <= |run|
  {
    var u := After(s, run[..j]);
    forall x :: x in u.nodes ==> NodeFed(s, run, j, x, u.nodes[x], u.hist.leaders)
  }

  /** A node that holds the same, in the same term, or nothing of its term. */
  lemma StaysFed(s: System, run: seq<Choice>, j: nat, x: Address, n: NodeState, leaders: set<(int, Address)>,
                 k: NodeState, leaders': set<(int, Address)>)
    requires j < |run| && NodeFed(s, run, j, x, n, leaders) && leaders <= leaders'
    requires SameLog(n.log, k.log) && k.currentTerm >= n.currentTerm
    requires forall i :: 0 <= i < |n.log| ==> n.log[i].term <= n.currentTerm
    ensures NodeFed(s, run, j + 1, x, k, leaders')
  {
    hide Took;
    if (k.currentTerm, x) !in leaders' {
      forall i | 0 <= i < |k.log| && k.log[i].term == k.currentTerm ensures TookBy(s, run, j + 1, x, k.currentTerm, i) {
        assert Same(n.log[i], k.log[i]);
        assert TookBy(s, run, j, x, n.currentTerm, i);
      }
    }
  }

  lemma TermsReached(n: NodeState)
    requires NodeOrdered(n)
    ensures forall i :: 0 <= i < |n.log| ==> n.log[i].term <= n.currentTerm
  {
  }

  lemma JustFed(s: System, run: seq<Choice>, j: nat, k: NodeState, leaders: set<(int, Address)>)
    requires j < |run| && Sound(After(s, run[..j])) && OpeningsTrue(After(s, run[..j]))
    requires var u, c := After(s, run[..j]), run[j];
             && Enabled(u, c) && !c.Reboot? && EffectOf(u.nodes[Target(c)], EventFor(c)).Replaced?
             && k == React(u.nodes[Target(c)], EventFor(c), c.now).node
    ensures NodeFed(s, run, j + 1, Target(run[j]), k, leaders)
  {
    hide After, React, EffectOf, Rooted, AllOrdered, HistoryHolds, Candidacies, Takes, Quotes, AgreeUpTo;
    var u, c := After(s, run[..j]), run[j];
    var n, ev := u.nodes[Target(c)], EventFor(c);
    ReplacedIsAppend(n, ev);
    TakenPacket(u, c);
    AppendTaken(n, ev.append, c.now);
    var q := c.packet;
    assert PacketMatched(q, u.hist.leaderLog) && OpeningTrue(q, u.hist.leaderLog);
    forall i | 0 <= i < |k.log| && k.log[i].term == k.currentTerm ensures TookBy(s, run, j + 1, Target(c), k.currentTerm, i) {
      assert Took(s, run, j, Target(c), k.currentTerm, i);
    }
  }

  lemma TargetFed(s: System, run: seq<Choice>, j: nat)
    requires j < |run| && Sound(After(s, run[..j])) && OpeningsTrue(After(s, run[..j])) && AllFed(s, run, j)
    requires Enabled(After(s, run[..j]), run[j]) && !run[j].Reboot?
    ensures var v := Next(After(s, run[..j]), run[j]);
            Target(run[j]) in v.nodes && NodeFed(s, run, j + 1, Target(run[j]), v.nodes[Target(run[j])], v.hist.leaders)
  {
    hide After, React, Next, EffectOf, NodeFed, Matched, Candidacies, NodeOrdered, OpeningsTrue, Wins, RequestOrdered;
    var u, c := After(s, run[..j]), run[j];
    var n, ev := u.nodes[Target(c)], EventFor(c);
    var k := React(n, ev, c.now).node;
    StepOf(u, c);
    GrantsAfter(u, c);
    TermsReached(n);
    SameLogSelf(n.log);
    if n.halted {
      DeadStep(n, ev, c.now);
      StaysFed(s, run, j, Target(c), n, u.hist.leaders, k, Next(u, c).hist.leaders);
    } else {
      Effect(n, ev, c.now);
      if EffectOf(n, ev).Replaced? {
        JustFed(s, run, j, k, Next(u, c).hist.leaders);
      } else if EffectOf(n, ev).Grown? {
        LeaderFed(s, run, j + 1, Target(c), k, Next(u, c).hist.leaders);
      } else {
        StaysFed(s, run, j, Target(c), n, u.hist.leaders, k, Next(u, c).hist.leaders);
      }
    }
  }

  lemma LeaderFed(s: System, run: seq<Choice>, j: nat, x: Address, n: NodeState, leaders: set<(int, Address)>)
    requires j <= |run| && (n.currentTerm, x) in leaders
    ensures NodeFed(s, run, j, x, n, leaders)
  {
    hide TookBy;
  }

  lemma NextFed(s: System, run: seq<Choice>, j: nat)
    requires j < |run| && Sound(After(s, run[..j])) && OpeningsTrue(After(s, run[..j])) && AllFed(s, run, j)
    requires After(s, run[..j + 1]) == Next(After(s, run[..j]), run[j])
    ensures AllFed(s, run, j + 1)
  {
    hide After, React, Restart, PacketsOf, VotesCast, Counts, NodeFed, Matched, HistoryHolds, Candidacies,
         NodeOrdered, OpeningsTrue, RequestOrdered;
    var u, c := After(s, run[..j]), run[j];
    var v := Next(u, c);
    forall x | x in v.nodes ensures NodeFed(s, run, j + 1, x, v.nodes[x], v.hist.leaders) {
      SameKeys(u, c);
      if Enabled(u, c) && !c.Reboot? && x == Target(c) {
        TargetFed(s, run, j);
      } else {
        TermsReached(u.nodes[x]);
        SameLogSelf(u.nodes[x].log);
        if Enabled(u, c) && c.Reboot? && x == Target(c) {
          RestartOutcome(u.nodes[x], c.lastHeard, c.now);
        } else {
          UntouchedNode(u, c, x);
        }
        StaysFed(s, run, j, x, u.nodes[x], u.hist.leaders, v.nodes[x], v.hist.leaders);
      }
    }
  }

  lemma NobodyFed(s: System, run: seq<Choice>)
    requires Initial(s) && After(s, run[..0]) == s
    ensures AllFed(s, run, 0)
  {
    hide Restart, After;
    forall a | a in s.nodes ensures s.nodes[a].log == [] {
      RestartOutcome(Blank(a, s.nodes[a].peers, s.nodes[a].minElectionTimeout), s.nodes[a].leaderLastHeard, 0);
    }
  }

  /** Over every run in which no term has two leaders: what a node holds of its own term,
      unless it leads that term, its leader has sent it. */
  lemma {:induction false} FedAlways(s: System, run: seq<Choice>, j: nat)
    requires Initial(s) && OneLeader(After(s, run).hist) && j <= |run|
    ensures AllFed(s, run, j)
    decreases j
  {
    hide After, Next, Initial, OneLeader, Sound, OpeningsTrue, AllFed;
    if j == 0 {
      assert run[..0] == [];
      AfterNone(s);
      NobodyFed(s, run);
    } else {
      FedAlways(s, run, j - 1);
      SoundAlong(s, run, j - 1);
      OpeningsAlways(s, run, j - 1);
      NextFed(s, run, j - 1);
    }
  }

  // ----- stale means overtaken -----

  /** The node that a stale request reaches is in the request's term and holds an entry of it
      just past what the request speaks for. */
  lemma StaleHolds(s: System, c: Choice)
    requires Sound(s) && OpeningsTrue(s) && Stale(s, c)
    ensures Feeds(c) && c.packet in s.net && c.packet.routine && c.packet.append.term in s.hist.leaderLog
    ensures Target(c) in s.nodes
    ensures var n := s.nodes[Target(c)]; var q := c.packet;
            |q.view| > 0 && q.view[|q.view| - 1].term == q.append.term ==>
              && |q.view| < |n.log| && n.log[|q.view|].term == q.append.term && n.currentTerm == q.append.term
  {
    hide React, EffectOf, Rooted, HistoryHolds, Candidacies, Takes, RequestOrdered;
    var n := s.nodes[Target(c)];
    ReplacedIsAppend(n, EventFor(c));
    var m := EventFor(c).append;
    TakenPacket(s, c);
    AppendTaken(n, m, c.now);
    var q := c.packet;
    assert PacketMatched(q, s.hist.leaderLog) && OpeningTrue(q, s.hist.leaderLog);
    var l := |q.view|;
    if l > 0 && q.view[l - 1].term == m.term {
      assert Same(n.log[l - 1], s.hist.leaderLog[m.term][l - 1]) && Same(q.view[l - 1], s.hist.leaderLog[m.term][l - 1]);
      TermsReached(n);
      Rising(n, l);
    }
  }

  lemma Rising(n: NodeState, l: nat)
    requires NodeOrdered(n) && 0 < l < |n.log|
    ensures n.log[l - 1].term <= n.log[l].term
  {
    hide Below;
  }

  /** A request that speaks for less than another of the same leadership was sent before it. */
  lemma ShorterFirst(s: System, run: seq<Choice>, j: nat, p: Packet, h: nat, q: Packet) returns (k: nat)
    requires Initial(s) && OneLeader(After(s, run).hist) && j <= |run| && h <= |run|
    requires p in After(s, run[..j]).net && p.AppendPacket? && p.routine
    requires q in After(s, run[..h]).net && q.AppendPacket? && q.routine
    requires p.append.term == q.append.term && |p.view| < |q.view|
    ensures k < h && SentBetween(s, run, k, p, q)
  {
    hide After, Next, Initial, OneLeader, Sound;
    k := FirstSent(s, run, h, q);
    SoundAlong(s, run, k);
    SentAs(After(s, run[..k]), run[k], q);
    if p !in After(s, run[..k]).net {
      var i := FirstSent(s, run, j, p);
      SoundAlong(s, run, i);
      SentAs(After(s, run[..i]), run[i], p);
      if i < k { NetGrows(s, run, i + 1, k); }
      LogsGrowTo(s, run, k, i);
      assert false;
    }
  }

  /** Leaders are not among their own peers, and stay on record. */
  lemma SenderElsewhere(s: System, run: seq<Choice>, k: nat, p: Packet, cluster: set<Address>)
    requires CleanRun(s, run, cluster) && k < |run| && p.AppendPacket? && p.routine
    requires p in After(s, run[..k + 1]).net && p !in After(s, run[..k]).net
    ensures exists x :: x != p.dest && (p.append.term, x) in After(s, run[..k]).hist.leaders
    ensures |p.view| > 0 && p.view[|p.view| - 1].term == p.append.term
  {
    hide After, Next, Initial, OneLeader, Sound, OneVote, CleanCounts;
    CleanRunLeads(s, run, cluster);
    SoundAlong(s, run, k);
    SentAs(After(s, run[..k]), run[k], p);
    ReconfigurationPrefix(run, k);
    PeersAlways(s, run[..k], cluster, Target(run[k]));
  }

  lemma {:induction false} LeadersStay(s: System, run: seq<Choice>, i: nat, j: nat)
    requires i <= j <= |run|
    ensures After(s, run[..i]).hist.leaders <= After(s, run[..j]).hist.leaders
    decreases j
  {
    hide After, Next;
    if i < j {
      LeadersStay(s, run, i, j - 1);
      PrefixNext(s, run, j - 1);
      LeadersGrow(After(s, run[..j - 1]), run[j - 1]);
    }
  }

  lemma LeadersGrow(s: System, c: Choice)
    ensures s.hist.leaders <= Next(s, c).hist.leaders
  {
    hide React, Restart, PacketsOf, VotesCast, Counts;
  }

  lemma StaleOvertaken(s: System, run: seq<Choice>, j: nat, cluster: set<Address>) returns (h: nat)
    requires CleanRun(s, run, cluster) && j < |run| && Stale(After(s, run[..j]), run[j])
    ensures h < j && Overtakes(s, run, h, j)
  {
    hide After, Next, CleanRun, Initial, OneLeader, Sound, OpeningsTrue, Stale;
    CleanRunStarts(s, run, cluster);
    CleanRunLeads(s, run, cluster);
    SoundAlong(s, run, j);
    OpeningsAlways(s, run, j);
    FedAlways(s, run, j);
    var u := After(s, run[..j]);
    StaleHolds(u, run[j]);
    var q := run[j].packet;
    var i := FirstSent(s, run, j, q);
    SenderElsewhere(s, run, i, q, cluster);
    LeadersStay(s, run, i, j);
    NotItsLeader(u.hist, q, After(s, run[..i]).hist);
    h := FedAt(s, run, j, q.dest, |q.view|);
    var k := ShorterFirst(s, run, j, q, h, run[h].packet);
  }

  lemma NotItsLeader(h: History, q: Packet, g: History)
    requires OneLeader(h) && q.AppendPacket? && g.leaders <= h.leaders
    requires exists x :: x != q.dest && (q.append.term, x) in g.leaders
    ensures (q.append.term, q.dest) !in h.leaders
  {
  }

  lemma FedAt(s: System, run: seq<Choice>, j: nat, x: Address, i: nat) returns (h: nat)
    requires j <= |run| && AllFed(s, run, j) && x in After(s, run[..j]).nodes
    requires var u := After(s, run[..j]); var n := u.nodes[x];
             (n.currentTerm, x) !in u.hist.leaders && i < |n.log| && n.log[i].term == n.currentTerm
    ensures h < j && Took(s, run, h, x, After(s, run[..j]).nodes[x].currentTerm, i)
  {
    hide After, Took;
    var n := After(s, run[..j]).nodes[x];
    assert TookBy(s, run, j, x, n.currentTerm, i);
    h :| 0 <= h < j && Took(s, run, h, x, n.currentTerm, i);
  }

  /** In a clean run in which every node gets the requests of a leadership in the order they
      were sent - however many are lost, repeated or late - none is a stale truncation. */
  lemma OrderedRunsFresh(s: System, run: seq<Choice>, cluster: set<Address>)
    requires CleanRun(s, run, cluster) && InOrder(s, run)
    ensures NoneStale(s, run)
  {
    hide After, CleanRun, Stale, Overtakes;
    forall j | 0 <= j < |run| ensures !Stale(After(s, run[..j]), run[j]) {
      if Stale(After(s, run[..j]), run[j]) {
        var h := StaleOvertaken(s, run, j, cluster);
        assert false;
      }
    }
  }
}
