/** Elections: the quorum arithmetic, and Election Safety under the hypotheses the code
    itself does not secure. */
module Elections {
  import opened Types
  import opened Rules
  import opened Interpreter
  import opened Reactions
  import opened Effects
  import opened Network
  import opened TermOrder
  import opened Leadership
  import opened Config
  import opened LogMatching

  // ----- quorums -----

  /** The election test and the commit test accept the same counts, namely at least half of
      the cluster, rounded up. */
  lemma TestsAgree(votes: nat, peerCount: nat)
    ensures Elected(votes, peerCount) <==> votes >= Majority(peerCount)
    ensures Elected(votes, peerCount) <==> 2 * votes >= peerCount + 1
  {
  }

  /** A set of members large enough to win. */
  predicate Quorum(q: set<Address>, cluster: set<Address>) {
    q <= cluster && Elected(|q|, |cluster| - 1)
  }

  ghost predicate QuorumsMeet(cluster: set<Address>) {
    forall a, b :: Quorum(a, cluster) && Quorum(b, cluster) ==> a * b != {}
  }

  lemma {:induction false} SomeSubset(s: set<Address>, k: nat) returns (t: set<Address>)
    requires k <= |s|
    ensures t <= s && |t| == k
  {
    if k == 0 {
      t := {};
    } else {
      var x :| x in s;
      var u := SomeSubset(s - {x}, k - 1);
      t := u + {x};
    }
  }

  /** Any two winning sets meet exactly when the cluster size is odd. */
  lemma QuorumsMeetIffOdd(cluster: set<Address>)
    requires cluster != {}
    ensures QuorumsMeet(cluster) <==> |cluster| % 2 == 1
  {
    if |cluster| % 2 == 0 {
      var a := SomeSubset(cluster, |cluster| / 2);
      var b := cluster - a;
      assert |b| == |cluster| - |a|;
      assert Quorum(a, cluster) && Quorum(b, cluster) && a * b == {};
    } else {
      forall a, b | Quorum(a, cluster) && Quorum(b, cluster) ensures a * b != {} {
        assert |a + b| == |a| + |b| - |a * b|;
        SubsetSize(a + b, cluster);
      }
    }
  }

  lemma SubsetSize(a: set<Address>, b: set<Address>)
    requires a <= b
    ensures |a| <= |b|
  {
    assert b == a + (b - a);
  }

  // ----- a fixed cluster -----

  ghost predicate NoChanges(log: seq<LogEntry>) {
    forall i :: 0 <= i < |log| ==> !IsClusterChange(log[i])
  }

  ghost predicate FixedNode(n: NodeState, a: Address, cluster: set<Address>) {
    && n.address == a && n.changeIndex == -1 && NoChanges(n.log)
    && |n.peers| == |cluster| - 1
  }

  /** Every member knows the same fixed cluster, and no change is under way anywhere. */
  ghost predicate Fixed(s: System, cluster: set<Address>) {
    && (forall a :: a in s.nodes ==> a in cluster && FixedNode(s.nodes[a], a, cluster))
    && (forall p :: p in s.net && p.AppendPacket? ==> NoChanges(p.append.entries))
  }

  /** No client asks for a membership change. */
  predicate NoReconfiguration(run: seq<Choice>) {
    forall i :: 0 <= i < |run| && run[i].Ask? ==> !run[i].request.AddServer? && !run[i].request.RemoveServer?
  }

  lemma PlainStored(f: NodeState, m: AppendRequest, now: int)
    requires f.changeIndex == -1 && NoChanges(m.entries) && -1 <= m.prevIndex < |f.log|
    ensures var k := Stored(f, m, now); k.peers == f.peers && k.changeIndex == -1 && k.address == f.address
  {
    hide Others;
  }

  lemma FixedStep(n: NodeState, ev: Event, now: int, a: Address, cluster: set<Address>)
    requires FixedNode(n, a, cluster) && !ev.StateChanged? && !ev.AddServer? && !ev.RemoveServer?
    requires ev.AppendEntries? ==> NoChanges(ev.append.entries)
    ensures FixedNode(React(n, ev, now).node, a, cluster)
  {
    hide React, EffectOf, Implement, Rewind, Accepts, AppendCrashes, CommitActions, Stored;
    var k := React(n, ev, now).node;
    if n.halted {
      DeadStep(n, ev, now);
    } else if ev.AppendEntries? {
      FixedAppend(n, ev.append, now);
    } else {
      OtherConfig(n, ev, now);
      NotReplaced(n, ev);
      PlainEvent(n, ev);
      if EffectOf(n, ev).Grown? {
        assert forall i :: 0 <= i < |n.log| ==> k.log[i] == n.log[i];
      } else {
        assert forall i :: 0 <= i < |n.log| ==> Same(n.log[i], k.log[i]);
      }
    }
  }

  lemma PlainEvent(n: NodeState, ev: Event)
    requires !ev.AddServer? && !ev.RemoveServer?
    ensures !ChangesCluster(n, ev)
  {
  }

  lemma FixedAppend(n: NodeState, m: AppendRequest, now: int)
    requires !n.halted && n.changeIndex == -1 && NoChanges(n.log) && NoChanges(m.entries)
    ensures var k := React(n, AppendEntries(m), now).node;
            k.peers == n.peers && k.changeIndex == -1 && k.address == n.address && NoChanges(k.log)
  {
    hide React, Implement, Rewind, Accepts, AppendCrashes, CommitActions, Stored, LastChange, Receiver, Reaches;
    var f := Receiver(n, m.term);
    ReceiverKeeps(n, m.term);
    if !Reaches(n, m) {
      AppendRefused(n, m, now);
    } else {
      AppendOutcome(n, m, now);
      if Accepts(f, m) && !AppendCrashes(f, m) {
        FixedTaken(f, m, now);
      }
    }
  }

  lemma FixedTaken(f: NodeState, m: AppendRequest, now: int)
    requires !f.halted && f.changeIndex == -1 && NoChanges(f.log) && NoChanges(m.entries)
    requires Accepts(f, m) && !AppendCrashes(f, m)
    ensures var k := Implement(CommitActions(f, m), AppendEntries(m), true, Stored(f, m, now), now).node;
            k.peers == f.peers && k.changeIndex == -1 && k.address == f.address && NoChanges(k.log)
  {
    hide Implement, Rewind, Accepts, AppendCrashes, CommitActions, Stored, LastChange;
    AcceptsInRange(f, m);
    NoStuck(f, m);
    PlainStored(f, m, now);
    StoredKeeps(f, m, now);
    CommitRun(f, m, AppendEntries(m), Stored(f, m, now), now);
    var k := Implement(CommitActions(f, m), AppendEntries(m), true, Stored(f, m, now), now).node;
    assert forall i :: 0 <= i < |k.log| ==> Same(NewLog(f.log, m)[i], k.log[i]);
  }

  lemma NextFixed(s: System, c: Choice, cluster: set<Address>)
    requires Fixed(s, cluster)
    requires c.Ask? ==> !c.request.AddServer? && !c.request.RemoveServer?
    ensures Fixed(Next(s, c), cluster)
  {
    hide React, Restart, PacketsOf, Noted;
    if !Enabled(s, c) {
    } else if c.Reboot? {
      RestartOutcome(s.nodes[c.node], c.lastHeard, c.now);
    } else {
      StepOf(s, c);
      FixedStep(s.nodes[Target(c)], EventFor(c), c.now, Target(c), cluster);
      forall p | p in Next(s, c).net && p.AppendPacket? ensures NoChanges(p.append.entries) {
        if p !in s.net { PlainPacket(s, c, p, cluster); }
      }
    }
  }

  lemma PlainPacket(s: System, c: Choice, p: Packet, cluster: set<Address>)
    requires Fixed(s, cluster) && Enabled(s, c) && !c.Reboot?
    requires p in Next(s, c).net && p !in s.net && p.AppendPacket?
    ensures NoChanges(p.append.entries)
  {
    hide React, Next;
    var i := NewPacket(s, c, p);
  }

  lemma {:induction false} FixedAlways(s: System, run: seq<Choice>, cluster: set<Address>)
    requires Initial(s) && NoReconfiguration(run)
    requires forall a :: a in s.nodes ==> a in cluster && |s.nodes[a].peers| == |cluster| - 1
    ensures Fixed(After(s, run), cluster)
  {
    if |run| == 0 {
      forall a | a in s.nodes ensures FixedNode(s.nodes[a], a, cluster) {
        RestartOutcome(Blank(a, s.nodes[a].peers, s.nodes[a].minElectionTimeout), s.nodes[a].leaderLastHeard, 0);
      }
    } else {
      FixedAlways(s, run[..|run| - 1], cluster);
      assert run[|run| - 1].Ask? ==> !run[|run| - 1].request.AddServer?;
      NextFixed(After(s, run[..|run| - 1]), run[|run| - 1], cluster);
    }
  }

  // ----- what the votes on record say -----

  /** Granted answers in the network, and grants counted, are on record. */
  ghost predicate GrantsOnRecord(s: System) {
    && (forall p :: p in s.net && p.VoteAnswerPacket? && p.ballot.granted ==>
          p.dest == p.vote.candidate && (p.from, p.vote.term, p.vote.candidate) in s.hist.grants)
    && (forall a, t, i :: 0 <= i < |Tally(s.hist, a, t)| ==>
          (Tally(s.hist, a, t)[i].0, Tally(s.hist, a, t)[i].1, a) in s.hist.grants)
  }

  /** A candidate has voted for itself and its vote count is one more than the grants it has
      counted; terms to come have no count yet. */
  ghost predicate CountsRight(s: System) {
    && (forall a :: a in s.nodes && s.nodes[a].role.Candidate? ==>
          && s.nodes[a].voteCount == 1 + |Tally(s.hist, a, s.nodes[a].currentTerm)|
          && (a, s.nodes[a].currentTerm, a) in s.hist.grants)
    && (forall a, t :: a in s.nodes && t > s.nodes[a].currentTerm ==> Tally(s.hist, a, t) == [])
  }

  /** Every leader on record voted for itself and counted enough grants. */
  ghost predicate LeadersElected(s: System, cluster: set<Address>) {
    forall t, a :: (t, a) in s.hist.leaders ==>
      a in cluster && (a, t, a) in s.hist.grants && Elected(1 + |Tally(s.hist, a, t)|, |cluster| - 1)
  }

  ghost predicate VotesHold(s: System, cluster: set<Address>) {
    HistoryHolds(s) && Fixed(s, cluster) && GrantsOnRecord(s) && CountsRight(s) && LeadersElected(s, cluster)
  }

  /** Only the target's count for its current term can move, by the grant just received. */
  lemma TallyAfter(s: System, c: Choice, a: Address, t: int)
    requires Addressed(s) && Enabled(s, c) && !c.Reboot?
    ensures var n := s.nodes[Target(c)]; var p := CauseOf(c);
            Tally(Next(s, c).hist, a, t)
            == Tally(s.hist, a, t)
               + (if a == Target(c) && t == n.currentTerm && Counts(n, EventFor(c)) && p.Some? && p.value.VoteAnswerPacket?
                  then [(p.value.from, p.value.vote.term)] else [])
  {
    hide React, Counts, VotesCast;
    StepOf(s, c);
  }

  lemma GrantsAfter(s: System, c: Choice)
    requires Enabled(s, c) && !c.Reboot?
    ensures var n := s.nodes[Target(c)]; var o := React(n, EventFor(c), c.now);
            Next(s, c).hist.grants == s.hist.grants + VotesCast(n, EventFor(c), o)
            && Next(s, c).hist.leaders
               == if o.node.role.Leader? then s.hist.leaders + {(o.node.currentTerm, o.node.address)} else s.hist.leaders
  {
    hide React, Counts, VotesCast;
    StepOf(s, c);
  }

  lemma VoteReplyPacket(s: System, c: Choice)
    requires Enabled(s, c) && !c.Reboot? && EventFor(c).VoteReply?
    ensures c.Deliver? && c.packet.VoteAnswerPacket? && c.packet in s.net && c.packet.ballot == EventFor(c).ballot
  {
  }

  lemma NextGrants(s: System, c: Choice, cluster: set<Address>)
    requires VotesHold(s, cluster) && Enabled(s, c) && !c.Reboot?
    ensures GrantsOnRecord(Next(s, c))
  {
    hide React, Next, Noted, Tally, PacketsOf;
    var s' := Next(s, c);
    GrantsAfter(s, c);
    forall p | p in s'.net && p.VoteAnswerPacket? && p.ballot.granted
      ensures p.dest == p.vote.candidate && (p.from, p.vote.term, p.vote.candidate) in s'.hist.grants
    {
      if p !in s.net {
        var i := NewPacket(s, c, p);
        assert Granted(React(s.nodes[Target(c)], EventFor(c), c.now).out);
      }
    }
    forall a, t, i | 0 <= i < |Tally(s'.hist, a, t)|
      ensures (Tally(s'.hist, a, t)[i].0, Tally(s'.hist, a, t)[i].1, a) in s'.hist.grants
    {
      TallyAfter(s, c, a, t);
      if i >= |Tally(s.hist, a, t)| { VoteReplyPacket(s, c); }
    }
  }

  lemma NextCounts(s: System, c: Choice, cluster: set<Address>)
    requires VotesHold(s, cluster) && Enabled(s, c) && !c.Reboot?
    ensures CountsRight(Next(s, c))
  {
    hide React, Noted, PacketsOf, Tally, Wins, GreetPeers;
    var s' := Next(s, c);
    var n := s.nodes[Target(c)];
    StepOf(s, c);
    GrantsAfter(s, c);
    StepRole(n, EventFor(c), c.now);
    forall a | a in s'.nodes && s'.nodes[a].role.Candidate?
      ensures s'.nodes[a].voteCount == 1 + |Tally(s'.hist, a, s'.nodes[a].currentTerm)|
      ensures (a, s'.nodes[a].currentTerm, a) in s'.hist.grants
    {
      if a == Target(c) {
        TargetCounts(s, c, cluster);
      } else {
        TallyAfter(s, c, a, s'.nodes[a].currentTerm);
      }
    }
    forall a, t | a in s'.nodes && t > s'.nodes[a].currentTerm ensures Tally(s'.hist, a, t) == [] {
      TallyAfter(s, c, a, t);
    }
  }

  lemma TargetCounts(s: System, c: Choice, cluster: set<Address>)
    requires VotesHold(s, cluster) && Enabled(s, c) && !c.Reboot? && Next(s, c).nodes[Target(c)].role.Candidate?
    ensures var s' := Next(s, c); var k := s'.nodes[Target(c)];
            k.voteCount == 1 + |Tally(s'.hist, Target(c), k.currentTerm)| && (Target(c), k.currentTerm, Target(c)) in s'.hist.grants
  {
    hide React, Noted, PacketsOf, Tally, Wins, GreetPeers, Fixed, LedBehind, OnRecord, GrantsOnRecord, LeadersElected;
    var n := s.nodes[Target(c)];
    var ev := EventFor(c);
    StepOf(s, c);
    GrantsAfter(s, c);
    TallyAfter(s, c, Target(c), Next(s, c).nodes[Target(c)].currentTerm);
    if n.halted {
      DeadStep(n, ev, c.now);
    } else {
      if ev.VoteReply? { VoteReplyPacket(s, c); }
      CandidateCount(n, ev, c.now);
    }
  }

  /** How a node that is a candidate after an event got its vote count. */
  lemma CandidateCount(n: NodeState, ev: Event, now: int)
    requires !n.halted && !ev.StateChanged? && React(n, ev, now).node.role.Candidate?
    ensures var k := React(n, ev, now).node;
            if n.role.Candidate? then
              k.currentTerm == n.currentTerm && k.voteCount == n.voteCount + (if Counts(n, ev) then 1 else 0)
            else ev.Timeout? && k.voteCount == 1 && k.currentTerm == n.currentTerm + 1 && !Counts(n, ev)
  {
    hide React, Wins, AppendCrashes, Accepts, Reaches, GreetPeers;
    Effect(n, ev, now);
    match ev
    case Timeout =>
      match n.role {
        case Follower => FollowerTimeout(n, now);
        case Candidate => CandidateTimeout(n, now);
        case Leader => LeaderTimeout(n, now);
      }
    case AppendEntries(m) =>
      if Reaches(n, m) { CandidateSteps(n, m, now); } else { AppendRefused(n, m, now); }
    case RequestVote(m) => VoteOutcome(n, m, now);
    case VoteReply(r) => VoteReplyOutcome(n, r, now);
    case AppendReply(r) => AppendReplyOutcome(n, r, now);
    case _ => if IsClient(ev) && !n.role.Leader? { ClientRefused(n, ev, now); }
  }

  lemma CandidateSteps(n: NodeState, m: AppendRequest, now: int)
    requires !n.halted && Reaches(n, m)
    ensures React(n, AppendEntries(m), now).node.role.Follower?
  {
    hide React, AppendCrashes, Accepts, Rewind, Implement, CommitActions, Stored;
    var f := Receiver(n, m.term);
    AppendOutcome(n, m, now);
    if Accepts(f, m) && !AppendCrashes(f, m) {
      AcceptsInRange(f, m);
      NoStuck(f, m);
      StoredKeeps(f, m, now);
      CommitRun(f, m, AppendEntries(m), Stored(f, m, now), now);
    }
  }

  lemma NextElected(s: System, c: Choice, cluster: set<Address>)
    requires VotesHold(s, cluster) && Enabled(s, c) && !c.Reboot?
    ensures LeadersElected(Next(s, c), cluster)
  {
    hide React, Noted, PacketsOf, Tally, VotesCast, EffectOf, EffectHolds;
    var s' := Next(s, c);
    var n := s.nodes[Target(c)];
    var k := React(n, EventFor(c), c.now).node;
    StepOf(s, c);
    GrantsAfter(s, c);
    StepRole(n, EventFor(c), c.now);
    forall t, a | (t, a) in s'.hist.leaders
      ensures a in cluster && (a, t, a) in s'.hist.grants && Elected(1 + |Tally(s'.hist, a, t)|, |cluster| - 1)
    {
      TallyAfter(s, c, a, t);
      if (t, a) !in s.hist.leaders {
        assert a == Target(c) && t == n.currentTerm && n.role.Candidate?;
        VoteReplyPacket(s, c);
      }
    }
  }

  lemma NextVotes(s: System, c: Choice, cluster: set<Address>)
    requires VotesHold(s, cluster)
    requires c.Ask? ==> !c.request.AddServer? && !c.request.RemoveServer?
    ensures VotesHold(Next(s, c), cluster)
  {
    hide Next, HistoryHolds, Fixed, GrantsOnRecord, CountsRight, LeadersElected;
    NextHistory(s, c);
    NextFixed(s, c, cluster);
    if Enabled(s, c) && !c.Reboot? {
      NextGrants(s, c, cluster);
      NextCounts(s, c, cluster);
      NextElected(s, c, cluster);
    } else {
      QuietVotes(s, c, cluster);
    }
  }

  /** A restart, or a choice that is not possible, casts and counts no votes. */
  lemma QuietVotes(s: System, c: Choice, cluster: set<Address>)
    requires VotesHold(s, cluster) && (!Enabled(s, c) || c.Reboot?)
    ensures GrantsOnRecord(Next(s, c)) && CountsRight(Next(s, c)) && LeadersElected(Next(s, c), cluster)
  {
    hide React, Restart, Tally, PacketsOf, HistoryHolds, Fixed, Elected;
    if Enabled(s, c) { RestartOutcome(s.nodes[c.node], c.lastHeard, c.now); }
  }

  lemma {:induction false} VotesAlways(s: System, run: seq<Choice>, cluster: set<Address>)
    requires Initial(s) && NoReconfiguration(run)
    requires forall a :: a in s.nodes ==> a in cluster && |s.nodes[a].peers| == |cluster| - 1
    ensures VotesHold(After(s, run), cluster)
  {
    hide Indices, Restart, Next;
    HistoryAlways(s, run);
    FixedAlways(s, run, cluster);
    if |run| == 0 {
      forall a | a in s.nodes ensures s.nodes[a].role.Follower? {
        RestartOutcome(Blank(a, s.nodes[a].peers, s.nodes[a].minElectionTimeout), s.nodes[a].leaderLastHeard, 0);
      }
    } else {
      VotesAlways(s, run[..|run| - 1], cluster);
      assert run[|run| - 1].Ask? ==> !run[|run| - 1].request.AddServer?;
      NextVotes(After(s, run[..|run| - 1]), run[|run| - 1], cluster);
    }
  }

  // ----- Election Safety -----

  /** No node grants two candidates its vote for one term. */
  ghost predicate OneVote(h: History) {
    forall v, t, a, b :: (v, t, a) in h.grants && (v, t, b) in h.grants ==> a == b
  }

  /** Every grant a candidacy counts comes from a different other member, for that term. */
  ghost predicate CleanCounts(h: History, cluster: set<Address>) {
    forall a, t :: var tally := Tally(h, a, t);
      && (forall i :: 0 <= i < |tally| ==> tally[i].1 == t && tally[i].0 in cluster - {a})
      && (forall i, j :: 0 <= i < j < |tally| ==> tally[i].0 != tally[j].0)
  }

  function Voters(tally: seq<(Address, int)>): set<Address> {
    set i | 0 <= i < |tally| :: tally[i].0
  }

  lemma {:induction false} VotersSize(tally: seq<(Address, int)>)
    requires forall i, j :: 0 <= i < j < |tally| ==> tally[i].0 != tally[j].0
    ensures |Voters(tally)| == |tally|
  {
    if |tally| > 0 {
      var init := tally[..|tally| - 1];
      VotersSize(init);
      var last := tally[|tally| - 1].0;
      VotersLast(tally);
      assert last !in Voters(init);
    }
  }

  lemma VotersLast(tally: seq<(Address, int)>)
    requires |tally| > 0
    ensures Voters(tally) == Voters(tally[..|tally| - 1]) + {tally[|tally| - 1].0}
  {
    var init := tally[..|tally| - 1];
    forall x | x in Voters(init) ensures x in Voters(tally) {
      var i :| 0 <= i < |init| && init[i].0 == x;
      assert tally[i].0 == x;
    }
    forall x | x in Voters(tally) ensures x in Voters(init) + {tally[|tally| - 1].0} {
      var i :| 0 <= i < |tally| && tally[i].0 == x;
      if i < |init| { assert init[i].0 == x; }
    }
  }

  lemma WinnersQuorum(s: System, cluster: set<Address>, t: int, a: Address) returns (q: set<Address>)
    requires VotesHold(s, cluster) && CleanCounts(s.hist, cluster) && (t, a) in s.hist.leaders
    ensures Quorum(q, cluster) && forall v :: v in q ==> (v, t, a) in s.hist.grants
  {
    hide Tally;
    var tally := Tally(s.hist, a, t);
    VotersSize(tally);
    q := Voters(tally) + {a};
    forall v | v in q ensures (v, t, a) in s.hist.grants {
      if v != a { var i :| 0 <= i < |tally| && tally[i].0 == v; }
    }
  }

  /** Election Safety (section 5.2 of the Raft paper), over every run in a fixed cluster of
      odd size in which no node votes twice in a term and every counted grant comes from a
      different member for the candidate's current term. */
  lemma ElectionSafety(s: System, run: seq<Choice>, cluster: set<Address>)
    requires Initial(s) && NoReconfiguration(run) && |cluster| % 2 == 1
    requires forall a :: a in s.nodes ==> a in cluster && |s.nodes[a].peers| == |cluster| - 1
    requires OneVote(After(s, run).hist) && CleanCounts(After(s, run).hist, cluster)
    ensures OneLeader(After(s, run).hist)
  {
    hide After, VotesHold;
    VotesAlways(s, run, cluster);
    var t := After(s, run);
    QuorumsMeetIffOdd(cluster);
    forall term, a, b | (term, a) in t.hist.leaders && (term, b) in t.hist.leaders ensures a == b {
      var p := WinnersQuorum(t, cluster, term, a);
      var q := WinnersQuorum(t, cluster, term, b);
      var v :| v in p * q;
      assert (v, term, a) in t.hist.grants && (v, term, b) in t.hist.grants;
    }
  }

  /** Log Matching with its hypothesis traced back to the votes. */
  lemma LogMatchingFromVotes(s: System, run: seq<Choice>, cluster: set<Address>, a: Address, b: Address)
    requires Initial(s) && NoReconfiguration(run) && |cluster| % 2 == 1
    requires forall x :: x in s.nodes ==> x in cluster && |s.nodes[x].peers| == |cluster| - 1
    requires OneVote(After(s, run).hist) && CleanCounts(After(s, run).hist, cluster)
    requires a in After(s, run).nodes && b in After(s, run).nodes
    ensures Matching(After(s, run).nodes[a].log, After(s, run).nodes[b].log)
  {
    hide After, Initial, OneVote, CleanCounts, OneLeader, Matching;
    ElectionSafety(s, run, cluster);
    LogMatchingProperty(s, run, a, b);
  }
}
