/** Honest counting from what a leader can see for itself: which replies it counts, and how
    far it commits on them. */
module Acknowledgement {
  import opened Types
  import opened Rules
  import opened Interpreter
  import opened Reactions
  import opened Effects
  import opened Outcomes
  import opened Network
  import opened NodeRuns
  import opened TermOrder
  import opened Leadership
  import opened LogMatching
  import opened Safety
  import opened Elections
  import opened Replay
  import opened Bounds
  import opened Completeness
  import opened Commitment
  import opened MachineSafety

  /** A success reply that a leader counts answers a request that this very leadership sent on
      a timeout, and the leader's log has not grown since. While the log is entry 0 alone any
      reply will do: it says no more than what is presumed of every peer anyway. */
  ghost predicate Timely(s: System, c: Choice) {
    Enabled(s, c) && c.Deliver? && c.packet.AppendAnswerPacket?
    && !s.nodes[c.packet.dest].halted && Applies(s.nodes[c.packet.dest], AppendReply(c.packet.ack)) ==>
      || |s.nodes[c.packet.dest].log| <= 1
      || (Acknowledges(s.nodes[c.packet.dest], c.packet) && |s.nodes[c.packet.dest].log| == |c.packet.view|)
  }

  ghost predicate AllTimely(s: System, run: seq<Choice>) {
    forall j :: 0 <= j < |run| ==> Timely(After(s, run[..j]), run[j])
  }

  // ----- what has been held -----

  lemma HeldLess(s: System, run: seq<Choice>, v: Address, t: int, p: seq<LogEntry>, q: seq<LogEntry>)
    requires HeldBy(s, run, v, t, p) && AgreeUpTo(q, p, |q|)
    ensures HeldBy(s, run, v, t, q)
  {
    hide After;
    var i :| 0 <= i <= |run| && HoldsIn(After(s, run[..i]), v, t, p);
    HoldsLess(After(s, run[..i]), v, t, p, q);
  }

  lemma HoldsLess(s: System, v: Address, t: int, p: seq<LogEntry>, q: seq<LogEntry>)
    requires HoldsIn(s, v, t, p) && AgreeUpTo(q, p, |q|)
    ensures HoldsIn(s, v, t, q)
  {
  }

  lemma HeldNow(s: System, run: seq<Choice>, j: nat, v: Address, t: int, p: seq<LogEntry>)
    requires j <= |run| && HoldsIn(After(s, run[..j]), v, t, p)
    ensures HeldBy(s, run[..j], v, t, p)
  {
    hide After, HoldsIn;
    assert run[..j][..j] == run[..j];
  }

  // ----- answers on the network -----

  /** Whoever has answered a routine request with success has held what the request spoke for. */
  ghost predicate AnswersTrue(s: System, run: seq<Choice>, j: nat)
    requires j <= |run|
  {
    forall p :: p in After(s, run[..j]).net && p.AppendAnswerPacket? && p.ack.success && p.routine ==>
      HeldBy(s, run[..j], p.ack.address, p.append.term, p.view)
  }

  lemma FreshAnswer(s: System, c: Choice, p: Packet)
    requires Sound(s) && Sound(Next(s, c)) && Enabled(s, c) && !c.Reboot?
    requires p in Next(s, c).net && p !in s.net && p.AppendAnswerPacket? && p.ack.success && p.routine
    ensures HoldsIn(Next(s, c), p.ack.address, p.append.term, p.view)
  {
    hide React, Next, Rooted, PacketsOf, Noted, AllOrdered, Candidacies, LedBehind, OnRecord, Takes, EffectOf;
    var i := NewPacket(s, c, p);
    var n := s.nodes[Target(c)];
    StepOf(s, c);
    TakenPacket(s, c);
    AppendTaken(n, p.append, c.now);
    assert PacketMatched(p, Next(s, c).hist.leaderLog);
  }

  lemma NextAnswers(s: System, run: seq<Choice>, j: nat)
    requires j < |run| && After(s, run[..j + 1]) == Next(After(s, run[..j]), run[j])
    requires Sound(After(s, run[..j])) && Sound(After(s, run[..j + 1])) && AnswersTrue(s, run, j)
    ensures AnswersTrue(s, run, j + 1)
  {
    hide After, Next, Sound, HeldBy, HoldsIn;
    var u, c := After(s, run[..j]), run[j];
    NetAndGrants(u, c);
    forall p | p in Next(u, c).net && p.AppendAnswerPacket? && p.ack.success && p.routine
      ensures HeldBy(s, run[..j + 1], p.ack.address, p.append.term, p.view)
    {
      if p in u.net {
        HeldLater(s, run, j, j + 1, p.ack.address, p.append.term, p.view);
      } else {
        FreshAnswer(u, c, p);
        HeldNow(s, run, j + 1, p.ack.address, p.append.term, p.view);
      }
    }
  }

  // ----- match indices -----

  /** Peer `x` has held what the leader takes it to hold, as far as that goes past entry 0. */
  ghost predicate MatchHeld(s: System, run: seq<Choice>, n: NodeState, x: Address) {
    var i := Lookup(n.matchIndex, x);
    i >= 1 ==> i < |n.log| && HeldBy(s, run, x, n.currentTerm, n.log[..i + 1])
  }

  ghost predicate Informed(s: System, run: seq<Choice>, n: NodeState) {
    n.role.Leader? && !n.halted ==> forall x :: x in n.peers ==> MatchHeld(s, run, n, x)
  }

  ghost predicate AllInformed(s: System, run: seq<Choice>, j: nat)
    requires j <= |run|
  {
    forall a :: a in After(s, run[..j]).nodes ==> Informed(s, run[..j], After(s, run[..j]).nodes[a])
  }

  /** The leader stays as it is, apart from a longer log and what it knows of its peers. */
  ghost predicate LeadsOn(n: NodeState, k: NodeState) {
    k.role.Leader? && k.currentTerm == n.currentTerm && k.peers == n.peers && AgreeUpTo(n.log, k.log, |n.log|)
  }

  /** A leader's match indices move only when it counts a reply. */
  lemma MatchKept(n: NodeState, ev: Event, now: int)
    requires !n.halted && n.role.Leader? && !ev.StateChanged? && !ev.AddServer? && !ev.RemoveServer? && !Applies(n, ev)
    requires React(n, ev, now).node.role.Leader?
    ensures LeadsOn(n, React(n, ev, now).node) && React(n, ev, now).node.matchIndex == n.matchIndex
  {
    hide React, FeedPeers, NewCommit, AdvanceList, Implement, UpToDate, TimeoutCrashes;
    match ev
    case Timeout => LeaderTimeout(n, now);
    case AppendEntries(m) => LeaderKeepsRole(n, m, now);
    case RequestVote(m) => VoteOutcome(n, m, now);
    case VoteReply(r) => VoteReplyOutcome(n, r, now);
    case AppendReply(r) => AppendReplyOutcome(n, r, now);
    case Command(p) => CommandOutcome(n, p, now);
    case Probe(i, t) => ProbeOutcome(n, i, t, now);
  }

  lemma MatchNoted(n: NodeState, r: AppendAnswer, now: int)
    requires !n.halted && Applies(n, AppendReply(r))
    ensures var k := React(n, AppendReply(r), now).node;
            LeadsOn(n, k) && |k.log| == |n.log| && k.matchIndex == n.matchIndex[r.address := LastIndex(n)]
  {
    hide React, Implement, NewCommit, AdvanceList;
    AppendReplyOutcome(n, r, now);
    AcknowledgedRun(n, r, Acknowledged(n, r), now);
  }

  /** A new leader takes every peer to hold entry 0, and no more. */
  lemma MatchFirst(n: NodeState, r: VoteAnswer, now: int)
    requires Wins(n, r)
    ensures var k := React(n, VoteReply(r), now).node; forall x :: x in k.peers ==> Lookup(k.matchIndex, x) == 0
  {
    hide React, GreetPeers, Marked, Elected;
    VoteReplyOutcome(n, r, now);
  }

  lemma StillHeld(s: System, run: seq<Choice>, j: nat, n: NodeState, k: NodeState, x: Address)
    requires j < |run| && MatchHeld(s, run[..j], n, x) && LeadsOn(n, k) && Lookup(k.matchIndex, x) == Lookup(n.matchIndex, x)
    ensures MatchHeld(s, run[..j + 1], k, x)
  {
    hide HeldBy;
    var i := Lookup(n.matchIndex, x);
    if i >= 1 {
      HeldLater(s, run, j, j + 1, x, n.currentTerm, n.log[..i + 1]);
      assert forall e :: 0 <= e <= i ==> Same(n.log[e], k.log[e]);
      HeldLess(s, run[..j + 1], x, n.currentTerm, n.log[..i + 1], k.log[..i + 1]);
    }
  }

  /** The peer whose timely reply is counted has held the leader's log. */
  lemma ReplierHolds(s: System, run: seq<Choice>, j: nat, a: Address, p: Packet)
    requires j <= |run| && Sound(After(s, run[..j])) && AnswersTrue(s, run, j)
    requires p in After(s, run[..j]).net && a in After(s, run[..j]).nodes
    requires Acknowledges(After(s, run[..j]).nodes[a], p) && |After(s, run[..j]).nodes[a].log| == |p.view|
    ensures HeldBy(s, run[..j], p.ack.address, p.append.term, After(s, run[..j]).nodes[a].log)
  {
    hide After, HeldBy, Rooted, AllOrdered, Candidacies, HistoryHolds;
    var u := After(s, run[..j]);
    var n := u.nodes[a];
    assert PacketMatched(p, u.hist.leaderLog);
    AgreeAcross(n.log, u.hist.leaderLog[n.currentTerm], p.view, p.view);
    HeldLess(s, run[..j], p.ack.address, p.append.term, p.view, n.log);
  }

  /** A reply counted over entry 0 alone claims nothing past it. */
  lemma NotedFirst(s: System, run: seq<Choice>, j: nat, n: NodeState, k: NodeState, r: Address, x: Address)
    requires j < |run| && MatchHeld(s, run[..j], n, x) && LeadsOn(n, k) && |n.log| <= 1
    requires k.matchIndex == n.matchIndex[r := LastIndex(n)]
    ensures MatchHeld(s, run[..j + 1], k, x)
  {
    hide HeldBy;
    if x != r { StillHeld(s, run, j, n, k, x); }
  }

  lemma NotedHeld(s: System, run: seq<Choice>, j: nat, n: NodeState, k: NodeState, r: Address, x: Address)
    requires j < |run| && MatchHeld(s, run[..j], n, x) && LeadsOn(n, k) && |k.log| == |n.log|
    requires k.matchIndex == n.matchIndex[r := LastIndex(n)] && HeldBy(s, run[..j], r, n.currentTerm, n.log)
    ensures MatchHeld(s, run[..j + 1], k, x)
  {
    hide HeldBy;
    if x == r {
      HeldLater(s, run, j, j + 1, r, n.currentTerm, n.log);
      HeldLess(s, run[..j + 1], r, n.currentTerm, n.log, k.log);
      assert k.log[..|k.log|] == k.log;
    } else {
      StillHeld(s, run, j, n, k, x);
    }
  }

  lemma TimelyMeans(s: System, c: Choice)
    requires Timely(s, c) && Enabled(s, c) && !c.Reboot? && EventFor(c).AppendReply?
    requires !s.nodes[Target(c)].halted && Applies(s.nodes[Target(c)], EventFor(c)) && |s.nodes[Target(c)].log| > 1
    ensures c.Deliver? && c.packet.AppendAnswerPacket? && c.packet in s.net && c.packet.ack == EventFor(c).ack
    ensures Acknowledges(s.nodes[Target(c)], c.packet) && |s.nodes[Target(c)].log| == |c.packet.view|
    ensures c.packet.append.term == s.nodes[Target(c)].currentTerm
  {
  }

  lemma TargetInformed(s: System, run: seq<Choice>, j: nat)
    requires j < |run| && Sound(After(s, run[..j])) && AnswersTrue(s, run, j) && AllInformed(s, run, j)
    requires Timely(After(s, run[..j]), run[j]) && Enabled(After(s, run[..j]), run[j]) && !run[j].Reboot?
    requires !EventFor(run[j]).AddServer? && !EventFor(run[j]).RemoveServer?
    ensures Informed(s, run[..j + 1], React(After(s, run[..j]).nodes[Target(run[j])], EventFor(run[j]), run[j].now).node)
  {
    hide After, React, Sound, HeldBy, Timely, AnswersTrue, MatchHeld, Acknowledges, EffectOf, EffectHolds, LeadsOn;
    var u, c := After(s, run[..j]), run[j];
    var n, ev := u.nodes[Target(c)], EventFor(c);
    var k := React(n, ev, c.now).node;
    EventsOutside(u, c);
    if n.halted {
      DeadStep(n, ev, c.now);
    } else if k.role.Leader? && !k.halted {
      StepRole(n, ev, c.now);
      if n.role.Candidate? {
        MatchFirst(n, ev.ballot, c.now);
        forall x | x in k.peers ensures MatchHeld(s, run[..j + 1], k, x) { NothingClaimed(s, run[..j + 1], k, x); }
      } else if Applies(n, ev) {
        MatchNoted(n, ev.ack, c.now);
        if |n.log| > 1 {
          TimelyMeans(u, c);
          ReplierHolds(s, run, j, Target(c), c.packet);
        }
        forall x | x in k.peers ensures MatchHeld(s, run[..j + 1], k, x) {
          LeadsOnPeers(n, k);
          if |n.log| > 1 {
            NotedHeld(s, run, j, n, k, ev.ack.address, x);
          } else {
            NotedFirst(s, run, j, n, k, ev.ack.address, x);
          }
        }
      } else {
        MatchKept(n, ev, c.now);
        forall x | x in k.peers ensures MatchHeld(s, run[..j + 1], k, x) {
          LeadsOnPeers(n, k);
          StillHeld(s, run, j, n, k, x);
        }
      }
    }
  }

  lemma NothingClaimed(s: System, run: seq<Choice>, n: NodeState, x: Address)
    requires Lookup(n.matchIndex, x) == 0
    ensures MatchHeld(s, run, n, x)
  {
    hide HeldBy;
  }

  lemma LeadsOnPeers(n: NodeState, k: NodeState)
    requires LeadsOn(n, k)
    ensures k.peers == n.peers
  {
  }

  lemma OtherInformed(s: System, run: seq<Choice>, j: nat, n: NodeState)
    requires j < |run| && Informed(s, run[..j], n)
    ensures Informed(s, run[..j + 1], n)
  {
    hide HeldBy, MatchHeld;
    if n.role.Leader? && !n.halted {
      forall x | x in n.peers ensures MatchHeld(s, run[..j + 1], n, x) {
        LeadsOnItself(n);
        StillHeld(s, run, j, n, n, x);
      }
    }
  }

  lemma LeadsOnItself(n: NodeState)
    requires n.role.Leader?
    ensures LeadsOn(n, n)
  {
  }

  lemma NextInformed(s: System, run: seq<Choice>, j: nat)
    requires j < |run| && After(s, run[..j + 1]) == Next(After(s, run[..j]), run[j])
    requires Sound(After(s, run[..j])) && AnswersTrue(s, run, j) && AllInformed(s, run, j) && Timely(After(s, run[..j]), run[j])
    requires run[j].Ask? ==> !run[j].request.AddServer? && !run[j].request.RemoveServer?
    ensures AllInformed(s, run, j + 1)
  {
    hide After, React, Restart, PacketsOf, Noted, Sound, Informed, Timely, AnswersTrue;
    var u, c := After(s, run[..j]), run[j];
    forall a | a in Next(u, c).nodes ensures Informed(s, run[..j + 1], Next(u, c).nodes[a]) {
      if Enabled(u, c) && a == Target(c) {
        if c.Reboot? {
          RestartOutcome(u.nodes[a], c.lastHeard, c.now);
          FollowerInformed(s, run[..j + 1], Next(u, c).nodes[a]);
        } else {
          StepOf(u, c);
          PlainDelivery(c);
          TargetInformed(s, run, j);
        }
      } else {
        OtherInformed(s, run, j, u.nodes[a]);
      }
    }
  }

  lemma PlainDelivery(c: Choice)
    requires !c.Reboot? && (c.Ask? ==> !c.request.AddServer? && !c.request.RemoveServer?)
    ensures !EventFor(c).AddServer? && !EventFor(c).RemoveServer?
  {
  }

  lemma FollowerInformed(s: System, run: seq<Choice>, n: NodeState)
    requires n.role.Follower?
    ensures Informed(s, run, n)
  {
    hide MatchHeld;
  }

  lemma FirstInformed(s: System, run: seq<Choice>)
    requires Initial(s)
    ensures AllInformed(s, run, 0) && AnswersTrue(s, run, 0)
  {
    hide Restart, MatchHeld, HeldBy;
    assert run[..0] == [];
    AfterNone(s);
    forall a | a in s.nodes ensures s.nodes[a].role.Follower? {
      RestartOutcome(Blank(a, s.nodes[a].peers, s.nodes[a].minElectionTimeout), s.nodes[a].leaderLastHeard, 0);
    }
  }

  /** Over a run with only timely replies, what leaders take their peers to hold, past entry 0,
      those peers have held; and so have all that answered a routine request with success. */
  lemma {:induction false} InformedAlways(s: System, run: seq<Choice>, j: nat)
    requires Initial(s) && NoReconfiguration(run) && OneLeader(After(s, run).hist) && AllTimely(s, run) && j <= |run|
    ensures AllInformed(s, run, j) && AnswersTrue(s, run, j)
  {
    hide After, Next, Initial, OneLeader, Sound, AllInformed, AnswersTrue, Timely;
    if j == 0 {
      FirstInformed(s, run);
    } else {
      InformedAlways(s, run, j - 1);
      PrefixNext(s, run, j - 1);
      OneLeaderAt(s, run, j - 1);
      OneLeaderAt(s, run, j);
      SoundAt(s, run, j - 1);
      SoundAt(s, run, j);
      assert run[j - 1].Ask? ==> !run[j - 1].request.AddServer?;
      NextAnswers(s, run, j - 1);
      NextInformed(s, run, j - 1);
    }
  }

  // ----- honest counting -----

  /** A peer counted for an index past entry 0 has held what is committed. */
  lemma CountedHolds(s: System, run: seq<Choice>, n: NodeState, r: Address, x: Address, at: int, p: seq<LogEntry>)
    requires n.role.Leader? && !n.halted && Informed(s, run, n) && x in Counted(n, n.peers, r, at) && at >= 1
    requires HeldBy(s, run, r, n.currentTerm, n.log)
    requires at < |n.log| && p == n.log[..at + 1]
    ensures HeldBy(s, run, x, n.currentTerm, p)
  {
    hide HeldBy;
    if x == r {
      HeldLess(s, run, x, n.currentTerm, n.log, p);
    } else {
      assert MatchHeld(s, run, n, x);
      HeldLess(s, run, x, n.currentTerm, n.log[..Lookup(n.matchIndex, x) + 1], p);
    }
  }

  /** A commit counts a reply, and stays inside the leader's log. */
  lemma CommitCounts(s: System, c: Choice)
    requires LeaderCommits(s, c) && EventFor(c).AppendReply?
    requires s.nodes[Target(c)].lastApplied >= -1 && s.nodes[Target(c)].commitIndex >= -1
    ensures var n := s.nodes[Target(c)]; var at := React(n, EventFor(c), c.now).node.commitIndex;
            Applies(n, EventFor(c)) && 0 <= at < |n.log| && Committed(s, c) == n.log[..at + 1]
  {
    hide React, Committable;
    var n := s.nodes[Target(c)];
    EventsOutside(s, c);
    CommitMoves(n, EventFor(c), c.now);
    if !Applies(n, EventFor(c)) { OthersKeep(n, EventFor(c), c.now); }
  }

  /** The leader and the peers it counts are a winning set that holds what is committed. */
  lemma TimelyHonest(s: System, run: seq<Choice>, j: nat, cluster: set<Address>)
    requires CleanRun(s, run, cluster) && AllTimely(s, run) && j < |run| && CommitsMore(After(s, run[..j]), run[j])
    ensures Enabled(After(s, run[..j]), run[j]) && !run[j].Reboot? && HonestlyCounted(s, run, j, cluster)
  {
    hide After, React, CleanRun, HeldBy, LeaderCommits, Committed, Backers, Quorum, EndsIn, Contains, Informed,
         Counted, CommitsMore;
    var t, c := After(s, run[..j]), run[j];
    MoreCommits(t, c);
    BackersQuorum(s, run, j, cluster);
    var n := t.nodes[Target(c)];
    var p := Committed(t, c);
    CommitterHolds(s, run, j);
    CountedHonest(s, run, j, cluster);
    forall v | v in Backers(t, c) ensures HeldBy(s, run, v, n.currentTerm, p) {
      BackerIs(t, c, v);
      HeldLater(s, run, j, |run|, v, n.currentTerm, p);
      assert run[..|run|] == run;
    }
    assert AllHold(s, run, Backers(t, c), n.currentTerm, p);
  }

  lemma MoreCommits(s: System, c: Choice)
    requires CommitsMore(s, c)
    ensures LeaderCommits(s, c) && Enabled(s, c) && !c.Reboot? && |Committed(s, c)| > 1
  {
    hide LeaderCommits, Committed;
    CommitStep(s, c);
  }

  lemma BackerIs(s: System, c: Choice, v: Address)
    requires Enabled(s, c) && !c.Reboot? && EventFor(c).AppendReply? && v in Backers(s, c)
    ensures var n := s.nodes[Target(c)];
            v == Target(c) || v in Counted(n, n.peers, EventFor(c).ack.address, React(n, EventFor(c), c.now).node.commitIndex)
  {
    hide React, Counted;
  }

  /** Every peer counted for more than entry 0 has held what is committed. */
  lemma CountedHonest(s: System, run: seq<Choice>, j: nat, cluster: set<Address>)
    requires CleanRun(s, run, cluster) && AllTimely(s, run) && j < |run|
    requires LeaderCommits(After(s, run[..j]), run[j]) && EventFor(run[j]).AppendReply?
    requires |Committed(After(s, run[..j]), run[j])| > 1
    ensures var t := After(s, run[..j]); var n := t.nodes[Target(run[j])];
            forall x :: x in Counted(n, n.peers, EventFor(run[j]).ack.address, React(n, EventFor(run[j]), run[j].now).node.commitIndex) ==>
              HeldBy(s, run[..j], x, n.currentTerm, Committed(t, run[j]))
  {
    hide After, React, CleanRun, Initial, OneLeader, HeldBy, AllInformed, AnswersTrue, Sound, Timely, Counted,
         LeaderCommits, Committed, NoReconfiguration;
    var t, c := After(s, run[..j]), run[j];
    CleanRunParts(s, run, cluster);
    CleanRunLeads(s, run, cluster);
    OneLeaderAt(s, run, j);
    SoundAt(s, run, j);
    InformedAlways(s, run, j);
    CommitStep(t, c);
    BoundsAlways(s, run[..j], Target(c));
    CommitterLeads(t, c);
    CommitCounts(t, c);
    var n := t.nodes[Target(c)];
    var at := React(n, EventFor(c), c.now).node.commitIndex;
    var r := EventFor(c).ack.address;
    TimelyMeans(t, c);
    ReplierHolds(s, run, j, Target(c), c.packet);
    assert Informed(s, run[..j], n) by { InformedAt(s, run, j, Target(c)); }
    forall x | x in Counted(n, n.peers, r, at) ensures HeldBy(s, run[..j], x, n.currentTerm, Committed(t, c)) {
      CountedHolds(s, run[..j], n, r, x, at, Committed(t, c));
    }
  }

  lemma CleanRunParts(s: System, run: seq<Choice>, cluster: set<Address>)
    requires CleanRun(s, run, cluster)
    ensures Initial(s) && NoReconfiguration(run)
  {
    hide Initial, NoReconfiguration, OneVote, CleanCounts, After;
  }

  lemma CommitterLeads(s: System, c: Choice)
    requires LeaderCommits(s, c)
    ensures Enabled(s, c) && !c.Reboot? && !s.nodes[Target(c)].halted && s.nodes[Target(c)].role.Leader?
  {
    hide React;
  }

  lemma InformedAt(s: System, run: seq<Choice>, j: nat, a: Address)
    requires j <= |run| && AllInformed(s, run, j) && a in After(s, run[..j]).nodes
    ensures Informed(s, run[..j], After(s, run[..j]).nodes[a])
  {
    hide Informed, After;
  }

  /** If leaders count only timely replies, every commit is honestly counted. What other nodes
      held in the past follows from what each leader can see when it counts. */
  lemma TimelyRunsHonest(s: System, run: seq<Choice>, cluster: set<Address>)
    requires CleanRun(s, run, cluster) && AllTimely(s, run)
    ensures AllHonest(s, run, cluster)
  {
    hide After, CleanRun, AllTimely, HonestlyCounted, CommitsMore;
    forall j | 0 <= j < |run| && CommitsMore(After(s, run[..j]), run[j])
      ensures Enabled(After(s, run[..j]), run[j]) && !run[j].Reboot? && HonestlyCounted(s, run, j, cluster)
    {
      TimelyHonest(s, run, j, cluster);
    }
  }
}
