/** Commitment in clean runs: what a leader commits and a winning set of members holds is in
    the log of every later leader, and no two leaders commit differently. */
module Commitment {
  import opened Types
  import opened Rules
  import opened Interpreter
  import opened Reactions
  import opened Effects
  import opened Outcomes
  import opened Network
  import opened Leadership
  import opened LogMatching
  import opened Config
  import opened Elections
  import opened NodeRuns
  import opened Replay
  import opened Bounds
  import opened Completeness

  /** The step makes a leader raise its commit index. */
  ghost predicate LeaderCommits(s: System, c: Choice) {
    && Enabled(s, c) && !c.Reboot?
    && var n := s.nodes[Target(c)]; var k := React(n, EventFor(c), c.now).node;
       !n.halted && n.role.Leader? && !k.halted && k.role.Leader? && k.commitIndex > n.commitIndex
  }

  /** What it has then committed. */
  function Committed(s: System, c: Choice): seq<LogEntry>
    requires Enabled(s, c) && !c.Reboot?
  {
    var n := s.nodes[Target(c)];
    var k := React(n, EventFor(c), c.now).node;
    if 0 <= k.commitIndex < |n.log| then n.log[..k.commitIndex + 1] else n.log
  }

  /** Up to where peer `x` is taken to agree when `responder` has just acknowledged. */
  function TakenToHold(n: NodeState, x: Address, responder: Address): int {
    if x == responder then LastIndex(n) else Lookup(n.matchIndex, x)
  }

  /** The peers counted for index `at`. */
  function Counted(n: NodeState, peers: seq<Address>, responder: Address, at: int): set<Address> {
    set x | x in peers && TakenToHold(n, x, responder) >= at
  }

  /** All of `q` hold `p` at some time in term `t`. */
  ghost predicate AllHold(s: System, run: seq<Choice>, q: set<Address>, t: int, p: seq<LogEntry>) {
    forall v :: v in q ==> HeldBy(s, run, v, t, p)
  }

  /** Some winning set of members holds, at some time in the leader's term, what the step
      commits - whichever peers the leader counted for it. */
  ghost predicate HonestlyCounted(s: System, run: seq<Choice>, j: nat, cluster: set<Address>)
    requires j < |run| && Enabled(After(s, run[..j]), run[j]) && !run[j].Reboot?
  {
    var t := After(s, run[..j]);
    exists q :: Quorum(q, cluster) && AllHold(s, run, q, t.nodes[Target(run[j])].currentTerm, Committed(t, run[j]))
  }

  /** The step commits more than entry 0. Every peer is taken to hold that entry from the start,
      so a commit of it alone says nothing. */
  ghost predicate CommitsMore(s: System, c: Choice) {
    LeaderCommits(s, c) && |Committed(s, c)| > 1
  }

  // ----- what a commit rests on -----

  lemma {:induction false} ScanCommittable(n: NodeState, responder: Address, at: int, best: int)
    ensures var c := Scan(n, responder, at, best); c == best || (at <= c <= LastIndex(n) && Committable(n, responder, c))
    decreases LastIndex(n) - at
  {
    hide Committable;
    if at <= LastIndex(n) { ScanCommittable(n, responder, at + 1, if Committable(n, responder, at) then at else best); }
  }

  /** A leader's commit index moves only forward, and only by the commit rule. */
  lemma CommitMoves(n: NodeState, ev: Event, now: int)
    requires !n.halted && n.role.Leader? && !ev.StateChanged? && n.lastApplied >= -1
    requires var k := React(n, ev, now).node; !k.halted && k.role.Leader?
    ensures var c := React(n, ev, now).node.commitIndex;
            || c == n.commitIndex
            || (n.commitIndex < c <= LastIndex(n) && ev.AppendReply? && Committable(n, ev.ack.address, c))
    ensures React(n, ev, now).node.lastApplied >= -1
  {
    hide React, Committable, Scan;
    if ev.AppendEntries? {
      LeaderKeepsRole(n, ev.append, now);
    } else if Applies(n, ev) {
      LeaderApplies(n, ev.ack, now);
      CommitNotBack(n, ev.ack);
      ScanCommittable(n, ev.ack.address, n.commitIndex + 1, n.commitIndex);
    } else {
      OthersKeep(n, ev, now);
    }
  }

  /** Counting is counting a set, when no peer is listed twice. */
  lemma {:induction false} CountedSize(n: NodeState, peers: seq<Address>, responder: Address, at: int)
    requires forall i, j :: 0 <= i < j < |peers| ==> peers[i] != peers[j]
    ensures |Counted(n, peers, responder, at)| == Holders(n, peers, responder, at)
  {
    if |peers| == 0 {
      assert Counted(n, peers, responder, at) == {};
    } else {
      hide Counted;
      var rest := peers[1..];
      CountedSize(n, rest, responder, at);
      CountedHead(n, peers, responder, at);
    }
  }

  lemma CountedHead(n: NodeState, peers: seq<Address>, responder: Address, at: int)
    requires |peers| > 0 && forall i, j :: 0 <= i < j < |peers| ==> peers[i] != peers[j]
    ensures peers[0] !in Counted(n, peers[1..], responder, at)
    ensures Counted(n, peers, responder, at)
         == (if TakenToHold(n, peers[0], responder) >= at then {peers[0]} else {}) + Counted(n, peers[1..], responder, at)
  {
    hide TakenToHold;
    assert peers == [peers[0]] + peers[1..];
  }

  // ----- peers do not change -----

  lemma NextPeers(s: System, c: Choice, cluster: set<Address>, a: Address)
    requires Fixed(s, cluster) && a in s.nodes
    requires c.Ask? ==> !c.request.AddServer? && !c.request.RemoveServer?
    ensures a in Next(s, c).nodes && Next(s, c).nodes[a].peers == s.nodes[a].peers
  {
    hide React, Restart, PacketsOf, Noted, ConfigEffect;
    if Enabled(s, c) && a == Target(c) {
      var n := s.nodes[a];
      if c.Reboot? {
        RestartOutcome(n, c.lastHeard, c.now);
      } else {
        var ev := EventFor(c);
        StepOf(s, c);
        if n.halted {
          DeadStep(n, ev, c.now);
        } else if ev.AppendEntries? {
          TakenPacket(s, c);
          FixedAppend(n, ev.append, c.now);
        } else {
          OtherConfig(n, ev, c.now);
          PlainEvent(n, ev);
          SamePeers(n, ev, React(n, ev, c.now).node);
        }
      }
    } else if Enabled(s, c) && !c.Reboot? {
      StepOf(s, c);
    }
  }

  lemma SamePeers(n: NodeState, ev: Event, k: NodeState)
    requires ConfigEffect(n, ev, k) && !ChangesCluster(n, ev)
    ensures k.peers == n.peers
  {
    hide EffectOf;
  }

  lemma {:induction false} PeersAlways(s: System, run: seq<Choice>, cluster: set<Address>, a: Address)
    requires Initial(s) && NoReconfiguration(run) && a in After(s, run).nodes
    requires forall x :: x in s.nodes ==> x in cluster && |s.nodes[x].peers| == |cluster| - 1
    ensures a in s.nodes && After(s, run).nodes[a].peers == s.nodes[a].peers
  {
    hide Next, Initial, Fixed;
    if |run| > 0 {
      var shorter := run[..|run| - 1];
      HistoryAlways(s, shorter);
      TargetTerm(After(s, shorter), run[|run| - 1]);
      assert a in After(s, shorter).nodes.Keys;
      PeersAlways(s, shorter, cluster, a);
      FixedAlways(s, shorter, cluster);
      assert run[|run| - 1].Ask? ==> !run[|run| - 1].request.AddServer?;
      NextPeers(After(s, shorter), run[|run| - 1], cluster, a);
    }
  }

  // ----- the quorum behind a commit -----

  /** The leader and the peers it counted. */
  function Backers(s: System, c: Choice): set<Address>
    requires Enabled(s, c) && !c.Reboot? && EventFor(c).AppendReply?
  {
    var n := s.nodes[Target(c)];
    {Target(c)} + Counted(n, n.peers, EventFor(c).ack.address, React(n, EventFor(c), c.now).node.commitIndex)
  }

  lemma BackersQuorum(s: System, run: seq<Choice>, j: nat, cluster: set<Address>)
    requires CleanRun(s, run, cluster) && j < |run| && LeaderCommits(After(s, run[..j]), run[j])
    ensures EventFor(run[j]).AppendReply? && Quorum(Backers(After(s, run[..j]), run[j]), cluster)
    ensures var n := After(s, run[..j]).nodes[Target(run[j])];
            && EndsIn(Committed(After(s, run[..j]), run[j]), n.currentTerm)
            && Contains(n.log, Committed(After(s, run[..j]), run[j]))
  {
    hide After, React, CleanRun, LeaderCommits, Committed, Counted, Quorum, EndsIn, Contains;
    var t, c := After(s, run[..j]), run[j];
    CommitStep(t, c);
    CommitIndices(s, run, j, cluster);
    CommitWhere(t, c);
    PeersFit(s, run, j, cluster, Target(c));
    var n := t.nodes[Target(c)];
    BackersWin(n, EventFor(c).ack.address, React(n, EventFor(c), c.now).node.commitIndex, Target(c), cluster);
  }

  lemma CommitIndices(s: System, run: seq<Choice>, j: nat, cluster: set<Address>)
    requires CleanRun(s, run, cluster) && j < |run| && LeaderCommits(After(s, run[..j]), run[j])
    ensures var n := After(s, run[..j]).nodes[Target(run[j])]; n.lastApplied >= -1 && n.commitIndex >= -1
  {
    hide After, React, CleanRun, Initial;
    CleanRunStarts(s, run, cluster);
    BoundsAlways(s, run[..j], Target(run[j]));
  }

  /** A leader commits on a reply, an entry of its own term that enough peers are taken to hold. */
  lemma CommitWhere(s: System, c: Choice)
    requires LeaderCommits(s, c) && s.nodes[Target(c)].lastApplied >= -1 && s.nodes[Target(c)].commitIndex >= -1
    ensures EventFor(c).AppendReply?
    ensures var n := s.nodes[Target(c)]; var at := React(n, EventFor(c), c.now).node.commitIndex;
            && 0 <= at < |n.log| && Committable(n, EventFor(c).ack.address, at)
            && EndsIn(Committed(s, c), n.currentTerm) && Contains(n.log, Committed(s, c))
  {
    hide React, Holders;
    var n := s.nodes[Target(c)];
    EventsOutside(s, c);
    CommitMoves(n, EventFor(c), c.now);
    SameLogSelf(n.log);
  }

  /** In a clean run every node's peers are all other members, each once. */
  lemma PeersFit(s: System, run: seq<Choice>, j: nat, cluster: set<Address>, a: Address)
    requires CleanRun(s, run, cluster) && j <= |run| && a in After(s, run[..j]).nodes
    ensures var n := After(s, run[..j]).nodes[a];
            && a in cluster && |n.peers| == |cluster| - 1 && (forall x :: x in n.peers ==> x in cluster - {a})
            && forall i, k :: 0 <= i < k < |n.peers| ==> n.peers[i] != n.peers[k]
  {
    hide After, OneVote, CleanCounts, Initial;
    ReconfigurationPrefix(run, j);
    PeersAlways(s, run[..j], cluster, a);
  }

  lemma BackersWin(n: NodeState, r: Address, at: int, a: Address, cluster: set<Address>)
    requires Committable(n, r, at) && a in cluster && |n.peers| == |cluster| - 1
    requires forall x :: x in n.peers ==> x in cluster - {a}
    requires forall i, k :: 0 <= i < k < |n.peers| ==> n.peers[i] != n.peers[k]
    ensures Quorum({a} + Counted(n, n.peers, r, at), cluster)
  {
    hide TakenToHold, Holders;
    CountedSize(n, n.peers, r, at);
    TestsAgree(1 + Holders(n, n.peers, r, at), |n.peers|);
    OneMoreMember(Counted(n, n.peers, r, at), a);
  }

  lemma OneMoreMember(q: set<Address>, a: Address)
    ensures a !in q ==> |{a} + q| == 1 + |q|
  {
  }

  lemma EventsOutside(s: System, c: Choice)
    requires Enabled(s, c) && !c.Reboot?
    ensures !EventFor(c).StateChanged?
  {
    hide Next, React;
    StepOf(s, c);
  }

  lemma HeldLater(s: System, run: seq<Choice>, j: nat, k: nat, v: Address, t: int, p: seq<LogEntry>)
    requires j <= k <= |run| && HeldBy(s, run[..j], v, t, p)
    ensures HeldBy(s, run[..k], v, t, p)
  {
    hide After, HoldsIn;
    var i :| 0 <= i <= j && HoldsIn(After(s, run[..j][..i]), v, t, p);
    assert run[..j][..i] == run[..i] == run[..k][..i];
  }

  // ----- Leader Completeness and State Machine Safety -----

  /** Leader Completeness (section 5.4.3 of the Raft paper) for what the code commits: in a
      clean run without stale truncations, what a leader commits while a winning set of members
      holds it is in the log of every leader of a later term. */
  lemma LeaderCompleteness(s: System, run: seq<Choice>, j: nat, cluster: set<Address>)
    requires CleanRun(s, run, cluster) && NoneStale(s, run)
    requires j < |run| && LeaderCommits(After(s, run[..j]), run[j]) && HonestlyCounted(s, run, j, cluster)
    ensures var t := After(s, run[..j]).nodes[Target(run[j])].currentTerm; var logs := After(s, run).hist.leaderLog;
            forall u :: u in logs && u > t ==> Contains(logs[u], Committed(After(s, run[..j]), run[j]))
  {
    hide After, React, CleanRun, NoneStale, LeaderCommits, EndsIn, Quorum, HeldBy, Contains, Committed, Backers;
    var t, c := After(s, run[..j]), run[j];
    CommitStep(t, c);
    BackersQuorum(s, run, j, cluster);
    var n := t.nodes[Target(c)];
    var q :| Quorum(q, cluster) && AllHold(s, run, q, n.currentTerm, Committed(t, c));
    QuorumKept(s, run, cluster, n.currentTerm, Committed(t, c), q);
  }

  /** A commit that a later leader does not hold was never held by a winning set. */
  lemma LostMeansDishonest(s: System, run: seq<Choice>, j: nat, u: int, cluster: set<Address>)
    requires CleanRun(s, run, cluster) && NoneStale(s, run) && j < |run| && LeaderCommits(After(s, run[..j]), run[j])
    requires u in After(s, run).hist.leaderLog && u > After(s, run[..j]).nodes[Target(run[j])].currentTerm
    requires !Contains(After(s, run).hist.leaderLog[u], Committed(After(s, run[..j]), run[j]))
    ensures Enabled(After(s, run[..j]), run[j]) && !run[j].Reboot? && !HonestlyCounted(s, run, j, cluster)
  {
    hide After, CleanRun, NoneStale, LeaderCommits, Contains, Committed, HonestlyCounted;
    CommitStep(After(s, run[..j]), run[j]);
    if HonestlyCounted(s, run, j, cluster) {
      LeaderCompleteness(s, run, j, cluster);
      assert false;
    }
  }

  lemma CommitStep(s: System, c: Choice)
    requires LeaderCommits(s, c)
    ensures Enabled(s, c) && !c.Reboot? && Target(c) in s.nodes
  {
  }

  /** Whoever holds in the leader's term what the leader so commits never loses it; the leader
      itself is one of them. */
  lemma CommitKept(s: System, run: seq<Choice>, j: nat, k: nat, cluster: set<Address>, v: Address)
    requires CleanRun(s, run, cluster) && NoneStale(s, run)
    requires j < |run| && LeaderCommits(After(s, run[..j]), run[j]) && HonestlyCounted(s, run, j, cluster) && k <= |run|
    requires var t := After(s, run[..j]);
             || (v == Target(run[j]) && j <= k)
             || HeldBy(s, run[..k], v, t.nodes[Target(run[j])].currentTerm, Committed(t, run[j]))
    ensures v in After(s, run[..k]).nodes
            && Contains(After(s, run[..k]).nodes[v].log, Committed(After(s, run[..j]), run[j]))
  {
    hide After, React, CleanRun, NoneStale, LeaderCommits, EndsIn, Quorum, HeldBy, Contains, Committed, Backers,
         Initial;
    var t, c := After(s, run[..j]), run[j];
    CommitStep(t, c);
    BackersQuorum(s, run, j, cluster);
    var term := t.nodes[Target(c)].currentTerm;
    var p := Committed(t, c);
    if v == Target(c) && j <= k {
      CommitterHolds(s, run, j);
      HeldLater(s, run, j, k, v, term, p);
    }
    var q :| Quorum(q, cluster) && AllHold(s, run, q, term, p);
    KeptAlways(s, run, k, term, p, q, cluster);
    CleanRunStarts(s, run, cluster);
    HeldByMember(s, run, k, v, term, p);
    assert v in Keepers(s, run[..k], term, p);
  }

  lemma CommitterHolds(s: System, run: seq<Choice>, j: nat)
    requires j < |run| && Enabled(After(s, run[..j]), run[j]) && !run[j].Reboot?
    requires var t := After(s, run[..j]); Contains(t.nodes[Target(run[j])].log, Committed(t, run[j]))
    ensures var t := After(s, run[..j]);
            HeldBy(s, run[..j], Target(run[j]), t.nodes[Target(run[j])].currentTerm, Committed(t, run[j]))
  {
    hide After, React, Contains, Committed;
    assert run[..j][..j] == run[..j];
    var t := After(s, run[..j]);
    assert HoldsIn(After(s, run[..j][..j]), Target(run[j]), t.nodes[Target(run[j])].currentTerm, Committed(t, run[j]));
  }

  lemma CleanRunStarts(s: System, run: seq<Choice>, cluster: set<Address>)
    requires CleanRun(s, run, cluster)
    ensures Initial(s)
  {
    hide Initial, OneVote, CleanCounts, After;
  }

  lemma HeldByMember(s: System, run: seq<Choice>, k: nat, v: Address, t: int, p: seq<LogEntry>)
    requires Initial(s) && k <= |run| && HeldBy(s, run[..k], v, t, p)
    ensures v in After(s, run[..k]).nodes
  {
    hide After, Initial, Contains;
    var i :| 0 <= i <= k && HoldsIn(After(s, run[..k][..i]), v, t, p);
    assert run[..k][..i] == run[..i];
    TermsGrow(s, run, i, k);
    assert v in After(s, run[..i]).nodes.Keys;
  }

  /** A leader's log as it stood is a prefix of what it becomes. */
  lemma {:induction false} LogsGrow(s: System, run: seq<Choice>, j: nat)
    requires Initial(s) && j <= |run| && OneLeader(After(s, run).hist)
    ensures Extends(After(s, run[..j]).hist.leaderLog, After(s, run).hist.leaderLog)
    decreases |run| - j
  {
    hide After, Next, Initial, OneLeader, HistoryHolds, Matched;
    if j == |run| {
      assert run[..j] == run;
      ExtendsSelf(After(s, run).hist.leaderLog);
    } else {
      LogsGrow(s, run, j + 1);
      PrefixNext(s, run, j);
      OneLeaderAt(s, run, j);
      OneLeaderAt(s, run, j + 1);
      HistoryAlways(s, run[..j]);
      MatchedAlways(s, run[..j]);
      LogsExtend(After(s, run[..j]), run[j]);
      ExtendsTrans(After(s, run[..j]).hist.leaderLog, After(s, run[..j + 1]).hist.leaderLog, After(s, run).hist.leaderLog);
    }
  }

  lemma ExtendsSelf(logs: LeaderLogs)
    ensures Extends(logs, logs)
  {
  }

  lemma ExtendsTrans(a: LeaderLogs, b: LeaderLogs, c: LeaderLogs)
    requires Extends(a, b) && Extends(b, c)
    ensures Extends(a, c)
  {
  }

  lemma {:induction false} OneLeaderAt(s: System, run: seq<Choice>, j: nat)
    requires Initial(s) && j <= |run| && OneLeader(After(s, run).hist)
    ensures OneLeader(After(s, run[..j]).hist)
    decreases |run| - j
  {
    hide After, Next, OneLeader;
    if j == |run| {
      assert run[..j] == run;
    } else {
      OneLeaderAt(s, run, j + 1);
      PrefixNext(s, run, j);
      OneLeaderBefore(After(s, run[..j]), run[j]);
    }
  }

  /** What a leader commits is in its term's log for good. */
  lemma CommittedInLog(s: System, run: seq<Choice>, j: nat, cluster: set<Address>)
    requires CleanRun(s, run, cluster) && j < |run| && LeaderCommits(After(s, run[..j]), run[j])
    ensures Enabled(After(s, run[..j]), run[j]) && !run[j].Reboot?
    ensures var t := After(s, run[..j]).nodes[Target(run[j])].currentTerm; var logs := After(s, run).hist.leaderLog;
            t in logs && Contains(logs[t], Committed(After(s, run[..j]), run[j]))
  {
    hide After, React, CleanRun, Contains, Committed, EndsIn, Backers, Initial, Quorum, OneLeader, Rooted,
         PacketMatched;
    var t, c := After(s, run[..j]), run[j];
    BackersQuorum(s, run, j, cluster);
    CleanRunStarts(s, run, cluster);
    CleanRunLeads(s, run, cluster);
    OneLeaderAt(s, run, j);
    MatchedAlways(s, run[..j]);
    LogsGrow(s, run, j);
    var n := t.nodes[Target(c)];
    var logs, logs' := t.hist.leaderLog, After(s, run).hist.leaderLog;
    var p := Committed(t, c);
    ContainsSame(n.log, logs[n.currentTerm], p);
    LongEnough(logs[n.currentTerm], p);
    ContainsAlong(logs[n.currentTerm], logs'[n.currentTerm], p, |logs[n.currentTerm]|);
  }

  lemma CleanRunLeads(s: System, run: seq<Choice>, cluster: set<Address>)
    requires CleanRun(s, run, cluster)
    ensures OneLeader(After(s, run).hist)
  {
    hide After, Initial, OneVote, CleanCounts, OneLeader;
    ElectionSafety(s, run, cluster);
  }

  /** State Machine Safety (section 5.4.3 of the Raft paper) for what leaders commit: of two
      honest commits in such a run, one extends the other. */
  lemma CommitsAgree(s: System, run: seq<Choice>, i: nat, j: nat, cluster: set<Address>)
    requires CleanRun(s, run, cluster) && NoneStale(s, run) && i < |run| && j < |run|
    requires LeaderCommits(After(s, run[..i]), run[i]) && HonestlyCounted(s, run, i, cluster)
    requires LeaderCommits(After(s, run[..j]), run[j]) && HonestlyCounted(s, run, j, cluster)
    ensures Enabled(After(s, run[..i]), run[i]) && !run[i].Reboot? && Enabled(After(s, run[..j]), run[j]) && !run[j].Reboot?
    ensures var p, q := Committed(After(s, run[..i]), run[i]), Committed(After(s, run[..j]), run[j]);
            if |p| <= |q| then Contains(q, p) else Contains(p, q)
  {
    hide After, CleanRun, NoneStale, HonestlyCounted, LeaderCommits, Contains, Committed;
    CommittedInLog(s, run, i, cluster);
    CommittedInLog(s, run, j, cluster);
    LeaderCompleteness(s, run, i, cluster);
    LeaderCompleteness(s, run, j, cluster);
    var x, y := After(s, run[..i]), After(s, run[..j]);
    var logs := After(s, run).hist.leaderLog;
    var t, u := x.nodes[Target(run[i])].currentTerm, y.nodes[Target(run[j])].currentTerm;
    BothContained(logs[if t <= u then u else t], Committed(x, run[i]), Committed(y, run[j]));
  }

  lemma BothContained(log: seq<LogEntry>, p: seq<LogEntry>, q: seq<LogEntry>)
    requires Contains(log, p) && Contains(log, q)
    ensures if |p| <= |q| then Contains(q, p) else Contains(p, q)
  {
  }
}
