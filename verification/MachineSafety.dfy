/** State Machine Safety (section 5.4.3 of the Raft paper) for every node: in clean runs
    without stale truncations in which a winning set of members holds whatever is committed
    beyond entry 0, no two nodes ever differ in anything both have committed, and nothing
    committed is ever overwritten. Entry 0 itself, a no-operation entry in every log, may be
    of another term as long as no more is committed. */
module MachineSafety {
  import opened Types
  import opened Rules
  import opened Interpreter
  import opened Reactions
  import opened Effects
  import opened Outcomes
  import opened Network
  import opened TermOrder
  import opened Leadership
  import opened LogMatching
  import opened Elections
  import opened Replay
  import opened Bounds
  import opened Completeness
  import opened Commitment
  import opened Openings

  ghost predicate AllHonest(s: System, run: seq<Choice>, cluster: set<Address>) {
    forall j :: 0 <= j < |run| && CommitsMore(After(s, run[..j]), run[j]) ==> HonestlyCounted(s, run, j, cluster)
  }

  /** Everything assumed about a run. */
  ghost predicate GoodRun(s: System, run: seq<Choice>, cluster: set<Address>) {
    CleanRun(s, run, cluster) && NoneStale(s, run) && AllHonest(s, run, cluster)
  }

  // ----- where commit indices come from -----

  /** The commit at step `i` reaches past `c`, is of no later term than `term`, and is held by
      `log`. */
  ghost predicate Backs(s: System, run: seq<Choice>, i: nat, c: int, term: int, log: seq<LogEntry>)
    requires i < |run|
  {
    var t := After(s, run[..i]);
    LeaderCommits(t, run[i]) && c < |Committed(t, run[i])| && t.nodes[Target(run[i])].currentTerm <= term
    && Contains(log, Committed(t, run[i]))
  }

  /** `c` lies in `log`; and if it is past entry 0, some leader has committed past it before
      step `j`, and `log` holds what it committed. */
  ghost predicate Backed(s: System, run: seq<Choice>, j: nat, c: int, term: int, log: seq<LogEntry>)
    requires j <= |run|
  {
    c < |log| && (c <= 0 || exists i :: 0 <= i < j && Backs(s, run, i, c, term, log))
  }

  ghost predicate NodesBacked(s: System, run: seq<Choice>, j: nat)
    requires j <= |run|
  {
    var t := After(s, run[..j]);
    forall a :: a in t.nodes && !t.nodes[a].halted ==> Backed(s, run, j, t.nodes[a].commitIndex, t.nodes[a].currentTerm, t.nodes[a].log)
  }

  ghost predicate PacketsBacked(s: System, run: seq<Choice>, j: nat)
    requires j <= |run|
  {
    forall q :: q in After(s, run[..j]).net && q.AppendPacket? ==> Backed(s, run, j, q.append.commit, q.append.term, Spoken(q))
  }

  lemma BackedLater(s: System, run: seq<Choice>, j: nat, k: nat, c: int, term: int, log: seq<LogEntry>)
    requires j <= k <= |run| && Backed(s, run, j, c, term, log)
    ensures Backed(s, run, k, c, term, log)
  {
    hide Backs;
  }

  /** A later log of a later term that holds at least as much. */
  lemma BacksMore(s: System, run: seq<Choice>, i: nat, c: int, term: int, log: seq<LogEntry>, term': int, log': seq<LogEntry>)
    requires i < |run| && Backs(s, run, i, c, term, log) && term <= term'
    requires AgreeUpTo(log, log', |log|)
    ensures Backs(s, run, i, c, term', log')
  {
    hide After, LeaderCommits, Committed;
    CommitStep(After(s, run[..i]), run[i]);
    LongEnough(log, Committed(After(s, run[..i]), run[i]));
    ContainsAlong(log, log', Committed(After(s, run[..i]), run[i]), |log|);
  }

  lemma BackedMore(s: System, run: seq<Choice>, j: nat, c: int, term: int, log: seq<LogEntry>, term': int, log': seq<LogEntry>)
    requires j <= |run| && Backed(s, run, j, c, term, log) && term <= term' && AgreeUpTo(log, log', |log|)
    ensures Backed(s, run, j, c, term', log')
  {
    hide Backs;
    if c > 0 {
      var i :| 0 <= i < j && Backs(s, run, i, c, term, log);
      BacksMore(s, run, i, c, term, log, term', log');
    }
  }

  // ----- what an honest commit secures -----

  lemma HonestAt(s: System, run: seq<Choice>, i: nat, cluster: set<Address>)
    requires GoodRun(s, run, cluster) && i < |run| && CommitsMore(After(s, run[..i]), run[i])
    ensures CleanRun(s, run, cluster) && NoneStale(s, run)
    ensures LeaderCommits(After(s, run[..i]), run[i]) && Enabled(After(s, run[..i]), run[i]) && !run[i].Reboot?
    ensures HonestlyCounted(s, run, i, cluster)
  {
    hide After, CleanRun, NoneStale, LeaderCommits, Committed;
    CommitStep(After(s, run[..i]), run[i]);
  }

  /** Leaders and requests of later terms carry what was committed at step `i`, at any time. */
  lemma CommitSecures(s: System, run: seq<Choice>, i: nat, j: nat, cluster: set<Address>)
    requires GoodRun(s, run, cluster) && i < |run| && j <= |run| && CommitsMore(After(s, run[..i]), run[i])
    ensures Enabled(After(s, run[..i]), run[i]) && !run[i].Reboot?
    ensures var t := After(s, run[..i]).nodes[Target(run[i])].currentTerm; var p := Committed(After(s, run[..i]), run[i]);
            EndsIn(p, t) && LeadersKeep(After(s, run[..j]), t, p) && RequestsReach(After(s, run[..j]), t, p)
  {
    hide After, React, CleanRun, NoneStale, LeaderCommits, EndsIn, Quorum, HeldBy, Contains, Committed, Backers,
         GoodRun, CommitsMore;
    var t, c := After(s, run[..i]), run[i];
    HonestAt(s, run, i, cluster);
    BackersQuorum(s, run, i, cluster);
    var term := t.nodes[Target(c)].currentTerm;
    var p := Committed(t, c);
    var q :| Quorum(q, cluster) && AllHold(s, run, q, term, p);
    KeptAlways(s, run, j, term, p, q, cluster);
  }

  lemma GoodAt(s: System, run: seq<Choice>, j: nat, cluster: set<Address>)
    requires GoodRun(s, run, cluster) && j <= |run|
    ensures Sound(After(s, run[..j])) && OneLeader(After(s, run[..j]).hist) && Initial(s)
    ensures j < |run| ==> !Stale(After(s, run[..j]), run[j]) && After(s, run[..j + 1]) == Next(After(s, run[..j]), run[j])
  {
    hide After, CleanRun, Stale, Sound, OneLeader, Initial, Next, AllHonest;
    CleanRunStarts(s, run, cluster);
    CleanRunLeads(s, run, cluster);
    SoundAlong(s, run, j);
  }

  lemma GoodLeads(s: System, run: seq<Choice>, cluster: set<Address>)
    requires GoodRun(s, run, cluster)
    ensures Initial(s) && OneLeader(After(s, run).hist)
  {
    hide After, CleanRun, NoneStale, OneLeader, Initial, AllHonest;
    CleanRunStarts(s, run, cluster);
    CleanRunLeads(s, run, cluster);
  }

  /** What backs a node's commit index backs it after the next step, too. */
  lemma BackingStays(s: System, run: seq<Choice>, i: nat, j: nat, cluster: set<Address>)
    requires GoodRun(s, run, cluster) && i < j < |run| && Enabled(After(s, run[..j]), run[j]) && !run[j].Reboot?
    requires var n := After(s, run[..j]).nodes[Target(run[j])];
             n.commitIndex >= 1 && Backs(s, run, i, n.commitIndex, n.currentTerm, n.log)
    ensures var n := After(s, run[..j]).nodes[Target(run[j])]; var k := React(n, EventFor(run[j]), run[j].now).node;
            Backs(s, run, i, n.commitIndex, k.currentTerm, k.log) && LeaderCommits(After(s, run[..i]), run[i])
            && Contains(n.log, Committed(After(s, run[..i]), run[i])) && Contains(k.log, Committed(After(s, run[..i]), run[i]))
  {
    hide After, React, Contains, EndsIn, Stale, Sound, LeadersKeep, RequestsReach, GoodRun, LeaderCommits,
         Committed, Initial, OneLeader;
    GoodAt(s, run, j, cluster);
    CommitSecures(s, run, i, j, cluster);
    var u, c := After(s, run[..j]), run[j];
    EventsOutside(u, c);
    StepRole(u.nodes[Target(c)], EventFor(c), c.now);
    HolderKeeps(u, c, After(s, run[..i]).nodes[Target(run[i])].currentTerm, Committed(After(s, run[..i]), run[i]));
  }

  // ----- the invariant -----

  /** What a node holds after it has taken a routine request. */
  lemma TakesView(s: System, c: Choice)
    requires Sound(s) && Enabled(s, c) && c.Deliver? && c.packet.AppendPacket? && c.packet.routine
    requires Takes(s.nodes[Target(c)], c.packet.append)
    ensures var k := React(s.nodes[Target(c)], EventFor(c), c.now).node;
            && AgreeUpTo(c.packet.view, k.log, |c.packet.view|) && k.currentTerm == c.packet.append.term
            && c.packet.append.prevIndex + 1 + |c.packet.append.entries| == |c.packet.view|
  {
    hide React, Takes, Rooted, Quotes, NewLog, AllOrdered, HistoryHolds, Candidacies;
    var n := s.nodes[Target(c)];
    var m := c.packet.append;
    var logs := s.hist.leaderLog;
    AppendTaken(n, m, c.now);
    assert PacketMatched(c.packet, logs);
    TakenAgrees(n.log, m, logs);
    AgreeAcross(c.packet.view, logs[m.term], NewLog(n.log, m), React(n, EventFor(c), c.now).node.log);
  }

  lemma AgreeAcross(a: seq<LogEntry>, b: seq<LogEntry>, c: seq<LogEntry>, d: seq<LogEntry>)
    requires AgreeUpTo(a, b, |a|) && AgreeUpTo(c, b, |a|) && SameLog(c, d)
    ensures AgreeUpTo(a, d, |a|)
  {
  }

  /** A follower raises its commit index only to what a routine request announces. */
  lemma FollowerRaises(s: System, run: seq<Choice>, j: nat, cluster: set<Address>)
    requires GoodRun(s, run, cluster) && j < |run| && PacketsBacked(s, run, j)
    requires Enabled(After(s, run[..j]), run[j]) && !run[j].Reboot? && EventFor(run[j]).AppendEntries?
    requires var n := After(s, run[..j]).nodes[Target(run[j])]; var k := React(n, EventFor(run[j]), run[j].now).node;
             !n.halted && !k.halted && k.commitIndex != n.commitIndex && n.commitIndex >= -1
    ensures var n := After(s, run[..j]).nodes[Target(run[j])]; var k := React(n, EventFor(run[j]), run[j].now).node;
            k.commitIndex > n.commitIndex && Backed(s, run, j, k.commitIndex, k.currentTerm, k.log)
  {
    hide After, React, Takes, Stored, Rewind, GoodRun, Backs, Stale, Initial, OneLeader, AllOrdered,
         HistoryHolds, Candidacies, Matched, OpeningTrue, Accepts, EntryFor, AgreeUpTo, SameLog;
    GoodAt(s, run, j, cluster);
    GoodLeads(s, run, cluster);
    OpeningsAlways(s, run, j);
    var u, c := After(s, run[..j]), run[j];
    var n := u.nodes[Target(c)];
    var m := EventFor(c).append;
    var k := React(n, EventFor(c), c.now).node;
    TakenPacket(u, c);
    var q := c.packet;
    if Takes(n, m) {
      FollowerApplies(n, m, c.now);
      AppendTaken(n, m, c.now);
      if q.routine {
        TakesView(u, c);
        BackedMore(s, run, j, m.commit, m.term, q.view, k.currentTerm, k.log);
      } else {
        RootedTarget(u, Target(c));
        OpeningRefused(n.log, q, u.hist.leaderLog);
      }
    } else {
      NotTakenKeep(n, m, c.now);
    }
  }

  lemma RootedTarget(s: System, a: Address)
    requires Matched(s) && a in s.nodes
    ensures Rooted(s.nodes[a].log, s.hist.leaderLog)
  {
    hide Rooted, PacketMatched;
  }

  /** What `n` has committed `k` holds, too. Entry 0 may have become another no-operation entry
      as long as it is all that is committed. */
  ghost predicate StillCommitted(n: NodeState, k: NodeState) {
    && n.commitIndex < |k.log|
    && AlikeUpTo(n.log, k.log, n.commitIndex + 1)
    && (n.commitIndex >= 1 ==> AgreeUpTo(n.log, k.log, n.commitIndex + 1))
  }

  lemma TargetBacked(s: System, run: seq<Choice>, j: nat, cluster: set<Address>)
    requires GoodRun(s, run, cluster) && j < |run| && NodesBacked(s, run, j) && PacketsBacked(s, run, j)
    requires Enabled(After(s, run[..j]), run[j]) && !run[j].Reboot?
    ensures var n := After(s, run[..j]).nodes[Target(run[j])]; var k := React(n, EventFor(run[j]), run[j].now).node;
            !k.halted ==>
              && !n.halted && -1 <= n.commitIndex <= k.commitIndex < |k.log|
              && StillCommitted(n, k)
              && Backed(s, run, j + 1, k.commitIndex, k.currentTerm, k.log)
  {
    hide After, React, GoodRun, Backs, LeaderCommits, Initial, Committed, StillCommitted;
    var u, c := After(s, run[..j]), run[j];
    var n := u.nodes[Target(c)];
    var ev := EventFor(c);
    var k := React(n, ev, c.now).node;
    GoodStart(s, run, cluster);
    EventsOutside(u, c);
    if n.halted { DeadStep(n, ev, c.now); }
    if !k.halted {
      BoundsAlways(s, run[..j], Target(c));
      StillBacked(s, run, j, cluster);
      if ev.AppendEntries? && k.commitIndex != n.commitIndex {
        FollowerRaises(s, run, j, cluster);
        BackedLater(s, run, j, j + 1, k.commitIndex, k.currentTerm, k.log);
      } else if !ev.AppendEntries? && n.role.Leader? && Applies(n, ev) {
        LeaderRaises(s, run, j, cluster);
      } else if !ev.AppendEntries? {
        OthersKeep(n, ev, c.now);
      }
    }
  }

  lemma GoodStart(s: System, run: seq<Choice>, cluster: set<Address>)
    requires GoodRun(s, run, cluster)
    ensures Initial(s)
  {
    hide Initial, CleanRun, NoneStale, AllHonest;
    CleanRunStarts(s, run, cluster);
  }

  /** What a node has committed before a step it still holds, and is backed in, after it. */
  lemma StillBacked(s: System, run: seq<Choice>, j: nat, cluster: set<Address>)
    requires GoodRun(s, run, cluster) && j < |run| && NodesBacked(s, run, j)
    requires Enabled(After(s, run[..j]), run[j]) && !run[j].Reboot?
    requires var n := After(s, run[..j]).nodes[Target(run[j])]; !n.halted && n.commitIndex >= -1
    ensures var n := After(s, run[..j]).nodes[Target(run[j])]; var k := React(n, EventFor(run[j]), run[j].now).node;
            StillCommitted(n, k) && Backed(s, run, j + 1, n.commitIndex, k.currentTerm, k.log)
  {
    hide After, React, GoodRun, Backs, LeaderCommits, Committed;
    var u, c := After(s, run[..j]), run[j];
    var n := u.nodes[Target(c)];
    var k := React(n, EventFor(c), c.now).node;
    assert Backed(s, run, j, n.commitIndex, n.currentTerm, n.log);
    if n.commitIndex >= 1 {
      var i :| 0 <= i < j && Backs(s, run, i, n.commitIndex, n.currentTerm, n.log);
      BackingStays(s, run, i, j, cluster);
      CommitStep(After(s, run[..i]), run[i]);
      var p := Committed(After(s, run[..i]), run[i]);
      BacksReach(s, run, i, n.commitIndex, n.currentTerm, n.log);
      BothHold(n.log, k.log, p, n.commitIndex + 1);
      assert Backed(s, run, j + 1, n.commitIndex, k.currentTerm, k.log);
    } else if n.commitIndex == 0 {
      FirstEntryStays(s, run, j, cluster);
    }
  }

  /** A log that has an entry keeps one, and its first is a no-operation entry. */
  lemma FirstEntryStays(s: System, run: seq<Choice>, j: nat, cluster: set<Address>)
    requires GoodRun(s, run, cluster) && j < |run|
    requires Enabled(After(s, run[..j]), run[j]) && !run[j].Reboot?
    requires var n := After(s, run[..j]).nodes[Target(run[j])]; !n.halted && |n.log| > 0
    ensures var n := After(s, run[..j]).nodes[Target(run[j])]; var k := React(n, EventFor(run[j]), run[j].now).node;
            |k.log| > 0 && IsNoOp(n.log[0]) && IsNoOp(k.log[0])
  {
    hide After, React, GoodRun, Initial, IsNoOp, Stale, Sound, OneLeader, Next, EffectOf;
    var u, c := After(s, run[..j]), run[j];
    GoodLeads(s, run, cluster);
    GoodAt(s, run, j, cluster);
    FirstEntryIdle(s, run, j, Target(c));
    SameKeys(u, c);
    assert Target(c) in After(s, run[..j + 1]).nodes.Keys;
    FirstEntryIdle(s, run, j + 1, Target(c));
    StepOf(u, c);
    Effect(u.nodes[Target(c)], EventFor(c), c.now);
    NeverEmptied(u.nodes[Target(c)], EventFor(c), React(u.nodes[Target(c)], EventFor(c), c.now).node);
  }

  lemma NeverEmptied(n: NodeState, ev: Event, k: NodeState)
    requires EffectHolds(n, ev, k) && |n.log| > 0
    ensures |k.log| > 0
  {
  }

  lemma BacksReach(s: System, run: seq<Choice>, i: nat, c: int, term: int, log: seq<LogEntry>)
    requires i < |run| && Backs(s, run, i, c, term, log)
    ensures LeaderCommits(After(s, run[..i]), run[i])
    ensures Enabled(After(s, run[..i]), run[i]) && !run[i].Reboot? && c < |Committed(After(s, run[..i]), run[i])|
  {
    hide After, LeaderCommits, Committed;
    CommitStep(After(s, run[..i]), run[i]);
  }

  lemma BothHold(a: seq<LogEntry>, b: seq<LogEntry>, p: seq<LogEntry>, k: nat)
    requires Contains(a, p) && Contains(b, p) && k <= |p|
    ensures k <= |b| && AgreeUpTo(a, b, k)
  {
  }

  /** A leader that raises its commit index backs it itself. */
  lemma LeaderRaises(s: System, run: seq<Choice>, j: nat, cluster: set<Address>)
    requires GoodRun(s, run, cluster) && j < |run| && NodesBacked(s, run, j)
    requires Enabled(After(s, run[..j]), run[j]) && !run[j].Reboot?
    requires var n := After(s, run[..j]).nodes[Target(run[j])]; var k := React(n, EventFor(run[j]), run[j].now).node;
             !n.halted && !k.halted && n.role.Leader? && Applies(n, EventFor(run[j]))
    ensures var n := After(s, run[..j]).nodes[Target(run[j])]; var k := React(n, EventFor(run[j]), run[j].now).node;
            && -1 <= n.commitIndex <= k.commitIndex < |k.log|
            && Backed(s, run, j + 1, k.commitIndex, k.currentTerm, k.log)
  {
    hide After, React, GoodRun, Backs, Initial, Implement, NewCommit, AdvanceList, Committable;
    var u, c := After(s, run[..j]), run[j];
    var n := u.nodes[Target(c)];
    var ev := EventFor(c);
    var k := React(n, ev, c.now).node;
    GoodStart(s, run, cluster);
    BoundsAlways(s, run[..j], Target(c));
    AppendReplyOutcome(n, ev.ack, c.now);
    AcknowledgedRun(n, ev.ack, Acknowledged(n, ev.ack), c.now);
    CommitMoves(n, ev, c.now);
    StillBacked(s, run, j, cluster);
    if k.commitIndex > n.commitIndex {
      OwnCommit(s, run, j, n, k);
    }
  }

  lemma OwnCommit(s: System, run: seq<Choice>, j: nat, n: NodeState, k: NodeState)
    requires j < |run| && LeaderCommits(After(s, run[..j]), run[j])
    requires n == After(s, run[..j]).nodes[Target(run[j])] && k == React(n, EventFor(run[j]), run[j].now).node
    requires 0 <= k.commitIndex < |n.log| && SameLog(n.log, k.log) && k.currentTerm == n.currentTerm
    ensures Backed(s, run, j + 1, k.commitIndex, k.currentTerm, k.log)
  {
    hide After, React, LeaderCommits;
    CommitStep(After(s, run[..j]), run[j]);
    assert Backs(s, run, j, k.commitIndex, k.currentTerm, k.log);
  }

  lemma NextNodesBacked(s: System, run: seq<Choice>, j: nat, cluster: set<Address>)
    requires GoodRun(s, run, cluster) && j < |run| && NodesBacked(s, run, j) && PacketsBacked(s, run, j)
    ensures NodesBacked(s, run, j + 1)
  {
    hide After, Next, React, GoodRun, Backed, Restart, Sound, OneLeader, Stale, Initial;
    GoodAt(s, run, j, cluster);
    var u, c := After(s, run[..j]), run[j];
    var v := Next(u, c);
    forall a | a in v.nodes && !v.nodes[a].halted
      ensures Backed(s, run, j + 1, v.nodes[a].commitIndex, v.nodes[a].currentTerm, v.nodes[a].log)
    {
      SameKeys(u, c);
      if !Enabled(u, c) || a != Target(c) {
        UntouchedNode(u, c, a);
        BackedLater(s, run, j, j + 1, u.nodes[a].commitIndex, u.nodes[a].currentTerm, u.nodes[a].log);
      } else if c.Reboot? {
        RebootedNode(u, c);
        BackedNone(s, run, j + 1, v.nodes[a].currentTerm, v.nodes[a].log);
      } else {
        StepOf(u, c);
        TargetBacked(s, run, j, cluster);
      }
    }
  }

  lemma RebootedNode(s: System, c: Choice)
    requires Enabled(s, c) && c.Reboot?
    ensures var k := Next(s, c).nodes[Target(c)]; k.commitIndex == -1 && k.lastApplied == -1 && k.database == map[] && !k.halted
  {
    hide Restart;
    RestartOutcome(s.nodes[c.node], c.lastHeard, c.now);
  }

  lemma BackedNone(s: System, run: seq<Choice>, j: nat, term: int, log: seq<LogEntry>)
    requires j <= |run|
    ensures Backed(s, run, j, -1, term, log)
  {
    hide Backs;
  }

  lemma NextPacketsBacked(s: System, run: seq<Choice>, j: nat, cluster: set<Address>)
    requires GoodRun(s, run, cluster) && j < |run| && NodesBacked(s, run, j) && PacketsBacked(s, run, j)
    ensures PacketsBacked(s, run, j + 1)
  {
    hide After, Next, React, GoodRun, Backed, Sound, OneLeader, Stale, Initial, OpeningTrue, Spoken;
    GoodAt(s, run, j, cluster);
    GoodAt(s, run, j + 1, cluster);
    var u, c := After(s, run[..j]), run[j];
    NetAndGrants(u, c);
    forall q | q in Next(u, c).net && q.AppendPacket?
      ensures Backed(s, run, j + 1, q.append.commit, q.append.term, Spoken(q))
    {
      if q !in u.net { NewOpening(u, c, q); }
      BackedLater(s, run, j, j + 1, q.append.commit, q.append.term, Spoken(q));
    }
  }

  lemma {:induction false} AllBacked(s: System, run: seq<Choice>, j: nat, cluster: set<Address>)
    requires GoodRun(s, run, cluster) && j <= |run|
    ensures NodesBacked(s, run, j) && PacketsBacked(s, run, j)
    decreases j
  {
    hide After, Next, GoodRun, Backed, NodesBacked, PacketsBacked, Initial;
    if j == 0 {
      GoodStart(s, run, cluster);
      assert run[..0] == [];
      AfterNone(s);
      FreshBacked(s, run);
    } else {
      AllBacked(s, run, j - 1, cluster);
      NextNodesBacked(s, run, j - 1, cluster);
      NextPacketsBacked(s, run, j - 1, cluster);
    }
  }

  lemma FreshBacked(s: System, run: seq<Choice>)
    requires Initial(s) && After(s, run[..0]) == s
    ensures NodesBacked(s, run, 0) && PacketsBacked(s, run, 0)
  {
    hide After, Restart;
    forall a | a in s.nodes ensures s.nodes[a].commitIndex == -1 {
      RestartOutcome(Blank(a, s.nodes[a].peers, s.nodes[a].minElectionTimeout), s.nodes[a].leaderLastHeard, 0);
    }
  }

  // ----- State Machine Safety -----

  /** In what both have committed, two nodes hold entries that do the same; and the very same
      entries once both have committed past entry 0. */
  ghost predicate AgreeOnCommitted(n: NodeState, k: NodeState) {
    forall x :: 0 <= x <= n.commitIndex && x <= k.commitIndex ==>
      && x < |n.log| && x < |k.log| && Alike(n.log[x], k.log[x])
      && (n.commitIndex >= 1 && k.commitIndex >= 1 ==> Same(n.log[x], k.log[x]))
  }

  /** No two nodes, at whatever times, differ in anything both have committed. */
  lemma StateMachineSafety(s: System, run: seq<Choice>, i: nat, a: Address, j: nat, b: Address, cluster: set<Address>)
    requires GoodRun(s, run, cluster) && i <= |run| && j <= |run|
    requires a in After(s, run[..i]).nodes && !After(s, run[..i]).nodes[a].halted
    requires b in After(s, run[..j]).nodes && !After(s, run[..j]).nodes[b].halted
    ensures AgreeOnCommitted(After(s, run[..i]).nodes[a], After(s, run[..j]).nodes[b])
  {
    hide After, GoodRun, Backs, LeaderCommits, Committed, Initial, OneLeader;
    AllBacked(s, run, i, cluster);
    AllBacked(s, run, j, cluster);
    var n, k := After(s, run[..i]).nodes[a], After(s, run[..j]).nodes[b];
    if n.commitIndex >= 1 && k.commitIndex >= 1 {
      var x :| 0 <= x < i && Backs(s, run, x, n.commitIndex, n.currentTerm, n.log);
      var y :| 0 <= y < j && Backs(s, run, y, k.commitIndex, k.currentTerm, k.log);
      BackersAgree(s, run, x, y, n, k, cluster);
    } else {
      GoodLeads(s, run, cluster);
      FirstEntryIdle(s, run, i, a);
      FirstEntryIdle(s, run, j, b);
    }
  }

  lemma BackersAgree(s: System, run: seq<Choice>, x: nat, y: nat, n: NodeState, k: NodeState, cluster: set<Address>)
    requires GoodRun(s, run, cluster) && x < |run| && y < |run| && n.commitIndex >= 1 && k.commitIndex >= 1
    requires Backs(s, run, x, n.commitIndex, n.currentTerm, n.log) && Backs(s, run, y, k.commitIndex, k.currentTerm, k.log)
    ensures AgreeOnCommitted(n, k)
  {
    hide After, LeaderCommits, Committed, CleanRun, NoneStale, HonestlyCounted, GoodRun;
    HonestAt(s, run, x, cluster);
    HonestAt(s, run, y, cluster);
    CommitsAgree(s, run, x, y, cluster);
    PrefixesAgree(n.log, Committed(After(s, run[..x]), run[x]), k.log, Committed(After(s, run[..y]), run[y]), n.commitIndex, k.commitIndex);
  }

  lemma PrefixesAgree(a: seq<LogEntry>, p: seq<LogEntry>, b: seq<LogEntry>, q: seq<LogEntry>, c: int, d: int)
    requires Contains(a, p) && Contains(b, q) && c < |p| && d < |q|
    requires if |p| <= |q| then Contains(q, p) else Contains(p, q)
    ensures forall z :: 0 <= z <= c && z <= d ==> z < |a| && z < |b| && Same(a[z], b[z])
  {
  }

  /** Nothing committed is ever overwritten: every step of a living node but a restart keeps
      what the committed prefix does - and, past entry 0, the committed prefix itself - never
      lowers the commit index, and keeps it within the log. */
  lemma CommittedIsFinal(s: System, run: seq<Choice>, j: nat, cluster: set<Address>)
    requires GoodRun(s, run, cluster) && j < |run| && Enabled(After(s, run[..j]), run[j]) && !run[j].Reboot?
    requires Target(run[j]) in After(s, run[..j + 1]).nodes && !After(s, run[..j + 1]).nodes[Target(run[j])].halted
    ensures var n, k := After(s, run[..j]).nodes[Target(run[j])], After(s, run[..j + 1]).nodes[Target(run[j])];
            && !n.halted && n.commitIndex >= -1 && Settled(n, k)
            && (n.commitIndex >= 1 ==> AgreeUpTo(n.log, k.log, n.commitIndex + 1))
  {
    hide After, Next, React, GoodRun, NodesBacked, PacketsBacked, Sound, OneLeader, Stale, Initial;
    GoodAt(s, run, j, cluster);
    AllBacked(s, run, j, cluster);
    StepOf(After(s, run[..j]), run[j]);
    TargetBacked(s, run, j, cluster);
  }

  // ----- the databases -----

  lemma NextConverges(s: System, run: seq<Choice>, j: nat, cluster: set<Address>, a: Address)
    requires GoodRun(s, run, cluster) && j < |run|
    requires a in After(s, run[..j]).nodes && a in After(s, run[..j + 1]).nodes && !After(s, run[..j + 1]).nodes[a].halted
    requires !After(s, run[..j]).nodes[a].halted ==> Converging(After(s, run[..j]).nodes[a])
    ensures Converging(After(s, run[..j + 1]).nodes[a])
  {
    hide After, Next, React, GoodRun, Converging, Sound, OneLeader, Stale, Initial, Settled;
    GoodAt(s, run, j, cluster);
    var u, c := After(s, run[..j]), run[j];
    if !Enabled(u, c) || a != Target(c) {
      UntouchedNode(u, c, a);
    } else if c.Reboot? {
      RebootedNode(u, c);
      FreshConverges(Next(u, c).nodes[a]);
    } else {
      CommittedIsFinal(s, run, j, cluster);
      StepOf(u, c);
      EventsOutside(u, c);
      StepConverges(u.nodes[a], EventFor(c), c.now);
    }
  }

  /** In every state of such a run every living node's database is what its applied prefix
      stands for, except on keys written by committed entries it has not applied yet. */
  lemma {:induction false} ConvergesAlways(s: System, run: seq<Choice>, j: nat, cluster: set<Address>, a: Address)
    requires GoodRun(s, run, cluster) && j <= |run| && a in After(s, run[..j]).nodes && !After(s, run[..j]).nodes[a].halted
    ensures Converging(After(s, run[..j]).nodes[a])
    decreases j
  {
    hide After, Next, GoodRun, Converging, Sound, OneLeader, Stale, Initial;
    if j == 0 {
      GoodStart(s, run, cluster);
      assert run[..0] == [];
      AfterNone(s);
      FirstConverges(s, a);
    } else {
      GoodAt(s, run, j - 1, cluster);
      SameKeys(After(s, run[..j - 1]), run[j - 1]);
      assert a in After(s, run[..j]).nodes.Keys;
      if !After(s, run[..j - 1]).nodes[a].halted { ConvergesAlways(s, run, j - 1, cluster, a); }
      NextConverges(s, run, j - 1, cluster, a);
    }
  }

  lemma FirstConverges(s: System, a: Address)
    requires Initial(s) && a in s.nodes
    ensures Converging(s.nodes[a])
  {
    hide Restart, Converging;
    RestartOutcome(Blank(a, s.nodes[a].peers, s.nodes[a].minElectionTimeout), s.nodes[a].leaderLastHeard, 0);
    FreshConverges(s.nodes[a]);
  }

  /** A leader that applies has, afterwards, exactly the database its log stands for up to its
      last-applied index. */
  lemma LeaderDatabaseInRuns(s: System, run: seq<Choice>, j: nat, cluster: set<Address>)
    requires GoodRun(s, run, cluster) && j < |run| && Enabled(After(s, run[..j]), run[j]) && !run[j].Reboot?
    requires Applies(After(s, run[..j]).nodes[Target(run[j])], EventFor(run[j]))
    requires Target(run[j]) in After(s, run[..j + 1]).nodes && !After(s, run[..j + 1]).nodes[Target(run[j])].halted
    ensures var k := After(s, run[..j + 1]).nodes[Target(run[j])];
            -1 <= k.lastApplied == k.commitIndex < |k.log| && k.database == Meaning(k)
  {
    hide After, Next, React, GoodRun, Converging, Sound, OneLeader, Stale, Initial, Settled, Meaning, Applies;
    GoodAt(s, run, j, cluster);
    var u, c := After(s, run[..j]), run[j];
    CommittedIsFinal(s, run, j, cluster);
    ConvergesAlways(s, run, j, cluster, Target(c));
    StepOf(u, c);
    EventsOutside(u, c);
    StepConverges(u.nodes[Target(c)], EventFor(c), c.now);
    ConvergingBounds(After(s, run[..j + 1]).nodes[Target(c)]);
  }
}
