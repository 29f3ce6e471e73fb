/** Membership changes over runs: what a leadership with two changes records, and when all
    that is recorded is right. */
module Reconfiguration {
  import opened Types
  import opened Rules
  import opened Interpreter
  import opened Reactions
  import opened Effects
  import opened Network
  import opened NodeRuns
  import opened Leadership
  import opened LogMatching
  import opened Config
  import opened Elections
  import opened Commitment

  // ----- two changes in one leadership -----

  /** Step `i` carries out a membership change. */
  predicate Changes(n: NodeState, steps: seq<NodeStep>, i: nat)
    requires i < |steps|
  {
    steps[i].Happens? && ChangesCluster(At(n, steps, i), steps[i].event)
  }

  /** A leader that stays leader keeps its change index and, results aside, its log. */
  lemma LeaderKeepsRecord(n: NodeState, ev: Event, now: int)
    requires !n.halted && n.role.Leader? && !ev.StateChanged? && React(n, ev, now).node.role.Leader?
    ensures var k := React(n, ev, now).node;
            k.changeIndex == n.changeIndex && |n.log| <= |k.log| && AgreeUpTo(n.log, k.log, |n.log|)
  {
    hide React, EffectOf, ChangesCluster;
    var k := React(n, ev, now).node;
    if ev.AppendEntries? {
      LeaderKeepsRole(n, ev.append, now);
    } else {
      OtherConfig(n, ev, now);
      Effect(n, ev, now);
      NotReplaced(n, ev);
      GrownAgrees(n, ev, k);
    }
  }

  lemma {:induction false} LeadershipKeepsRecord(n: NodeState, steps: seq<NodeStep>, i: nat, j: nat)
    requires External(steps) && StaysLeader(n, steps) && i <= j <= |steps|
    ensures var a, b := At(n, steps, i), At(n, steps, j);
            b.changeIndex == a.changeIndex && |a.log| <= |b.log| && AgreeUpTo(a.log, b.log, |a.log|)
    decreases j
  {
    hide React;
    if i < j {
      LeadershipKeepsRecord(n, steps, i, j - 1);
      var m := At(n, steps, j - 1);
      assert At(n, steps, j) == NodeNext(m, steps[j - 1]);
      LeaderKeepsRecord(m, steps[j - 1].event, steps[j - 1].now);
    }
  }

  /** A change is appended, recording an earlier index than where it lands. */
  lemma ChangeLands(n: NodeState, ev: Event, now: int)
    requires ChangesCluster(n, ev)
    ensures ev.AddServer? || ev.RemoveServer?
    ensures var k := React(n, ev, now).node; var e := Changed(n, ev).1;
            && k.log == n.log + [e] && IsClusterChange(e) && RecordOf(e.payload).oldIndex == n.changeIndex
            && n.changeIndex < |n.log|
  {
    hide React, Changed, Excluded;
    OtherConfig(n, ev, now);
    ChangedEntry(n, ev);
    ChangeOutcome(n, ev, now);
  }

  /** A leader that carries out two changes without losing office records the second one
      wrongly: it names the configuration before the first. That stays in its log. */
  lemma SecondChangeMisrecorded(n: NodeState, steps: seq<NodeStep>, i: nat, j: nat, k: nat, base: set<Address>)
    requires External(steps) && StaysLeader(n, steps) && i < j < k <= |steps|
    requires Changes(n, steps, i) && Changes(n, steps, j)
    ensures !Chained(At(n, steps, k).log, base)
  {
    hide React, ChangesCluster, Changed, Chained, AgreeUpTo;
    var a, b, z := At(n, steps, i), At(n, steps, j), At(n, steps, k);
    assert At(n, steps, i + 1) == NodeNext(a, steps[i]) && At(n, steps, j + 1) == NodeNext(b, steps[j]);
    ChangeLands(a, steps[i].event, steps[i].now);
    ChangeLands(b, steps[j].event, steps[j].now);
    LeadershipKeepsRecord(n, steps, i, j);
    LeadershipKeepsRecord(n, steps, i + 1, j);
    LeadershipKeepsRecord(n, steps, j + 1, k);
    Misrecorded(a.log, Changed(a, steps[i].event).1, b.log, Changed(b, steps[j].event).1, z.log, base);
  }

  /** A change `f` that follows on a log with change `e` but points before it. */
  lemma Misrecorded(a: seq<LogEntry>, e: LogEntry, b: seq<LogEntry>, f: LogEntry, z: seq<LogEntry>, base: set<Address>)
    requires IsClusterChange(e) && AgreeUpTo(a + [e], b, |a| + 1)
    requires IsClusterChange(f) && RecordOf(f.payload).oldIndex < |a| && AgreeUpTo(b + [f], z, |b| + 1)
    ensures !Chained(z, base)
  {
    var p, q := |a|, |b|;
    assert Same((a + [e])[p], b[p]) && Same((b + [f])[p], z[p]) && Same((b + [f])[q], z[q]);
    assert z[..q][p] == z[p];
    assert LastChange(z[..q]) >= p;
  }

  /** Something of the leader's own term is committed, so that it may start a change. */
  lemma MayChangeStays(n: NodeState, ev: Event, now: int)
    requires !n.halted && n.role.Leader? && !ev.StateChanged? && n.lastApplied >= -1 && MayChange(n)
    requires var k := React(n, ev, now).node; !k.halted && k.role.Leader?
    ensures MayChange(React(n, ev, now).node) && React(n, ev, now).node.lastApplied >= -1
  {
    hide React, EffectOf, ChangesCluster, Committable;
    var k := React(n, ev, now).node;
    LeaderKeepsRecord(n, ev, now);
    CommitMoves(n, ev, now);
    Effect(n, ev, now);
    if k.commitIndex != n.commitIndex { CommittableTerm(n, ev.ack.address, k.commitIndex); }
    assert Same(n.log[k.commitIndex], k.log[k.commitIndex]);
  }

  lemma CommittableTerm(n: NodeState, r: Address, at: int)
    requires Committable(n, r, at)
    ensures 0 <= at < |n.log| && n.log[at].term == n.currentTerm
  {
  }

  /** A leadership that may start a change may start another at any later moment: its own
      change, committed or not, is never what a second one has to wait for. */
  lemma {:induction false} ChangesNeverWait(n: NodeState, steps: seq<NodeStep>, i: nat, j: nat)
    requires External(steps) && StaysLeader(n, steps) && i <= j <= |steps|
    requires MayChange(At(n, steps, i)) && At(n, steps, i).lastApplied >= -1
    ensures MayChange(At(n, steps, j)) && At(n, steps, j).lastApplied >= -1
    decreases j
  {
    hide React, MayChange;
    if i < j {
      ChangesNeverWait(n, steps, i, j - 1);
      assert At(n, steps, j) == NodeNext(At(n, steps, j - 1), steps[j - 1]);
      MayChangeStays(At(n, steps, j - 1), steps[j - 1].event, steps[j - 1].now);
    }
  }

  // ----- a leader's own change, cut off -----

  /** The search in a log that goes on past what the status knows of finds the configuration
      of the cut all the same, if it has to look before the status. */
  lemma CutFinds(k: NodeState, log: seq<LogEntry>, prev: int, base: set<Address>)
    requires log <= k.log && Chained(log, base) && -1 <= prev < k.changeIndex == LastChange(log)
    ensures var r := Rewind(k.log, prev, Recorded(k)); var cut := k.log[..prev + 1];
            && r.Rewound? && r.moved && r.index == LastChange(cut) && r.term == ChangeTermOf(cut)
            && SetOf(r.cluster) - {k.address} == ConfigOf(cut, base) - {k.address}
  {
    hide LastChange, ConfigOf, ChangeTermOf, SetOf, Describes;
    var i := k.changeIndex;
    var r := RecordOf(log[i].payload);
    LastIsChange(log, |log|);
    assert log[..|log|] == log && k.log[..i] == log[..i] && k.log[i] == log[i];
    DescribedAt(log, i, base);
    ChainedPrefix(log, i, base);
    FirstStep(k, prev);
    SearchFinds(k.log, prev, Rewound(r.oldIndex, r.oldTerm, r.oldCluster, true), {i}, i, base, k.address);
  }

  lemma FirstStep(k: NodeState, prev: int)
    requires prev < k.changeIndex && 0 <= k.changeIndex < |k.log|
    ensures var r := RecordOf(k.log[k.changeIndex].payload);
            Rewind(k.log, prev, Recorded(k)) == Search(k.log, prev, Rewound(r.oldIndex, r.oldTerm, r.oldCluster, true), {k.changeIndex})
  {
    assert {} + {k.changeIndex} == {k.changeIndex};
  }

  /** What a node stores of a request that cuts its log back into `log`, when its status
      points at the last change of `log` but its peers may be others. */
  lemma CutStored(k: NodeState, log: seq<LogEntry>, m: AppendRequest, now: int, base: set<Address>)
    requires log <= k.log && Chained(log, base) && k.changeIndex == LastChange(log) && k.changeTerm == ChangeTermOf(log)
    requires |m.entries| > 0 && -1 <= m.prevIndex < |log|
    ensures Rewind(k.log, m.prevIndex, Recorded(k)).Rewound?
    ensures var z := Stored(k, m, now);
            && (k.changeIndex <= m.prevIndex && LastChange(m.entries) < 0 ==> z.peers == k.peers && z.changeIndex == k.changeIndex)
            && (Tracks(z, base) <==>
                 || m.prevIndex < k.changeIndex || LastChange(m.entries) >= 0
                 || SetOf(k.peers) - {k.address} == ConfigOf(log, base) - {k.address})
  {
    hide Rewind, LastChange, Others, ConfigOf, ChangeTermOf, Describes, Stored, SetOf, Chained;
    var cut := k.log[..m.prevIndex + 1];
    assert cut == log[..m.prevIndex + 1];
    if m.prevIndex < k.changeIndex {
      CutFinds(k, log, m.prevIndex, base);
      OthersSet(Rewind(k.log, m.prevIndex, Recorded(k)).cluster, k.address);
    } else {
      PrefixConfig(log, m.prevIndex + 1, base);
      NoSearch(k, m.prevIndex);
    }
    StoredConfig(k, m, now);
    SpliceConfig(cut, m.entries, base);
    var c := LastChange(m.entries);
    if c >= 0 { OthersSet(RecordOf(m.entries[c].payload).newCluster, k.address); }
  }

  lemma NoSearch(k: NodeState, prev: int)
    requires k.changeIndex <= prev
    ensures Rewind(k.log, prev, Recorded(k)) == Recorded(k)
  {
  }

  /** A request that brings a change puts any node that takes it right, whatever it held. */
  lemma BroughtChangeTracks(n: NodeState, m: AppendRequest, now: int, base: set<Address>)
    requires Takes(n, m) && LastChange(m.entries) >= 0
    ensures Tracks(React(n, AppendEntries(m), now).node, base)
  {
    hide React, LastChange, ConfigOf, ChangeTermOf, Takes, Rewind, Stored, Others, Receiver, SetOf;
    var f := Receiver(n, m.term);
    TakenConfig(n, m, now);
    StoredConfig(f, m, now);
    SpliceConfig(f.log[..m.prevIndex + 1], m.entries, base);
    OthersSet(RecordOf(m.entries[LastChange(m.entries)].payload).newCluster, f.address);
    TracksSame(Stored(f, m, now), React(n, AppendEntries(m), now).node, base);
  }

  /** The step takes no request that cuts into the first `len` entries or brings a change. */
  predicate LeavesBe(n: NodeState, st: NodeStep, len: nat) {
    st.Happens? && st.event.AppendEntries? && EffectOf(n, st.event).Replaced? ==>
      len <= st.event.append.prevIndex + 1 && LastChange(st.event.append.entries) < 0
  }

  ghost predicate Undisturbed(n: NodeState, steps: seq<NodeStep>, len: nat) {
    forall i :: 0 <= i < |steps| ==> LeavesBe(At(n, steps, i), steps[i], len)
  }

  /** The first `len` entries are still there, and the status names the same change. */
  ghost predicate Stands(n: NodeState, k: NodeState, len: nat) {
    && AgreeUpTo(n.log, k.log, len)
    && k.changeIndex == n.changeIndex && k.changeTerm == n.changeTerm && k.address == n.address
  }

  lemma AppendStands(n: NodeState, m: AppendRequest, now: int, len: nat)
    requires !n.halted && n.changeIndex < len <= |n.log|
    requires Takes(n, m) && |m.entries| > 0 ==> len <= m.prevIndex + 1 && LastChange(m.entries) < 0
    ensures Stands(n, React(n, AppendEntries(m), now).node, len)
  {
    hide React, Takes, Rewind, Stored, Receiver, LastChange;
    SameLogSelf(n.log);
    if !Takes(n, m) {
      UntakenConfig(n, m, now);
    } else {
      var f := Receiver(n, m.term);
      TakenConfig(n, m, now);
      AppendTaken(n, m, now);
      var k := React(n, AppendEntries(m), now).node;
      if |m.entries| == 0 {
        HeardConfig(f, m, now);
      } else {
        NoSearch(f, m.prevIndex);
        StoredConfig(f, m, now);
        assert forall i :: 0 <= i < len ==> NewLog(n.log, m)[i] == n.log[i];
      }
    }
  }

  lemma StepStands(n: NodeState, st: NodeStep, len: nat)
    requires st.Happens? ==> !st.event.StateChanged?
    requires n.changeIndex < len <= |n.log| && LeavesBe(n, st, len)
    ensures Stands(n, NodeNext(n, st), len)
  {
    hide React, Restart, Changed, ChangesCluster, LastChange, Takes, Wins;
    match st
    case Restarts(lastHeard, now) => RestartOutcome(n, lastHeard, now);
    case Happens(ev, now) =>
      var k := React(n, ev, now).node;
      if n.halted {
        DeadStep(n, ev, now);
      } else if ev.AppendEntries? {
        AppendStands(n, ev.append, now, len);
      } else {
        OtherConfig(n, ev, now);
        Effect(n, ev, now);
        NotReplaced(n, ev);
        assert EffectOf(n, ev).Grown? ==> forall i :: 0 <= i < |n.log| ==> k.log[i] == n.log[i];
      }
  }

  lemma {:induction false} StretchStands(n: NodeState, steps: seq<NodeStep>, i: nat, len: nat)
    requires External(steps) && Undisturbed(n, steps, len) && i <= |steps| && n.changeIndex < len <= |n.log|
    ensures Stands(n, At(n, steps, i), len)
    decreases i
  {
    hide NodeNext, LeavesBe;
    if i > 0 {
      StretchStands(n, steps, i - 1, len);
      StepStands(At(n, steps, i - 1), steps[i - 1], len);
    }
  }

  /** A leader carries out a change; whatever happens then, stepping down, restarts and further
      changes of its own included, as long as no request brings a change or reaches back so
      far; and in the end its change is cut off again. Nothing takes it back: unless the cut
      goes back before an earlier change, or brings another one, the node keeps the peers it
      has by then - so it knows the configuration of its log again exactly in those two
      cases, or when its changes made no difference. */
  lemma OwnChangeCut(n: NodeState, ev: Event, now: int, steps: seq<NodeStep>, m: AppendRequest, later: int, base: set<Address>)
    requires Tracks(n, base) && Chained(n.log, base) && ChangesCluster(n, ev)
    requires External(steps) && Undisturbed(React(n, ev, now).node, steps, |n.log| + 1)
    requires Takes(At(React(n, ev, now).node, steps, |steps|), m) && |m.entries| > 0 && m.prevIndex < |n.log|
    ensures var k := At(React(n, ev, now).node, steps, |steps|); var z := React(k, AppendEntries(m), later).node;
            && (n.changeIndex <= m.prevIndex && LastChange(m.entries) < 0 ==> z.peers == k.peers && z.changeIndex == n.changeIndex)
            && (Tracks(z, base) <==>
                 || m.prevIndex < n.changeIndex || LastChange(m.entries) >= 0
                 || SetOf(k.peers) - {n.address} == ConfigOf(n.log, base) - {n.address})
  {
    hide React, At, Undisturbed, Changed, Chained, LastChange, ConfigOf, ChangeTermOf, Takes, Rewind, Stored,
         Others, MayChange, Receiver;
    var first := React(n, ev, now).node;
    var k := At(first, steps, |steps|);
    OtherConfig(n, ev, now);
    StretchStands(first, steps, |steps|, |n.log| + 1);
    var log := k.log[..|n.log|];
    SameStart(n.log, first.log, k.log);
    SameLogConfig(n.log, log, base);
    ChainedAlong(log, n.log, base);
    TakenConfig(k, m, later);
    var f := Receiver(k, m.term);
    CutStored(f, log, m, later, base);
    TracksSame(Stored(f, m, later), React(k, AppendEntries(m), later).node, base);
  }

  lemma SameStart(a: seq<LogEntry>, b: seq<LogEntry>, c: seq<LogEntry>)
    requires |b| == |a| + 1 && b[..|a|] == a && AgreeUpTo(b, c, |b|)
    ensures SameLog(a, c[..|a|]) && SameLog(c[..|a|], a)
  {
    assert forall i :: 0 <= i < |a| ==> a[i] == b[i];
  }

  // ----- quorums of neighbouring configurations -----

  /** One server more or less, and a winning set of the old cluster can miss one of the new. */
  lemma NeighboursNeedNotMeet(cluster: set<Address>, x: Address) returns (q: set<Address>, r: set<Address>)
    requires cluster != {} && x !in cluster
    ensures Quorum(q, cluster) && Quorum(r, cluster + {x}) && q * r == {}
  {
    q := SomeSubset(cluster, (|cluster| + 1) / 2);
    r := cluster - q + {x};
    assert |cluster - q| == |cluster| - |q|;
    assert |r| == |cluster| - |q| + 1 && |cluster + {x}| == |cluster| + 1;
  }

  // ----- when all records are right -----

  /** If the step starts a change, its leader knows the configuration its log amounts to. */
  ghost predicate WellStarted(s: System, c: Choice, base: set<Address>) {
    Enabled(s, c) && !c.Reboot? && ChangesCluster(s.nodes[Target(c)], EventFor(c)) ==> Knows(s.nodes[Target(c)], base)
  }

  ghost predicate AllWellStarted(s: System, run: seq<Choice>, base: set<Address>) {
    forall j :: 0 <= j < |run| ==> WellStarted(After(s, run[..j]), run[j], base)
  }

  ghost predicate AllChained(s: System, base: set<Address>) {
    && (forall a :: a in s.nodes ==> Chained(s.nodes[a].log, base))
    && (forall t :: t in s.hist.leaderLog ==> Chained(s.hist.leaderLog[t], base))
  }

  /** A log that follows a well-recorded one is well recorded. */
  lemma ChainedAlong(a: seq<LogEntry>, b: seq<LogEntry>, base: set<Address>)
    requires Chained(b, base) && AgreeUpTo(a, b, |a|)
    ensures Chained(a, base)
  {
    hide LastChange, ConfigOf, ChangeTermOf;
    forall i | 0 <= i < |a| && IsClusterChange(a[i]) ensures Describes(RecordOf(a[i].payload), a[..i], base) {
      assert Same(a[i], b[i]);
      SameLogConfig(a[..i], b[..i], base);
    }
  }

  lemma ChainedPush(log: seq<LogEntry>, e: LogEntry, base: set<Address>)
    requires Chained(log, base) && !IsClusterChange(e)
    ensures Chained(log + [e], base)
  {
    hide Describes;
    var new' := log + [e];
    forall i | 0 <= i < |new'| && IsClusterChange(new'[i]) ensures Describes(RecordOf(new'[i].payload), new'[..i], base) {
      assert new'[i] == log[i] && new'[..i] == log[..i];
    }
  }

  lemma TakenChained(s: System, c: Choice, base: set<Address>)
    requires Matched(s) && AllChained(s, base) && Enabled(s, c) && !c.Reboot?
    requires EffectOf(s.nodes[Target(c)], EventFor(c)).Replaced?
    ensures Chained(NewLog(s.nodes[Target(c)].log, EventFor(c).append), base)
  {
    hide Accepts, Rooted, Quotes, Chained, EffectOf;
    var n := s.nodes[Target(c)];
    var ev := EventFor(c);
    ReplacedIsAppend(n, ev);
    TakenPacket(s, c);
    AcceptsInRange(Receiver(n, ev.append.term), ev.append);
    assert PacketMatched(c.packet, s.hist.leaderLog);
    TakenAgrees(n.log, ev.append, s.hist.leaderLog);
    ChainedAlong(NewLog(n.log, ev.append), s.hist.leaderLog[ev.append.term], base);
  }

  lemma TargetChained(s: System, c: Choice, base: set<Address>)
    requires Matched(s) && AllChained(s, base) && WellStarted(s, c, base) && Enabled(s, c) && !c.Reboot?
    ensures Chained(Next(s, c).nodes[Target(c)].log, base)
  {
    hide React, PacketsOf, Noted, Chained, Matched, Knows, EffectOf, ChangesCluster;
    var n := s.nodes[Target(c)];
    var ev := EventFor(c);
    var k := React(n, ev, c.now).node;
    StepOf(s, c);
    if n.halted {
      DeadStep(n, ev, c.now);
    } else if ev.AppendEntries? {
      Effect(n, ev, c.now);
      AppendEffectCases(n, ev);
      if EffectOf(n, ev).Replaced? {
        TakenChained(s, c, base);
        ReplacedIsAppend(n, ev);
        ChainedAlong(k.log, NewLog(n.log, ev.append), base);
      } else {
        ChainedAlong(k.log, n.log, base);
      }
    } else {
      OtherConfig(n, ev, c.now);
      NotReplaced(n, ev);
      if ChangesCluster(n, ev) {
        ChangeRecordedIff(n, ev, c.now, base);
      } else if EffectOf(n, ev).Grown? {
        assert k.log == n.log + [k.log[|n.log|]];
        ChainedPush(n.log, k.log[|n.log|], base);
      } else {
        ChainedAlong(k.log, n.log, base);
      }
    }
  }

  lemma AppendEffectCases(n: NodeState, ev: Event)
    requires ev.AppendEntries?
    ensures !EffectOf(n, ev).Grown?
  {
  }

  lemma NextChained(s: System, c: Choice, base: set<Address>)
    requires Matched(s) && AllChained(s, base) && WellStarted(s, c, base)
    ensures AllChained(Next(s, c), base)
  {
    hide React, Restart, PacketsOf, VotesCast, Counts, Matched, Chained, WellStarted;
    if !Enabled(s, c) {
    } else if c.Reboot? {
      RestartOutcome(s.nodes[c.node], c.lastHeard, c.now);
    } else {
      StepOf(s, c);
      LogsAfter(s, c);
      TargetChained(s, c, base);
    }
  }

  lemma StartedBefore(s: System, run: seq<Choice>, base: set<Address>)
    requires |run| > 0 && AllWellStarted(s, run, base)
    ensures AllWellStarted(s, run[..|run| - 1], base)
    ensures WellStarted(After(s, run[..|run| - 1]), run[|run| - 1], base)
  {
    hide WellStarted, After;
    var shorter := run[..|run| - 1];
    forall j | 0 <= j < |shorter| ensures WellStarted(After(s, shorter[..j]), shorter[j], base) {
      assert shorter[..j] == run[..j] && shorter[j] == run[j];
    }
  }

  /** If every change in a run was started by a leader that knew the configuration its log
      amounts to, and no term had two leaders, then every change in every log describes the
      configuration before it, however often logs were cut and spliced. */
  lemma {:induction false} ChainedAlways(s: System, run: seq<Choice>, base: set<Address>)
    requires Initial(s) && OneLeader(After(s, run).hist) && AllWellStarted(s, run, base)
    ensures AllChained(After(s, run), base)
  {
    hide Restart, Next, AllWellStarted, WellStarted, Matched;
    if |run| == 0 {
      forall a | a in s.nodes ensures s.nodes[a].log == [] {
        RestartOutcome(Blank(a, s.nodes[a].peers, s.nodes[a].minElectionTimeout), s.nodes[a].leaderLastHeard, 0);
      }
    } else {
      var before, c := After(s, run[..|run| - 1]), run[|run| - 1];
      OneLeaderBefore(before, c);
      StartedBefore(s, run, base);
      MatchedAlways(s, run[..|run| - 1]);
      ChainedAlways(s, run[..|run| - 1], base);
      NextChained(before, c, base);
    }
  }

  /** Node `a` itself starts no change in the run. */
  ghost predicate StartsNone(s: System, run: seq<Choice>, a: Address) {
    forall j :: 0 <= j < |run| ==> !Starts(After(s, run[..j]), run[j], a)
  }

  predicate Starts(s: System, c: Choice, a: Address) {
    Enabled(s, c) && !c.Reboot? && Target(c) == a && ChangesCluster(s.nodes[a], EventFor(c))
  }

  lemma NoneBefore(s: System, run: seq<Choice>, a: Address)
    requires |run| > 0 && StartsNone(s, run, a)
    ensures StartsNone(s, run[..|run| - 1], a) && !Starts(After(s, run[..|run| - 1]), run[|run| - 1], a)
  {
    hide Starts, After;
    var shorter := run[..|run| - 1];
    forall j | 0 <= j < |shorter| ensures !Starts(After(s, shorter[..j]), shorter[j], a) {
      assert shorter[..j] == run[..j] && shorter[j] == run[j];
    }
  }

  lemma NextTracks(s: System, c: Choice, base: set<Address>, a: Address)
    requires a in s.nodes && Tracks(s.nodes[a], base) && Chained(s.nodes[a].log, base) && !Starts(s, c, a)
    ensures a in Next(s, c).nodes && Tracks(Next(s, c).nodes[a], base)
  {
    hide React, Restart, PacketsOf, Noted, Tracks, Chained, ChangesCluster;
    if Enabled(s, c) && Target(c) == a {
      var n := s.nodes[a];
      if c.Reboot? {
        RestartOutcome(n, c.lastHeard, c.now);
        SameLogSelf(n.log);
        TracksSame(n, Next(s, c).nodes[a], base);
      } else {
        StepOf(s, c);
        if n.halted { DeadStep(n, EventFor(c), c.now); } else { TrackingKeptIff(n, EventFor(c), c.now, base); }
      }
    } else if Enabled(s, c) && !c.Reboot? {
      StepOf(s, c);
    }
  }

  /** In such a run a node that starts no change itself always has the latest configuration
      of its log in its status. */
  lemma {:induction false} TracksAlways(s: System, run: seq<Choice>, base: set<Address>, a: Address)
    requires Initial(s) && OneLeader(After(s, run).hist) && AllWellStarted(s, run, base)
    requires a in s.nodes && SetOf(s.nodes[a].peers) - {a} == base - {a} && StartsNone(s, run, a)
    ensures a in After(s, run).nodes && Tracks(After(s, run).nodes[a], base)
  {
    hide Restart, Next, AllWellStarted, WellStarted, Chained, StartsNone;
    if |run| == 0 {
      RestartOutcome(Blank(a, s.nodes[a].peers, s.nodes[a].minElectionTimeout), s.nodes[a].leaderLastHeard, 0);
    } else {
      var before, c := After(s, run[..|run| - 1]), run[|run| - 1];
      OneLeaderBefore(before, c);
      StartedBefore(s, run, base);
      NoneBefore(s, run, a);
      TracksAlways(s, run[..|run| - 1], base, a);
      ChainedAlways(s, run[..|run| - 1], base);
      NextTracks(before, c, base, a);
    }
  }
}
