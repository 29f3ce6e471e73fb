/** Cluster configuration: when a node's status holds the latest configuration in its log. */
module Config {
  import opened Types
  import opened Rules
  import opened Interpreter
  import opened Reactions
  import opened Effects

  function SetOf(s: seq<Address>): set<Address> {
    set i | 0 <= i < |s| :: s[i]
  }

  /** The configuration in force at the end of a log that started from `base`. */
  function ConfigOf(log: seq<LogEntry>, base: set<Address>): set<Address> {
    var i := LastChange(log);
    if i < 0 then base else SetOf(RecordOf(log[i].payload).newCluster)
  }

  function ChangeTermOf(log: seq<LogEntry>): int {
    var i := LastChange(log);
    if i < 0 then -1 else log[i].term
  }

  /** The status points at the last change in the log, and its peers are that configuration
      without the node itself. */
  ghost predicate Tracks(n: NodeState, base: set<Address>) {
    && n.changeIndex == LastChange(n.log) && n.changeTerm == ChangeTermOf(n.log)
    && SetOf(n.peers) - {n.address} == ConfigOf(n.log, base) - {n.address}
  }

  /** Record `r` describes the configuration in force at the end of `log`. */
  ghost predicate Describes(r: ClusterRecord, log: seq<LogEntry>, base: set<Address>) {
    r.oldIndex == LastChange(log) && r.oldTerm == ChangeTermOf(log) && SetOf(r.oldCluster) == ConfigOf(log, base)
  }

  /** Every change in the log records the configuration in force just before it. */
  ghost predicate Chained(log: seq<LogEntry>, base: set<Address>) {
    forall i :: 0 <= i < |log| && IsClusterChange(log[i]) ==> Describes(RecordOf(log[i].payload), log[..i], base)
  }

  // ----- last changes -----

  lemma SameLogConfig(a: seq<LogEntry>, b: seq<LogEntry>, base: set<Address>)
    requires SameLog(a, b)
    ensures LastChange(a) == LastChange(b) && ConfigOf(a, base) == ConfigOf(b, base) && ChangeTermOf(a) == ChangeTermOf(b)
  {
    assert forall i :: 0 <= i < |a| ==> Same(a[i], b[i]);
  }

  /** The last change of a spliced log. */
  lemma SpliceConfig(head: seq<LogEntry>, tail: seq<LogEntry>, base: set<Address>)
    ensures var i := LastChange(tail);
            if i < 0 then
              LastChange(head + tail) == LastChange(head) && ConfigOf(head + tail, base) == ConfigOf(head, base)
              && ChangeTermOf(head + tail) == ChangeTermOf(head)
            else
              LastChange(head + tail) == |head| + i && ConfigOf(head + tail, base) == SetOf(RecordOf(tail[i].payload).newCluster)
              && ChangeTermOf(head + tail) == tail[i].term
  {
    hide LastChange, SetOf, RecordOf;
    var log := head + tail;
    var x := if LastChange(tail) < 0 then LastChange(head) else |head| + LastChange(tail);
    assert x >= 0 ==> log[x] == if x < |head| then head[x] else tail[x - |head|];
    forall j | x < j < |log| ensures !IsClusterChange(log[j]) {
      if j >= |head| { assert log[j] == tail[j - |head|]; }
    }
    LastIs(log, x);
  }

  /** The last change is the one after which there is none. */
  lemma LastIs(log: seq<LogEntry>, x: int)
    requires -1 <= x < |log| && (x >= 0 ==> IsClusterChange(log[x]))
    requires forall j :: x < j < |log| ==> !IsClusterChange(log[j])
    ensures LastChange(log) == x
  {
    hide LastChange;
  }

  /** A prefix that keeps the last change has the same configuration. */
  lemma PrefixConfig(log: seq<LogEntry>, k: nat, base: set<Address>)
    requires LastChange(log) < k <= |log|
    ensures LastChange(log[..k]) == LastChange(log) && ConfigOf(log[..k], base) == ConfigOf(log, base)
    ensures ChangeTermOf(log[..k]) == ChangeTermOf(log)
  {
    assert LastChange(log) >= 0 ==> IsClusterChange(log[..k][LastChange(log)]);
  }

  lemma OthersSet(cluster: seq<Address>, self: Address)
    ensures SetOf(Others(cluster, self)) == SetOf(cluster) - {self}
  {
    if |cluster| > 0 {
      OthersSet(cluster[1..], self);
      SetOfConcat([cluster[0]], cluster[1..]);
      assert [cluster[0]] + cluster[1..] == cluster;
      SetOfConcat(if cluster[0] != self then [cluster[0]] else [], Others(cluster[1..], self));
      assert SetOf([cluster[0]]) == {cluster[0]};
      assert SetOf([]) == {};
    }
  }

  lemma SetOfOne(a: Address)
    ensures SetOf([a]) == {a}
  {
    assert [a][0] in SetOf([a]);
  }

  lemma SetOfConcat(a: seq<Address>, b: seq<Address>)
    ensures SetOf(a + b) == SetOf(a) + SetOf(b)
  {
    forall x | x in SetOf(a) ensures x in SetOf(a + b) { var i :| 0 <= i < |a| && a[i] == x; assert (a + b)[i] == x; }
    forall x | x in SetOf(b) ensures x in SetOf(a + b) { var i :| 0 <= i < |b| && b[i] == x; assert (a + b)[|a| + i] == x; }
  }

  // ----- the rewind -----

  /** The search stops, at the configuration of the log cut after `prev`. `j` is a prefix
      whose configuration the search currently holds. */
  lemma {:induction false} SearchFinds(log: seq<LogEntry>, prev: int, cur: Rewound, seen: set<int>, j: nat,
                                          base: set<Address>, self: Address)
    requires cur.Rewound? && -1 <= prev < j <= |log| && Chained(log[..j], base) && forall x :: x in seen ==> x >= j
    requires cur.index == LastChange(log[..j]) && cur.term == ChangeTermOf(log[..j])
    requires SetOf(cur.cluster) - {self} == ConfigOf(log[..j], base) - {self}
    ensures var r := Search(log, prev, cur, seen); var cut := log[..prev + 1];
            && r.Rewound? && r.index == LastChange(cut) && r.term == ChangeTermOf(cut)
            && SetOf(r.cluster) - {self} == ConfigOf(cut, base) - {self}
            && (r == cur || r.moved)
    decreases j
  {
    hide LastChange, ConfigOf, ChangeTermOf, SetOf, Describes;
    if cur.index <= prev {
      PrefixOfPrefix(log, prev + 1, j);
      PrefixConfig(log[..j], prev + 1, base);
    } else {
      var i := cur.index;
      var r := RecordOf(log[i].payload);
      LastIsChange(log, j);
      PrefixOfPrefix(log, i, j);
      DescribedAt(log[..j], i, base);
      ChainedPrefix(log[..j], i, base);
      SearchFinds(log, prev, Rewound(r.oldIndex, r.oldTerm, r.oldCluster, true), seen + {i}, i, base, self);
    }
  }

  lemma PrefixOfPrefix(log: seq<LogEntry>, i: nat, j: nat)
    requires i <= j <= |log|
    ensures log[..j][..i] == log[..i]
  {
  }

  lemma ChainedPrefix(log: seq<LogEntry>, i: nat, base: set<Address>)
    requires Chained(log, base) && i <= |log|
    ensures Chained(log[..i], base)
  {
    hide Describes;
    forall x | 0 <= x < i && IsClusterChange(log[..i][x]) ensures Describes(RecordOf(log[..i][x].payload), log[..i][..x], base) {
      assert log[..i][x] == log[x] && log[..i][..x] == log[..x];
    }
  }

  lemma LastIsChange(log: seq<LogEntry>, j: nat)
    requires j <= |log|
    ensures var i := LastChange(log[..j]); i < j && (i >= 0 ==> IsClusterChange(log[i]))
  {
    hide LastChange;
    var i := LastChange(log[..j]);
    if i >= 0 { assert log[..j][i] == log[i]; }
  }

  lemma DescribedAt(log: seq<LogEntry>, i: nat, base: set<Address>)
    requires Chained(log, base) && i < |log| && IsClusterChange(log[i])
    ensures var r := RecordOf(log[i].payload);
            && r.oldIndex == LastChange(log[..i]) && r.oldTerm == ChangeTermOf(log[..i])
            && SetOf(r.oldCluster) == ConfigOf(log[..i], base)
  {
    hide LastChange, ConfigOf, ChangeTermOf, SetOf;
    assert Describes(RecordOf(log[i].payload), log[..i], base);
  }

  /** A follower that tracks its log is never stuck in the search. */
  lemma RewindTerminates(n: NodeState, base: set<Address>, m: AppendRequest)
    requires Tracks(n, base) && Chained(n.log, base) && -1 <= m.prevIndex < |n.log|
    ensures var r := Rewind(n.log, m.prevIndex, Recorded(n)); var cut := n.log[..m.prevIndex + 1];
            && r.Rewound? && r.index == LastChange(cut) && r.term == ChangeTermOf(cut)
            && SetOf(r.cluster) - {n.address} == ConfigOf(cut, base) - {n.address}
            && (r == Recorded(n) || r.moved)
  {
    assert n.log[..|n.log|] == n.log;
    SetOfConcat(n.peers, [n.address]);
    SetOfOne(n.address);
    SearchFinds(n.log, m.prevIndex, Recorded(n), {}, |n.log|, base, n.address);
  }

  lemma FallenBackTracks(n: NodeState, h: NodeState, m: AppendRequest, base: set<Address>)
    requires Tracks(n, base) && Chained(n.log, base) && -1 <= m.prevIndex < |n.log|
    requires h.peers == n.peers && h.address == n.address && h.changeIndex == n.changeIndex && h.changeTerm == n.changeTerm
    ensures Rewind(n.log, m.prevIndex, Recorded(n)).Rewound?
    ensures Tracks(FallenBack(h, Rewind(n.log, m.prevIndex, Recorded(n))).(log := n.log[..m.prevIndex + 1]), base)
  {
    hide Rewind, LastChange, ConfigOf, ChangeTermOf, Others;
    RewindTerminates(n, base, m);
    var r := Rewind(n.log, m.prevIndex, Recorded(n));
    OthersSet(r.cluster, n.address);
    SetOfConcat(n.peers, [n.address]);
    SetOfOne(n.address);
  }

  lemma AdoptedTracks(n: NodeState, m: AppendRequest, base: set<Address>)
    requires Tracks(n, base) && |n.log| == m.prevIndex + 1
    ensures Tracks(Adopted(n.(log := n.log + m.entries), m), base)
  {
    hide LastChange, Others;
    SpliceConfig(n.log, m.entries, base);
    var i := LastChange(m.entries);
    if i >= 0 { OthersSet(RecordOf(m.entries[i].payload).newCluster, n.address); }
  }

  /** There is an index of each kind for exactly the peers. */
  ghost predicate IndexedByPeers(n: NodeState) {
    forall x :: (x in n.nextIndex <==> x in n.peers) && (x in n.matchIndex <==> x in n.peers)
  }

  /** Where a node that stores entries gets its configuration from. */
  lemma StoredConfig(k: NodeState, m: AppendRequest, now: int)
    requires |m.entries| > 0 && -1 <= m.prevIndex < |k.log| && Rewind(k.log, m.prevIndex, Recorded(k)).Rewound?
    ensures var z := Stored(k, m, now); var r := Rewind(k.log, m.prevIndex, Recorded(k)); var c := LastChange(m.entries);
            && z.address == k.address && z.log == k.log[..m.prevIndex + 1] + m.entries
            && if c >= 0 then
                 z.changeIndex == m.prevIndex + c + 1 && z.changeTerm == m.entries[c].term
                 && z.peers == Others(RecordOf(m.entries[c].payload).newCluster, k.address)
               else if r.moved then
                 z.changeIndex == r.index && z.changeTerm == r.term && z.peers == Others(r.cluster, k.address)
               else
                 && z.changeIndex == k.changeIndex && z.changeTerm == k.changeTerm && z.peers == k.peers
                 && z.nextIndex == k.nextIndex && z.matchIndex == k.matchIndex
  {
    hide Rewind, LastChange, Others, Indices;
  }

  lemma StoredIndices(k: NodeState, m: AppendRequest, now: int)
    requires |m.entries| > 0 && -1 <= m.prevIndex < |k.log| && Rewind(k.log, m.prevIndex, Recorded(k)).Rewound?
    requires LastChange(m.entries) >= 0 || Rewind(k.log, m.prevIndex, Recorded(k)).moved
    ensures IndexedByPeers(Stored(k, m, now))
  {
    hide Rewind, LastChange, Others, Heard, NewLog, WithPeers;
    var h := Heard(k, m, now);
    var r := Rewind(k.log, m.prevIndex, Recorded(k));
    if r.moved { RebuiltIndices(h.(changeIndex := r.index, changeTerm := r.term), Others(r.cluster, h.address)); }
    var i := LastChange(m.entries);
    if i >= 0 {
      var g := FallenBack(h, r).(log := NewLog(k.log, m));
      RebuiltIndices(g.(changeIndex := m.prevIndex + i + 1, changeTerm := m.entries[i].term),
                     Others(RecordOf(m.entries[i].payload).newCluster, g.address));
    }
  }

  lemma RebuiltIndices(n: NodeState, peers: seq<Address>)
    ensures IndexedByPeers(WithPeers(n, peers))
  {
  }

  lemma HeardConfig(f: NodeState, m: AppendRequest, now: int)
    requires -1 <= m.prevIndex < |f.log| && |m.entries| == 0
    ensures var st := Stored(f, m, now);
            && st.changeIndex == f.changeIndex && st.changeTerm == f.changeTerm
            && st.address == f.address && st.peers == f.peers && st.log == f.log
            && st.nextIndex == f.nextIndex && st.matchIndex == f.matchIndex
  {
  }

  lemma StoredTracks(f: NodeState, m: AppendRequest, now: int, base: set<Address>)
    requires Tracks(f, base) && Chained(f.log, base) && -1 <= m.prevIndex < |f.log|
    ensures |m.entries| > 0 ==> Rewind(f.log, m.prevIndex, Recorded(f)).Rewound?
    ensures Tracks(Stored(f, m, now), base)
  {
    hide Rewind, LastChange, Others, ConfigOf, ChangeTermOf, Adopted, FallenBack;
    var h := Heard(f, m, now);
    if |m.entries| > 0 {
      FallenBackTracks(f, h, m, base);
      var r := Rewind(f.log, m.prevIndex, Recorded(f));
      var k := FallenBack(h, r).(log := f.log[..m.prevIndex + 1]);
      AdoptedTracks(k, m, base);
    }
  }

  /** Wherever the log is cut, the search for the surviving configuration ends. */
  ghost predicate Rewindable(n: NodeState) {
    forall prev :: -1 <= prev < |n.log| ==> Rewind(n.log, prev, Recorded(n)).Rewound?
  }

  // ----- every event -----

  lemma TracksSame(n: NodeState, k: NodeState, base: set<Address>)
    requires SameLog(n.log, k.log) && k.address == n.address
    requires k.peers == n.peers && k.changeIndex == n.changeIndex && k.changeTerm == n.changeTerm
    ensures Tracks(n, base) <==> Tracks(k, base)
  {
    SameLogConfig(n.log, k.log, base);
  }

  /** What a node that takes a request knows of the configuration, it knows from storing it. */
  lemma TakenConfig(k: NodeState, m: AppendRequest, now: int)
    requires Takes(k, m)
    ensures var f := Receiver(k, m.term);
            && -1 <= m.prevIndex < |f.log| && f.log == k.log && f.peers == k.peers && f.address == k.address
            && f.changeIndex == k.changeIndex && f.changeTerm == k.changeTerm
            && f.nextIndex == k.nextIndex && f.matchIndex == k.matchIndex
            && (|m.entries| > 0 ==> Rewind(f.log, m.prevIndex, Recorded(f)).Rewound?)
            && var st, z := Stored(f, m, now), React(k, AppendEntries(m), now).node;
               && z.peers == st.peers && z.changeIndex == st.changeIndex && z.changeTerm == st.changeTerm && z.address == st.address
               && st.address == k.address && SameLog(st.log, z.log)
               && z.nextIndex == st.nextIndex && z.matchIndex == st.matchIndex
  {
    hide React, Implement, Rewind, AppendCrashes, Accepts, CommitActions, Stored, Receiver, Reaches;
    var f := Receiver(k, m.term);
    ReceiverKeeps(k, m.term);
    AppendOutcome(k, m, now);
    AcceptsInRange(f, m);
    NoStuck(f, m);
    StoredKeeps(f, m, now);
    CommitRun(f, m, AppendEntries(m), Stored(f, m, now), now);
  }

  lemma AppendTracks(n: NodeState, m: AppendRequest, now: int, base: set<Address>)
    requires !n.halted && Tracks(n, base) && Chained(n.log, base)
    ensures Tracks(React(n, AppendEntries(m), now).node, base)
    ensures Reaches(n, m) && Accepts(Receiver(n, m.term), m) && |m.entries| > 0 ==>
              Rewind(n.log, m.prevIndex, Recorded(Receiver(n, m.term))).Rewound?
  {
    hide React, Implement, AppendCrashes, Accepts, Rewind, CommitActions, Stored, Tracks, Receiver, Reaches;
    var f := Receiver(n, m.term);
    ReceiverKeeps(n, m.term);
    SameLogSelf(n.log);
    TracksSame(n, f, base);
    if Takes(n, m) {
      TakenConfig(n, m, now);
      StoredTracks(f, m, now, base);
      TracksSame(Stored(f, m, now), React(n, AppendEntries(m), now).node, base);
    } else {
      UntakenTracks(n, m, now, base);
    }
    if Reaches(n, m) && Accepts(f, m) {
      AcceptsInRange(f, m);
      StoredTracks(f, m, now, base);
    }
  }

  lemma UntakenConfig(n: NodeState, m: AppendRequest, now: int)
    requires !n.halted && !Takes(n, m)
    ensures var k := React(n, AppendEntries(m), now).node;
            && k.log == n.log && k.peers == n.peers && k.address == n.address
            && k.changeIndex == n.changeIndex && k.changeTerm == n.changeTerm
  {
    hide React, Implement, AppendCrashes, Accepts, Rewind, CommitActions, Stored, Receiver, Reaches;
    ReceiverKeeps(n, m.term);
    if Reaches(n, m) { AppendOutcome(n, m, now); } else { AppendRefused(n, m, now); }
  }

  lemma UntakenTracks(n: NodeState, m: AppendRequest, now: int, base: set<Address>)
    requires !n.halted && !Takes(n, m) && Tracks(n, base)
    ensures Tracks(React(n, AppendEntries(m), now).node, base)
  {
    hide React, Takes, Tracks;
    UntakenConfig(n, m, now);
    SameLogSelf(n.log);
    TracksSame(n, React(n, AppendEntries(m), now).node, base);
  }

  /** What an event other than an append request does to the configuration: nothing, unless
      a leader carries out a membership change. */
  ghost predicate ConfigEffect(n: NodeState, ev: Event, k: NodeState) {
    && k.changeIndex == n.changeIndex && k.changeTerm == n.changeTerm && k.address == n.address
    && k.peers == (if ChangesCluster(n, ev) then Changed(n, ev).0.peers else n.peers)
    && (ChangesCluster(n, ev) ==> k.log == n.log + [Changed(n, ev).1])
    && (EffectOf(n, ev).Kept? ==> SameLog(n.log, k.log))
    && (EffectOf(n, ev).Grown? && !ChangesCluster(n, ev) ==>
          |k.log| == |n.log| + 1 && k.log[..|n.log|] == n.log && !IsClusterChange(k.log[|n.log|]))
  }

  lemma OtherConfig(n: NodeState, ev: Event, now: int)
    requires !n.halted && !ev.StateChanged? && !ev.AppendEntries?
    ensures ConfigEffect(n, ev, React(n, ev, now).node)
  {
    hide React, ConfigEffect;
    match ev
    case Timeout => TimeoutConfig(n, now);
    case RequestVote(m) => VoteConfig(n, m, now);
    case VoteReply(r) => VoteReplyConfig(n, r, now);
    case AppendReply(r) => AppendReplyConfig(n, r, now);
    case _ => if IsClient(ev) { ClientConfig(n, ev, now); }
  }

  lemma TimeoutConfig(n: NodeState, now: int)
    requires !n.halted
    ensures ConfigEffect(n, Timeout, React(n, Timeout, now).node)
  {
    hide React, Changed, Sent, AskPeers, FeedPeers;
    match n.role
    case Follower => FollowerTimeout(n, now);
    case Candidate => CandidateTimeout(n, now);
    case Leader => LeaderTimeout(n, now);
  }

  lemma VoteConfig(n: NodeState, m: VoteRequest, now: int)
    requires !n.halted
    ensures ConfigEffect(n, RequestVote(m), React(n, RequestVote(m), now).node)
  {
    hide React, Changed, UpToDate, Receiver, GrantsVote, RecentlyHeard;
    ReceiverKeeps(n, m.term);
    SameLogSelf(n.log);
    VoteOutcome(n, m, now);
  }

  lemma VoteReplyConfig(n: NodeState, r: VoteAnswer, now: int)
    requires !n.halted
    ensures ConfigEffect(n, VoteReply(r), React(n, VoteReply(r), now).node)
  {
    hide React, Changed, Sent, GreetPeers;
    VoteReplyOutcome(n, r, now);
  }

  lemma AppendReplyConfig(n: NodeState, r: AppendAnswer, now: int)
    requires !n.halted
    ensures ConfigEffect(n, AppendReply(r), React(n, AppendReply(r), now).node)
  {
    hide React, Implement, Changed, NewCommit, AdvanceList;
    AppendReplyOutcome(n, r, now);
    AcknowledgedRun(n, r, Acknowledged(n, r), now);
  }

  lemma ClientConfig(n: NodeState, ev: Event, now: int)
    requires !n.halted && IsClient(ev)
    ensures ConfigEffect(n, ev, React(n, ev, now).node)
  {
    hide React, MayChange, Changed;
    SameLogSelf(n.log);
    if !n.role.Leader? {
      ClientRefused(n, ev, now);
    } else if ev.Command? {
      CommandOutcome(n, ev.payload, now);
    } else if ev.Probe? {
      ProbeOutcome(n, ev.index, ev.term, now);
    } else {
      ChangeConfig(n, ev, now);
    }
  }

  lemma ChangeConfig(n: NodeState, ev: Event, now: int)
    requires !n.halted && n.role.Leader? && (ev.AddServer? || ev.RemoveServer?)
    ensures ConfigEffect(n, ev, React(n, ev, now).node)
  {
    hide React, MayChange, Changed;
    SameLogSelf(n.log);
    ChangeOutcome(n, ev, now);
    ChangedKeeps(n, ev);
    DeadChange(n, ev);
  }

  lemma DeadChange(n: NodeState, ev: Event)
    requires !n.halted && (ev.AddServer? || ev.RemoveServer?)
    ensures Changed(n, ev).0.halted ==> Changed(n, ev).0.peers == n.peers
    ensures IsClusterChange(Changed(n, ev).1)
  {
    hide Others, Indices;
  }

  /** Configuration tracking. A node whose status holds the latest configuration of a
      well-recorded log holds it after every event - truncation through several changes
      included - except exactly when it is a leader that carries out a change itself. */
  lemma TrackingKeptIff(n: NodeState, ev: Event, now: int, base: set<Address>)
    requires !n.halted && !ev.StateChanged? && Tracks(n, base) && Chained(n.log, base)
    ensures Tracks(React(n, ev, now).node, base) <==> !ChangesCluster(n, ev)
  {
    hide React, ChangesCluster, Chained, Tracks, LastChange;
    if ev.AppendEntries? {
      AppendTracks(n, ev.append, now, base);
      NoChangeByAppend(n, ev);
    } else {
      var k := React(n, ev, now).node;
      OtherConfig(n, ev, now);
      if ChangesCluster(n, ev) {
        OwnChangeUntracked(n, ev, k, base);
      } else if EffectOf(n, ev).Grown? {
        PlainGrowthTracks(n, k, base);
      } else {
        NotReplaced(n, ev);
        TracksSame(n, k, base);
      }
    }
  }

  lemma NoChangeByAppend(n: NodeState, ev: Event)
    requires ev.AppendEntries?
    ensures !ChangesCluster(n, ev)
  {
  }

  lemma PlainGrowthTracks(n: NodeState, k: NodeState, base: set<Address>)
    requires Tracks(n, base) && k.address == n.address
    requires k.peers == n.peers && k.changeIndex == n.changeIndex && k.changeTerm == n.changeTerm
    requires |k.log| == |n.log| + 1 && k.log[..|n.log|] == n.log && !IsClusterChange(k.log[|n.log|])
    ensures Tracks(k, base)
  {
    assert k.log == n.log + [k.log[|n.log|]];
    SpliceConfig(n.log, [k.log[|n.log|]], base);
  }

  /** The leader's own change is the last one in its log, but its status does not say so. */
  lemma OwnChangeUntracked(n: NodeState, ev: Event, k: NodeState, base: set<Address>)
    requires Tracks(n, base) && ChangesCluster(n, ev)
    requires k.log == n.log + [Changed(n, ev).1] && k.changeIndex == n.changeIndex
    ensures !Tracks(k, base)
  {
    hide Included, Excluded, Others;
    SpliceConfig(n.log, [Changed(n, ev).1], base);
  }

  /** The status describes the configuration the log amounts to, the node itself included. */
  ghost predicate Knows(n: NodeState, base: set<Address>) {
    && n.changeIndex == LastChange(n.log) && n.changeTerm == ChangeTermOf(n.log)
    && SetOf(n.peers) + {n.address} == ConfigOf(n.log, base)
  }

  /** A change is well recorded exactly when the leader knew the configuration. */
  lemma ChangeRecordedIff(n: NodeState, ev: Event, now: int, base: set<Address>)
    requires ChangesCluster(n, ev) && Chained(n.log, base)
    ensures var k := React(n, ev, now).node;
            Chained(k.log, base) <==> Knows(n, base)
  {
    hide React, LastChange, Included, Excluded, ConfigOf, ChangeTermOf, Others, Changed;
    var k := React(n, ev, now).node;
    OtherConfig(n, ev, now);
    var e := Changed(n, ev).1;
    ChangedEntry(n, ev);
    SetOfConcat(n.peers, [n.address]);
    SetOfOne(n.address);
    var l := |n.log|;
    assert k.log[l] == e && k.log[..l] == n.log;
    forall i | 0 <= i < l ensures k.log[..i] == n.log[..i] && k.log[i] == n.log[i] {}
    assert Describes(RecordOf(e.payload), n.log, base) ==> Chained(k.log, base);
    assert Chained(k.log, base) ==> Describes(RecordOf(k.log[l].payload), k.log[..l], base);
  }

  lemma ChangedEntry(n: NodeState, ev: Event)
    requires ChangesCluster(n, ev)
    ensures var e := Changed(n, ev).1;
            && IsClusterChange(e) && e.payload.Cluster?
            && e.payload.record.oldIndex == n.changeIndex && e.payload.record.oldTerm == n.changeTerm
            && e.payload.record.oldCluster == n.peers + [n.address]
  {
    hide Included, Excluded, Others;
  }

  /** Adding a server leaves the leader's peers in line with the new configuration exactly
      when the new server is not the leader itself. */
  lemma AddedPeersRightIff(n: NodeState, server: Address, now: int, base: set<Address>)
    requires ChangesCluster(n, AddServer(server)) && n.address !in n.peers
    ensures var k := React(n, AddServer(server), now).node;
            SetOf(k.peers) == ConfigOf(k.log, base) - {k.address} <==> server != n.address
  {
    hide React, LastChange, MayChange, ConfigOf, Indices;
    var e := Changed(n, AddServer(server)).1;
    OtherConfig(n, AddServer(server), now);
    SpliceConfig(n.log, [e], base);
    assert IsClusterChange([e][0]);
    AddedSets(n.peers, n.address, server);
  }

  lemma AddedSets(peers: seq<Address>, self: Address, server: Address)
    requires self !in peers
    ensures SetOf(peers + [self, server]) == SetOf(peers) + {self, server} && self !in SetOf(peers)
    ensures SetOf(if server in peers then peers else peers + [server]) == SetOf(peers) + {server}
  {
    assert peers + [self, server] == peers + [self] + [server];
    SetOfConcat(peers, [self]);
    SetOfConcat(peers + [self], [server]);
    SetOfConcat(peers, [server]);
    SetOfOne(self);
    SetOfOne(server);
    if server in peers { var i :| 0 <= i < |peers| && peers[i] == server; assert server in SetOf(peers); }
  }

  /** Removing a server leaves the leader's peers in line with the new configuration exactly
      when the server was listed once, or when the blank slots its further copies leave
      behind happen to name a listed peer. */
  lemma RemovedPeersRightIff(n: NodeState, server: Address, now: int, base: set<Address>)
    requires ChangesCluster(n, RemoveServer(server)) && n.address !in n.peers
    ensures var k := React(n, RemoveServer(server), now).node;
            SetOf(k.peers) == ConfigOf(k.log, base) - {k.address}
            <==> multiset(n.peers)[server] == 1 || (server != "" && "" in n.peers)
  {
    hide React, LastChange, MayChange, ConfigOf, Indices, Others;
    var e := Changed(n, RemoveServer(server)).1;
    OtherConfig(n, RemoveServer(server), now);
    SpliceConfig(n.log, [e], base);
    assert IsClusterChange([e][0]);
    OthersCount(n.peers, server);
    SetOfHas(n.peers);
    SetOfConcat(n.peers, [n.address]);
    SetOfOne(n.address);
    OthersSet(n.peers, server);
    OthersSet(n.peers + [n.address], server);
    var blanks := seq(|n.peers| - 1 - |Others(n.peers, server)|, _ => "");
    SetOfConcat(Others(n.peers, server), blanks);
    SetOfBlanks(|n.peers| - 1 - |Others(n.peers, server)|);
  }

  lemma {:induction false} OthersCount(cluster: seq<Address>, a: Address)
    ensures |Others(cluster, a)| == |cluster| - multiset(cluster)[a]
  {
    if |cluster| > 0 {
      OthersCount(cluster[1..], a);
      assert cluster == [cluster[0]] + cluster[1..];
    }
  }

  lemma SetOfHas(s: seq<Address>)
    ensures forall a :: a in SetOf(s) <==> a in s
  {
  }

  lemma SetOfBlanks(count: nat)
    ensures SetOf(seq(count, _ => "")) == if count == 0 then {} else {""}
  {
    var s := seq(count, _ => "");
    assert count > 0 ==> s[0] in SetOf(s);
  }
}
