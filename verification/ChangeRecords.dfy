/** The records of membership changes in reachable states: each points back to an earlier
    change of the same log, so the search for the surviving configuration always ends. */
module ChangeRecords {
  import opened Types
  import opened Rules
  import opened Interpreter
  import opened Reactions
  import opened Effects
  import opened Network
  import opened Leadership
  import opened LogMatching
  import opened Config
  import opened CommitAgreement
  import opened Bounds

  /** `i` is the index of a recorded change, or -1. */
  predicate PointsAt(log: seq<LogEntry>, i: int) {
    i == -1 || (0 <= i < |log| && IsClusterChange(log[i]) && log[i].payload.Cluster?)
  }

  /** The change at `j`, if there is one, is recorded and points to an earlier one. */
  predicate LinkedAt(log: seq<LogEntry>, j: int)
    requires 0 <= j < |log|
  {
    IsClusterChange(log[j]) ==> log[j].payload.Cluster? && PointsAt(log[..j], log[j].payload.record.oldIndex)
  }

  ghost predicate Linked(log: seq<LogEntry>) {
    forall j :: 0 <= j < |log| ==> LinkedAt(log, j)
  }

  ghost predicate NodeLinked(n: NodeState) {
    Linked(n.log) && PointsAt(n.log, n.changeIndex)
  }

  ghost predicate AllLinked(s: System) {
    && (forall a :: a in s.nodes ==> NodeLinked(s.nodes[a]))
    && (forall t :: t in s.hist.leaderLog ==> Linked(s.hist.leaderLog[t]))
  }

  // ----- logs -----

  lemma PointsAlong(a: seq<LogEntry>, b: seq<LogEntry>, i: int)
    requires PointsAt(b, i) && i < |a| && AgreeUpTo(a, b, i + 1)
    ensures PointsAt(a, i)
  {
    if i >= 0 { assert Same(a[i], b[i]); }
  }

  /** A log that follows a linked one is linked. */
  lemma LinkedAlong(a: seq<LogEntry>, b: seq<LogEntry>)
    requires Linked(b) && AgreeUpTo(a, b, |a|)
    ensures Linked(a)
  {
    forall j | 0 <= j < |a| ensures LinkedAt(a, j) {
      assert LinkedAt(b, j) && Same(a[j], b[j]);
      if IsClusterChange(a[j]) { PointsAlong(a[..j], b[..j], a[j].payload.record.oldIndex); }
    }
  }

  lemma LinkedPush(log: seq<LogEntry>, e: LogEntry)
    requires Linked(log)
    requires IsClusterChange(e) ==> e.payload.Cluster? && PointsAt(log, e.payload.record.oldIndex)
    ensures Linked(log + [e])
  {
    var new' := log + [e];
    forall j | 0 <= j < |new'| ensures LinkedAt(new', j) {
      if j < |log| {
        assert LinkedAt(log, j) && new'[..j] == log[..j];
      } else {
        assert new'[..j] == log;
      }
    }
  }

  /** In a linked log the search ends, at a change that survives the cut. */
  lemma {:induction false} SearchEnds(log: seq<LogEntry>, prev: int, cur: Rewound, seen: set<int>)
    requires Linked(log) && cur.Rewound? && PointsAt(log, cur.index) && -1 <= prev < |log|
    requires forall x :: x in seen ==> x > cur.index
    ensures var r := Search(log, prev, cur, seen);
            r.Rewound? && r.index <= prev && PointsAt(log[..prev + 1], r.index) && (r == cur || r.moved)
    decreases cur.index
  {
    if cur.index > prev {
      var r := RecordOf(log[cur.index].payload);
      assert LinkedAt(log, cur.index);
      if r.oldIndex >= 0 { assert log[..cur.index][r.oldIndex] == log[r.oldIndex]; }
      SearchEnds(log, prev, Rewound(r.oldIndex, r.oldTerm, r.oldCluster, true), seen + {cur.index});
    }
  }

  lemma LinkedRewindable(n: NodeState)
    requires NodeLinked(n)
    ensures Rewindable(n)
  {
    hide Search;
    forall prev | -1 <= prev < |n.log| ensures Rewind(n.log, prev, Recorded(n)).Rewound? {
      SearchEnds(n.log, prev, Recorded(n), {});
    }
  }

  // ----- one event -----

  /** Where the status points after a request is stored. */
  lemma LinkedPayload(log: seq<LogEntry>, j: int)
    requires Linked(log) && 0 <= j < |log| && IsClusterChange(log[j])
    ensures log[j].payload.Cluster?
  {
    assert LinkedAt(log, j);
  }

  lemma StoredLinked(f: NodeState, m: AppendRequest, now: int)
    requires NodeLinked(f) && -1 <= m.prevIndex < |f.log| && Linked(NewLog(f.log, m))
    ensures |m.entries| > 0 ==> Rewind(f.log, m.prevIndex, Recorded(f)).Rewound?
    ensures NodeLinked(Stored(f, m, now))
  {
    hide Search, Others, Indices, LastChange, Stored, Linked, LinkedAt;
    if |m.entries| == 0 {
      HeardConfig(f, m, now);
    } else {
      SearchEnds(f.log, m.prevIndex, Recorded(f), {});
      StoredConfig(f, m, now);
      var cut, new' := f.log[..m.prevIndex + 1], NewLog(f.log, m);
      var r := Rewind(f.log, m.prevIndex, Recorded(f));
      if r.index >= 0 { assert cut[r.index] == new'[r.index]; }
      var i := LastChange(m.entries);
      if i >= 0 {
        assert new'[m.prevIndex + 1 + i] == m.entries[i];
        LinkedPayload(new', m.prevIndex + 1 + i);
      }
    }
  }

  lemma NodeSame(n: NodeState, k: NodeState)
    requires NodeLinked(n) && SameLog(n.log, k.log) && k.changeIndex == n.changeIndex
    ensures NodeLinked(k)
  {
    LinkedAlong(k.log, n.log);
    PointsAlong(k.log, n.log, n.changeIndex);
  }

  lemma AppendLinked(n: NodeState, m: AppendRequest, now: int)
    requires !n.halted && NodeLinked(n)
    requires Reaches(n, m) && Accepts(Receiver(n, m.term), m) ==> Linked(NewLog(n.log, m))
    ensures NodeLinked(React(n, AppendEntries(m), now).node)
  {
    hide React, Implement, AppendCrashes, Accepts, Rewind, CommitActions, Stored, NodeLinked, Linked;
    var f := Receiver(n, m.term);
    SameLogSelf(n.log);
    NodeSame(n, f);
    if Reaches(n, m) {
      AppendOutcome(n, m, now);
      if !Accepts(f, m) {
        NodeSame(f, Heard(f, m, now));
      } else {
        AcceptsInRange(f, m);
        StoredLinked(f, m, now);
        if AppendCrashes(f, m) {
          NodeSame(f, f.(halted := true));
        } else {
          CommitRun(f, m, AppendEntries(m), Stored(f, m, now), now);
          NodeSame(Stored(f, m, now), React(n, AppendEntries(m), now).node);
        }
      }
    } else {
      AppendRefused(n, m, now);
    }
  }

  lemma OtherLinked(n: NodeState, ev: Event, now: int)
    requires !n.halted && NodeLinked(n) && !ev.StateChanged? && !ev.AppendEntries?
    ensures NodeLinked(React(n, ev, now).node)
  {
    hide React, Changed, EffectOf, Linked;
    var k := React(n, ev, now).node;
    OtherConfig(n, ev, now);
    NotReplaced(n, ev);
    if ChangesCluster(n, ev) {
      var e := Changed(n, ev).1;
      ChangedEntry(n, ev);
      LinkedPush(n.log, e);
      PointsAlong(k.log, n.log, n.changeIndex);
    } else if EffectOf(n, ev).Grown? {
      assert k.log == n.log + [k.log[|n.log|]];
      LinkedPush(n.log, k.log[|n.log|]);
      PointsAlong(k.log, n.log, n.changeIndex);
    } else {
      NodeSame(n, k);
    }
  }

  // ----- every run -----

  /** What a node takes over is a stretch of a leader's log that continues its own. */
  lemma TakenLinked(s: System, c: Choice)
    requires Matched(s) && AllLinked(s) && Enabled(s, c) && !c.Reboot? && EventFor(c).AppendEntries?
    ensures var n := s.nodes[Target(c)]; var m := EventFor(c).append;
            Accepts(Receiver(n, m.term), m) ==> Linked(NewLog(n.log, m))
  {
    hide Accepts, Rooted, Quotes, Linked;
    var n := s.nodes[Target(c)];
    var m := EventFor(c).append;
    var f := Receiver(n, m.term);
    TakenPacket(s, c);
    if Accepts(f, m) && |m.entries| > 0 {
      AcceptsInRange(f, m);
      assert PacketMatched(c.packet, s.hist.leaderLog);
      TakenAgrees(n.log, m, s.hist.leaderLog);
      LinkedAlong(NewLog(n.log, m), s.hist.leaderLog[m.term]);
    }
  }

  lemma TargetLinked(s: System, c: Choice)
    requires Matched(s) && AllLinked(s) && Enabled(s, c) && !c.Reboot?
    ensures NodeLinked(Next(s, c).nodes[Target(c)])
  {
    hide React, PacketsOf, Noted, NodeLinked, Matched, Accepts, Linked;
    var n := s.nodes[Target(c)];
    var ev := EventFor(c);
    StepOf(s, c);
    if n.halted {
      DeadStep(n, ev, c.now);
    } else if ev.AppendEntries? {
      TakenLinked(s, c);
      AppendLinked(n, ev.append, c.now);
    } else {
      OtherLinked(n, ev, c.now);
    }
  }

  lemma NextLinked(s: System, c: Choice)
    requires Matched(s) && AllLinked(s)
    ensures AllLinked(Next(s, c))
  {
    hide React, Restart, PacketsOf, VotesCast, Counts, Matched, Linked, PointsAt;
    if !Enabled(s, c) {
    } else if c.Reboot? {
      RestartOutcome(s.nodes[c.node], c.lastHeard, c.now);
    } else {
      StepOf(s, c);
      LogsAfter(s, c);
      TargetLinked(s, c);
    }
  }

  lemma {:induction false} LinkedAlways(s: System, run: seq<Choice>)
    requires Initial(s) && OneLeader(After(s, run).hist)
    ensures AllLinked(After(s, run))
  {
    hide Restart, Next;
    if |run| == 0 {
      forall a | a in s.nodes ensures NodeLinked(s.nodes[a]) {
        RestartOutcome(Blank(a, s.nodes[a].peers, s.nodes[a].minElectionTimeout), s.nodes[a].leaderLastHeard, 0);
      }
    } else {
      var before, c := After(s, run[..|run| - 1]), run[|run| - 1];
      OneLeaderBefore(before, c);
      MatchedAlways(s, run[..|run| - 1]);
      LinkedAlways(s, run[..|run| - 1]);
      NextLinked(before, c);
    }
  }

  /** In every state of every run in which no term has had two leaders, the search for the
      configuration that survives a truncation ends, wherever the log is cut. */
  lemma SearchAlwaysEnds(s: System, run: seq<Choice>, a: Address, prev: int)
    requires Initial(s) && OneLeader(After(s, run).hist) && a in After(s, run).nodes
    requires -1 <= prev < |After(s, run).nodes[a].log|
    ensures Rewind(After(s, run).nodes[a].log, prev, Recorded(After(s, run).nodes[a])).Rewound?
  {
    hide After, NodeLinked, Rewind;
    LinkedAlways(s, run);
    LinkedRewindable(After(s, run).nodes[a]);
  }

  /** When the handler of an accepted request dies, in such a run: never in the search, so
      exactly when the announced commit index runs ahead of what the request reaches. */
  lemma HandlerDiesIff(s: System, run: seq<Choice>, a: Address, m: AppendRequest)
    requires Initial(s) && OneLeader(After(s, run).hist) && a in After(s, run).nodes
    requires !After(s, run).nodes[a].halted && Accepts(Receiver(After(s, run).nodes[a], m.term), m)
    ensures var f := Receiver(After(s, run).nodes[a], m.term);
            AppendCrashes(f, m) <==> m.commit > m.prevIndex + |m.entries| + 1 && m.commit > f.commitIndex + 1
  {
    hide After, Rewind, Accepts, EntryFor, NodeLinked;
    var n := After(s, run).nodes[a];
    var f := Receiver(n, m.term);
    AcceptsInRange(f, m);
    BoundsAlways(s, run, a);
    SearchAlwaysEnds(s, run, a, m.prevIndex);
    assert Recorded(f) == Recorded(n) && f.log == n.log;
    WalkEscapesIff(f, m);
  }
}
