/** Where commit index and last-applied index can be, over every run; what that settles about
    the deaths of a node. */
module Bounds {
  import opened Types
  import opened Rules
  import opened Interpreter
  import opened Reactions
  import opened Effects
  import opened Outcomes
  import opened Network
  import opened Replay
  import opened Discipline

  /** Neither index of a living node is below -1. */
  predicate Bounded(n: NodeState) {
    n.halted || (n.commitIndex >= -1 && n.lastApplied >= -1)
  }

  lemma AppendBounded(n: NodeState, m: AppendRequest, now: int)
    requires !n.halted && Bounded(n)
    ensures Bounded(React(n, AppendEntries(m), now).node)
  {
    hide React, Takes, Stored, Rewind;
    if Takes(n, m) {
      FollowerApplies(n, m, now);
    } else {
      NotTakenKeep(n, m, now);
    }
  }

  lemma ReplyBounded(n: NodeState, r: AppendAnswer, now: int)
    requires !n.halted && Bounded(n) && Applies(n, AppendReply(r))
    ensures Bounded(React(n, AppendReply(r), now).node)
  {
    hide React, NewCommit;
    LeaderApplies(n, r, now);
    CommitNotBack(n, r);
  }

  lemma StepBounded(n: NodeState, ev: Event, now: int)
    requires Bounded(n) && !ev.StateChanged?
    ensures Bounded(React(n, ev, now).node)
  {
    hide React;
    if n.halted {
      DeadStep(n, ev, now);
    } else if ev.AppendEntries? {
      AppendBounded(n, ev.append, now);
    } else if Applies(n, ev) {
      ReplyBounded(n, ev.ack, now);
    } else {
      OthersKeep(n, ev, now);
    }
  }

  /** In every reachable state. */
  lemma {:induction false} BoundsAlways(s: System, run: seq<Choice>, a: Address)
    requires Initial(s) && a in After(s, run).nodes
    ensures Bounded(After(s, run).nodes[a])
  {
    hide React, Restart, PacketsOf, Noted;
    if |run| == 0 {
      RestartOutcome(Blank(a, s.nodes[a].peers, s.nodes[a].minElectionTimeout), s.nodes[a].leaderLastHeard, 0);
    } else {
      var before, c := After(s, run[..|run| - 1]), run[|run| - 1];
      if Enabled(before, c) && a == Target(c) {
        BoundsAlways(s, run[..|run| - 1], a);
        if c.Reboot? {
          RestartOutcome(before.nodes[a], c.lastHeard, c.now);
        } else {
          StepOf(before, c);
          StepBounded(before.nodes[a], EventFor(c), c.now);
        }
      } else {
        if Enabled(before, c) && !c.Reboot? { StepOf(before, c); }
        BoundsAlways(s, run[..|run| - 1], a);
      }
    }
  }

  /** What kills a node, in every reachable state and with no hypothesis. */
  lemma DiesInRunsIff(s: System, run: seq<Choice>, a: Address, ev: Event, now: int)
    requires Initial(s) && a in After(s, run).nodes && !After(s, run).nodes[a].halted && !ev.StateChanged?
    ensures var n := After(s, run).nodes[a];
            n.commitIndex >= -1 && n.lastApplied >= -1 && (React(n, ev, now).node.halted <==> Dies(n, ev))
  {
    hide After, React, Dies;
    BoundsAlways(s, run, a);
    DiesIff(After(s, run).nodes[a], ev, now);
  }
}
