/** Who has led which term: what the history of a run says about the nodes as they stand. */
module Leadership {
  import opened Types
  import opened Interpreter
  import opened Reactions
  import opened Effects
  import opened Network
  import opened TermOrder

  /** A node that has led a term is still in that term or past it, and is not a candidate
      there again; so nobody wins the same term twice. */
  ghost predicate LedBehind(s: System) {
    forall t, a :: (t, a) in s.hist.leaders ==>
      && a in s.nodes && s.nodes[a].currentTerm >= t
      && (s.nodes[a].currentTerm == t ==> !s.nodes[a].role.Candidate?)
  }

  /** Every term with a leader log has a leader on record, and every sitting leader is on
      record for its term. */
  ghost predicate OnRecord(s: System) {
    && (forall t :: t in s.hist.leaderLog ==> exists a :: (t, a) in s.hist.leaders)
    && (forall a :: a in s.nodes && s.nodes[a].role.Leader? ==>
          (s.nodes[a].currentTerm, a) in s.hist.leaders && s.nodes[a].currentTerm in s.hist.leaderLog)
  }

  ghost predicate HistoryHolds(s: System) {
    Addressed(s) && LedBehind(s) && OnRecord(s)
  }

  /** No term has had two leaders. */
  ghost predicate OneLeader(h: History) {
    forall t, a, b :: (t, a) in h.leaders && (t, b) in h.leaders ==> a == b
  }

  lemma StepRole(n: NodeState, ev: Event, now: int)
    requires !ev.StateChanged?
    ensures RoleHolds(n, ev, React(n, ev, now).node) || (n.halted && React(n, ev, now).node == n)
  {
    hide React, EffectOf, RoleHolds, EffectHolds;
    if n.halted { DeadStep(n, ev, now); } else { Effect(n, ev, now); }
  }

  lemma NextHistory(s: System, c: Choice)
    requires HistoryHolds(s)
    ensures HistoryHolds(Next(s, c))
  {
    hide Next, LedBehind, OnRecord;
    NextBehind(s, c);
    NextRecord(s, c);
  }

  lemma NextBehind(s: System, c: Choice)
    requires HistoryHolds(s)
    ensures Addressed(Next(s, c)) && LedBehind(Next(s, c))
  {
    hide React, Restart, PacketsOf, VotesCast, Counts, Wins, Tally;
    if !Enabled(s, c) {
    } else if c.Reboot? {
      RestartOutcome(s.nodes[c.node], c.lastHeard, c.now);
    } else {
      StepOf(s, c);
      StepRole(s.nodes[Target(c)], EventFor(c), c.now);
    }
  }

  lemma NextRecord(s: System, c: Choice)
    requires HistoryHolds(s)
    ensures OnRecord(Next(s, c))
  {
    hide React, Restart, PacketsOf, VotesCast, Counts, Wins, Tally, LedBehind;
    if !Enabled(s, c) {
    } else if c.Reboot? {
      RestartOutcome(s.nodes[c.node], c.lastHeard, c.now);
    } else {
      StepOf(s, c);
      StepRole(s.nodes[Target(c)], EventFor(c), c.now);
    }
  }

  lemma {:induction false} HistoryAlways(s: System, run: seq<Choice>)
    requires Initial(s)
    ensures HistoryHolds(After(s, run))
  {
    if |run| == 0 {
      forall a | a in s.nodes ensures s.nodes[a].address == a && s.nodes[a].role.Follower? {
        RestartOutcome(Blank(a, s.nodes[a].peers, s.nodes[a].minElectionTimeout), s.nodes[a].leaderLastHeard, 0);
      }
    } else {
      HistoryAlways(s, run[..|run| - 1]);
      NextHistory(After(s, run[..|run| - 1]), run[|run| - 1]);
    }
  }

  /** A history without two leaders in a term had none before either. */
  lemma OneLeaderBefore(s: System, c: Choice)
    requires OneLeader(Next(s, c).hist)
    ensures OneLeader(s.hist)
  {
    hide React, Restart, PacketsOf, VotesCast, Counts;
    assert s.hist.leaders <= Next(s, c).hist.leaders;
  }

  /** A candidacy that wins wins a term nobody has led, unless it becomes a second leader. */
  lemma FreshTerm(s: System, c: Choice)
    requires HistoryHolds(s) && OneLeader(Next(s, c).hist)
    requires Enabled(s, c) && !c.Reboot?
    requires s.nodes[Target(c)].role.Candidate? && Next(s, c).nodes[Target(c)].role.Leader?
    ensures s.nodes[Target(c)].currentTerm !in s.hist.leaderLog
  {
    hide React, PacketsOf, VotesCast, Counts, Wins;
    var n := s.nodes[Target(c)];
    StepOf(s, c);
    StepRole(n, EventFor(c), c.now);
    var h' := Next(s, c).hist;
    assert (n.currentTerm, Target(c)) in h'.leaders && s.hist.leaders <= h'.leaders;
    assert forall b :: b != Target(c) ==> (n.currentTerm, b) !in h'.leaders;
    assert (n.currentTerm, Target(c)) !in s.hist.leaders;
  }
}
