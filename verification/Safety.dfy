/** Two consequences of Log Matching, over the same runs: what a granted vote says about the
    voter's log, and when an acknowledgement may be trusted. */
module Safety {
  import opened Types
  import opened Rules
  import opened Interpreter
  import opened Reactions
  import opened Effects
  import opened Network
  import opened TermOrder
  import opened Leadership
  import opened LogMatching

  /** The election restriction with content (section 5.4.1 of the Raft paper): a voter that
      grants its vote to a candidate with the same last term holds nothing the candidate did
      not hold when it asked. */
  lemma VoterHoldsPrefix(s: System, run: seq<Choice>, c: Choice)
    requires Initial(s) && OneLeader(After(s, run).hist)
    requires Enabled(After(s, run), c) && c.Deliver? && c.packet.VotePacket?
    requires var n := After(s, run).nodes[c.packet.dest];
             && Granted(React(n, RequestVote(c.packet.vote), c.now).out)
             && |n.log| > 0 && n.log[|n.log| - 1].term == c.packet.vote.lastTerm
    ensures var n := After(s, run).nodes[c.packet.dest]; AgreeUpTo(n.log, c.packet.view, |n.log|)
  {
    hide After, React, Rooted, AgreeUpTo, UpToDate, RoleHolds, EffectHolds, Receiver, VoteReaches;
    var t := After(s, run);
    var p := c.packet;
    var n := t.nodes[p.dest];
    var m := p.vote;
    MatchedAlways(s, run);
    TermOrderAlways(s, run);
    if n.halted { DeadStep(n, RequestVote(m), c.now); }
    ReceiverKeeps(n, m.term);
    Outputs(n, RequestVote(m), c.now);
    assert GrantsVote(Receiver(n, m.term), m, c.now);
    UpToDateMeans(Receiver(n, m.term), m);
    assert PacketMatched(p, t.hist.leaderLog);
    ViewHasLast(p, t.hist.leaderLog, t.nodes[p.dest]);
    RootedMatchUpTo(n.log, p.view, t.hist.leaderLog);
  }

  lemma UpToDateMeans(f: NodeState, m: VoteRequest)
    requires UpToDate(f, m) && |f.log| > 0 && f.log[|f.log| - 1].term == m.lastTerm
    ensures m.lastIndex >= |f.log| - 1
  {
  }

  lemma ViewHasLast(p: Packet, logs: LeaderLogs, n: NodeState)
    requires p.VotePacket? && PacketMatched(p, logs)
    requires |n.log| > 0 && p.vote.lastIndex >= |n.log| - 1 && n.log[|n.log| - 1].term == p.vote.lastTerm
    ensures |p.view| >= |n.log| && p.view[|p.view| - 1].term == n.log[|n.log| - 1].term && Rooted(p.view, logs)
  {
  }

  /** Rooted logs with the same last term: the shorter is a prefix of the longer. */
  lemma RootedMatchUpTo(a: seq<LogEntry>, b: seq<LogEntry>, logs: LeaderLogs)
    requires Rooted(a, logs) && Rooted(b, logs)
    requires 0 < |a| <= |b| && a[|a| - 1].term == b[|b| - 1].term
    ensures AgreeUpTo(a, b, |a|)
  {
    assert RootedAt(a, logs, |a| - 1) && RootedAt(b, logs, |b| - 1);
  }

  /** A success reply to a routine request of the same leadership. */
  ghost predicate Acknowledges(n: NodeState, p: Packet) {
    && p.AppendAnswerPacket? && p.ack.success && p.routine
    && !n.halted && n.role.Leader? && n.currentTerm == p.append.term && p.ack.term <= n.currentTerm
  }

  /** The leader notes that the peer holds its whole log. That is right when the log has not
      grown since the request was built; for a request that carried entries it is right only
      then. */
  lemma AcknowledgementSound(s: System, run: seq<Choice>, c: Choice)
    requires Initial(s) && OneLeader(After(s, run).hist)
    requires Enabled(After(s, run), c) && c.Deliver? && Acknowledges(After(s, run).nodes[c.packet.dest], c.packet)
    ensures var n := After(s, run).nodes[c.packet.dest]; var p := c.packet;
            && Lookup(Next(After(s, run), c).nodes[p.dest].matchIndex, p.ack.address) == LastIndex(n)
            && (|n.log| == |p.view| ==> AgreeUpTo(p.held, n.log, |n.log|))
            && (|p.append.entries| > 0 ==> (AgreeUpTo(p.held, n.log, |n.log|) <==> |n.log| == |p.view|))
  {
    hide After, React, Implement, NewCommit, AdvanceList;
    var t := After(s, run);
    var p := c.packet;
    var n := t.nodes[p.dest];
    MatchedAlways(s, run);
    StepOf(t, c);
    AppendReplyOutcome(n, p.ack, c.now);
    AcknowledgedRun(n, p.ack, Acknowledged(n, p.ack), c.now);
    assert PacketMatched(p, t.hist.leaderLog);
    TrustedView(n, p, t.hist.leaderLog);
  }

  lemma TrustedView(n: NodeState, p: Packet, logs: LeaderLogs)
    requires Acknowledges(n, p) && PacketMatched(p, logs)
    requires n.currentTerm in logs && SameLog(n.log, logs[n.currentTerm])
    ensures |p.view| <= |n.log|
    ensures |n.log| == |p.view| ==> AgreeUpTo(p.held, n.log, |n.log|)
    ensures |p.append.entries| > 0 ==> (AgreeUpTo(p.held, n.log, |n.log|) <==> |n.log| == |p.view|)
  {
  }
}
