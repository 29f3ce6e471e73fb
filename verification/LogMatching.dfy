/** Log Matching, over every run in which no term has had two leaders. The proof relates
    every log, and every request on the network, to the log of the leader of each term. */
module LogMatching {
  import opened Types
  import opened Rules
  import opened Interpreter
  import opened Reactions
  import opened Effects
  import opened Network
  import opened TermOrder
  import opened Leadership

  type LeaderLogs = map<int, seq<LogEntry>>

  /** Up to and including entry `i`, the log is the one of the leader of that entry's term. */
  ghost predicate RootedAt(log: seq<LogEntry>, logs: LeaderLogs, i: int)
    requires 0 <= i < |log|
  {
    log[i].term in logs && AgreeUpTo(log, logs[log[i].term], i + 1)
  }

  ghost predicate Rooted(log: seq<LogEntry>, logs: LeaderLogs) {
    forall i :: 0 <= i < |log| ==> RootedAt(log, logs, i)
  }

  /** The request quotes a stretch of `log`, and the entry just before it. */
  ghost predicate Quotes(m: AppendRequest, log: seq<LogEntry>) {
    && 0 <= m.prevIndex + 1 && m.prevIndex + 1 + |m.entries| <= |log|
    && (m.prevIndex >= 0 ==> m.prevTerm == log[m.prevIndex].term)
    && forall j :: 0 <= j < |m.entries| ==> Same(m.entries[j], log[m.prevIndex + 1 + j])
  }

  /** Leader logs only ever grow. */
  ghost predicate Extends(old': LeaderLogs, new': LeaderLogs) {
    forall t :: t in old' ==> t in new' && AgreeUpTo(old'[t], new'[t], |old'[t]|)
  }

  ghost predicate PacketMatched(p: Packet, logs: LeaderLogs) {
    match p
    case AppendPacket(_, m, view, routine) =>
      (|m.entries| > 0 || routine) ==>
        m.term in logs && Quotes(m, logs[m.term])
        && (routine ==> AgreeUpTo(view, logs[m.term], |view|) && m.prevIndex + 1 + |m.entries| == |view|)
    case VotePacket(_, m, view) =>
      Rooted(view, logs) && m.lastIndex == |view| - 1
      && m.lastTerm == if |view| > 0 then view[|view| - 1].term else -1
    case AppendAnswerPacket(_, a, m, view, routine, held) =>
      a.success && routine ==>
        && m.term in logs && AgreeUpTo(view, logs[m.term], |view|)
        && AgreeUpTo(held, view, |view|) && (|m.entries| > 0 ==> |held| == |view|)
    case VoteAnswerPacket(_, _, _, _) => true
  }

  ghost predicate Matched(s: System) {
    var logs := s.hist.leaderLog;
    && (forall a :: a in s.nodes ==> Rooted(s.nodes[a].log, logs))
    && (forall t :: t in logs ==> Rooted(logs[t], logs))
    && (forall a :: a in s.nodes && s.nodes[a].role.Leader? ==>
          s.nodes[a].currentTerm in logs && SameLog(s.nodes[a].log, logs[s.nodes[a].currentTerm]))
    && (forall p :: p in s.net ==> PacketMatched(p, logs))
  }

  // ----- agreement -----

  lemma RootedGrows(log: seq<LogEntry>, old': LeaderLogs, new': LeaderLogs)
    requires Rooted(log, old') && Extends(old', new')
    ensures Rooted(log, new')
  {
    forall i | 0 <= i < |log| ensures RootedAt(log, new', i) {
      assert RootedAt(log, old', i);
    }
  }

  lemma RootedSame(a: seq<LogEntry>, b: seq<LogEntry>, logs: LeaderLogs)
    requires Rooted(a, logs) && SameLog(a, b)
    ensures Rooted(b, logs)
  {
    forall i | 0 <= i < |b| ensures RootedAt(b, logs, i) {
      assert RootedAt(a, logs, i);
      assert Same(a[i], b[i]);
    }
  }

  /** A log that follows a rooted one is rooted as far as it follows. */
  lemma RootedPrefix(a: seq<LogEntry>, b: seq<LogEntry>, logs: LeaderLogs)
    requires Rooted(b, logs) && AgreeUpTo(a, b, |a|)
    ensures Rooted(a, logs)
  {
    forall i | 0 <= i < |a| ensures RootedAt(a, logs, i) {
      assert RootedAt(b, logs, i);
      assert Same(a[i], b[i]);
    }
  }

  /** Two rooted logs with equal terms at one index agree up to it. */
  lemma RootedMatch(a: seq<LogEntry>, b: seq<LogEntry>, logs: LeaderLogs, i: int)
    requires Rooted(a, logs) && Rooted(b, logs)
    requires 0 <= i < |a| && i < |b| && a[i].term == b[i].term
    ensures AgreeUpTo(a, b, i + 1)
  {
    assert RootedAt(a, logs, i) && RootedAt(b, logs, i);
  }

  lemma PacketGrows(p: Packet, old': LeaderLogs, new': LeaderLogs)
    requires PacketMatched(p, old') && Extends(old', new')
    ensures PacketMatched(p, new')
  {
    match p
    case AppendPacket(_, m, view, routine) =>
    case VotePacket(_, m, view) => RootedGrows(view, old', new');
    case AppendAnswerPacket(_, _, _, _, _, _) =>
    case VoteAnswerPacket(_, _, _, _) =>
  }

  /** A follower that passes the consistency check against a quoted log holds that log as
      far as the request reaches. */
  lemma TakenAgrees(log: seq<LogEntry>, m: AppendRequest, logs: LeaderLogs)
    requires m.term in logs && Quotes(m, logs[m.term])
    requires Rooted(log, logs) && Rooted(logs[m.term], logs)
    requires -1 <= m.prevIndex < |log| && (m.prevIndex >= 0 ==> log[m.prevIndex].term == m.prevTerm)
    ensures AgreeUpTo(NewLog(log, m), logs[m.term], m.prevIndex + 1 + |m.entries|)
  {
    var target := logs[m.term];
    var k := m.prevIndex + 1;
    if k > 0 { RootedMatch(log, target, logs, m.prevIndex); }
    assert AgreeUpTo(log, target, k);
    if |m.entries| > 0 {
      var new' := log[..k] + m.entries;
      forall i | 0 <= i < k + |m.entries| ensures Same(new'[i], target[i]) {
        if i >= k { assert Same(m.entries[i - k], target[k + (i - k)]); }
      }
    }
  }

  // ----- one step -----

  /** The leader logs after a step: a sitting leader's log is written down. */
  lemma LogsAfter(s: System, c: Choice)
    requires Enabled(s, c) && !c.Reboot?
    ensures var k := Next(s, c).nodes[Target(c)];
            Next(s, c).hist.leaderLog
            == if k.role.Leader? then s.hist.leaderLog[k.currentTerm := k.log] else s.hist.leaderLog
  {
    hide React, PacketsOf, VotesCast, Counts;
    StepOf(s, c);
  }

  lemma LogsExtend(s: System, c: Choice)
    requires HistoryHolds(s) && Matched(s) && OneLeader(Next(s, c).hist)
    ensures Extends(s.hist.leaderLog, Next(s, c).hist.leaderLog)
  {
    hide React, Restart, PacketsOf, VotesCast, Counts, Rooted, PacketMatched;
    if Enabled(s, c) && !c.Reboot? {
      var n := s.nodes[Target(c)];
      var ev := EventFor(c);
      var k := React(n, ev, c.now).node;
      StepOf(s, c);
      LogsAfter(s, c);
      if n.halted {
        DeadStep(n, ev, c.now);
      } else if k.role.Leader? {
        Effect(n, ev, c.now);
        if n.role.Candidate? { FreshTerm(s, c); }
        assert n.role.Leader? ==> AgreeUpTo(n.log, k.log, |n.log|) by { GrownAgrees(n, ev, k); }
      }
    }
  }

  lemma GrownAgrees(n: NodeState, ev: Event, k: NodeState)
    requires EffectHolds(n, ev, k) && k.role.Leader?
    ensures AgreeUpTo(n.log, k.log, |n.log|)
  {
    match EffectOf(n, ev)
    case Kept =>
    case Grown => assert forall i :: 0 <= i < |n.log| ==> k.log[i] == n.log[i];
    case Replaced =>
  }

  lemma GrownRooted(n: NodeState, k: NodeState, logs: LeaderLogs)
    requires Rooted(n.log, logs) && k.currentTerm == n.currentTerm
    requires |k.log| == |n.log| + 1 && k.log[..|n.log|] == n.log && k.log[|n.log|].term == n.currentTerm
    requires k.currentTerm in logs && logs[k.currentTerm] == k.log
    ensures Rooted(k.log, logs)
  {
    forall i | 0 <= i < |k.log| ensures RootedAt(k.log, logs, i) {
      if i < |n.log| {
        assert RootedAt(n.log, logs, i);
        assert forall j :: 0 <= j <= i ==> k.log[j] == n.log[j];
      }
    }
  }

  /** The packet whose request a node takes. */
  lemma TakenPacket(s: System, c: Choice)
    requires Enabled(s, c) && !c.Reboot? && EventFor(c).AppendEntries?
    ensures c.Deliver? && c.packet.AppendPacket? && c.packet in s.net && c.packet.append == EventFor(c).append
  {
  }

  lemma TargetRooted(s: System, c: Choice)
    requires HistoryHolds(s) && Matched(s) && OneLeader(Next(s, c).hist)
    requires Enabled(s, c) && !c.Reboot?
    ensures Rooted(Next(s, c).nodes[Target(c)].log, Next(s, c).hist.leaderLog)
  {
    hide React, PacketsOf, VotesCast, Counts, Rooted, PacketMatched, EffectOf, Quotes;
    var n := s.nodes[Target(c)];
    var ev := EventFor(c);
    var k := React(n, ev, c.now).node;
    var logs := s.hist.leaderLog;
    var logs' := Next(s, c).hist.leaderLog;
    StepOf(s, c);
    LogsAfter(s, c);
    LogsExtend(s, c);
    RootedGrows(n.log, logs, logs');
    if n.halted {
      DeadStep(n, ev, c.now);
    } else {
      Effect(n, ev, c.now);
      match EffectOf(n, ev)
      case Kept => RootedSame(n.log, k.log, logs');
      case Grown => GrownRooted(n, k, logs');
      case Replaced =>
        ReplacedIsAppend(n, ev);
        TakenPacket(s, c);
        ReplacedRooted(n.log, c.packet, logs, logs', k.log);
    }
  }

  lemma ReplacedRooted(log: seq<LogEntry>, p: Packet, logs: LeaderLogs, logs': LeaderLogs, new': seq<LogEntry>)
    requires p.AppendPacket? && PacketMatched(p, logs) && |p.append.entries| > 0
    requires Rooted(log, logs) && Extends(logs, logs') && forall t :: t in logs ==> Rooted(logs[t], logs)
    requires -1 <= p.append.prevIndex < |log| && (p.append.prevIndex >= 0 ==> log[p.append.prevIndex].term == p.append.prevTerm)
    requires SameLog(log[..p.append.prevIndex + 1] + p.append.entries, new')
    ensures Rooted(new', logs')
  {
    hide Rooted;
    var spliced := NewLog(log, p.append);
    TakenAgrees(log, p.append, logs);
    RootedPrefix(spliced, logs[p.append.term], logs);
    RootedGrows(spliced, logs, logs');
    RootedSame(spliced, new', logs');
  }

  lemma LeadersMatched(s: System, c: Choice)
    requires HistoryHolds(s) && Matched(s) && OneLeader(Next(s, c).hist)
    requires Enabled(s, c) && !c.Reboot?
    ensures var s' := Next(s, c);
            forall a :: a in s'.nodes && s'.nodes[a].role.Leader? ==>
              && s'.nodes[a].currentTerm in s'.hist.leaderLog
              && SameLog(s'.nodes[a].log, s'.hist.leaderLog[s'.nodes[a].currentTerm])
  {
    hide React, PacketsOf, VotesCast, Counts, Rooted, PacketMatched;
    StepOf(s, c);
    LogsAfter(s, c);
    NextHistory(s, c);
    var s' := Next(s, c);
    var k := s'.nodes[Target(c)];
    forall a | a in s'.nodes && s'.nodes[a].role.Leader?
      ensures s'.nodes[a].currentTerm in s'.hist.leaderLog
      ensures SameLog(s'.nodes[a].log, s'.hist.leaderLog[s'.nodes[a].currentTerm])
    {
      assert (s'.nodes[a].currentTerm, a) in s'.hist.leaders;
      if a != Target(c) && k.role.Leader? {
        assert (k.currentTerm, Target(c)) in s'.hist.leaders;
        assert k.currentTerm != s'.nodes[a].currentTerm;
      }
    }
  }

  // ----- new packets -----

  /** Packet `p` is new after `c`, and comes from output `i` of the step. */
  ghost predicate SentNow(s: System, c: Choice, p: Packet, i: int) {
    && Enabled(s, c) && !c.Reboot? && p in Next(s, c).net && p !in s.net
    && var n := s.nodes[Target(c)]; var o := React(n, EventFor(c), c.now);
       && !n.halted && 0 <= i < |o.out|
       && OutputHolds(n, EventFor(c), o.node, o.out[i], c.now)
       && Packed(o.out[i], EventFor(c), o.node, CauseOf(c)) == Some(p)
  }

  lemma NewAppendMatched(s: System, c: Choice, p: Packet, i: int)
    requires HistoryHolds(s) && AllOrdered(s) && Matched(s) && OneLeader(Next(s, c).hist)
    requires SentNow(s, c, p, i) && p.AppendPacket?
    ensures PacketMatched(p, Next(s, c).hist.leaderLog)
  {
    hide Honest, Ordered, Below, RequestOrdered, OneLeader, React, PacketsOf, VotesCast, Counts, Rooted,
         PacketMatched, RequestFor, EffectOf, Takes, Next;
    var n := s.nodes[Target(c)];
    var logs := Next(s, c).hist.leaderLog;
    StepOf(s, c);
    if p.routine {
      LeadersMatched(s, c);
      HonestRequest(n, Lookup(n.nextIndex, p.dest));
      RoutineMatched(p, n, logs);
    } else {
      OpeningMatched(p, n, logs);
    }
  }

  lemma NewAnswerMatched(s: System, c: Choice, p: Packet, i: int)
    requires HistoryHolds(s) && AllOrdered(s) && Matched(s) && OneLeader(Next(s, c).hist)
    requires SentNow(s, c, p, i) && p.AppendAnswerPacket?
    ensures PacketMatched(p, Next(s, c).hist.leaderLog)
  {
    hide React, PacketsOf, VotesCast, Counts, Rooted, PacketMatched, RequestFor, EffectOf, Takes, Next;
    var n := s.nodes[Target(c)];
    var s' := Next(s, c);
    StepOf(s, c);
    TakenPacket(s, c);
    if p.ack.success && p.routine {
      AppendTaken(n, p.append, c.now);
      AnswerMatched(n.log, c.packet, s.hist.leaderLog, p);
      LogsExtend(s, c);
      PacketGrows(p, s.hist.leaderLog, s'.hist.leaderLog);
    } else {
      UnansweredMatched(p, s'.hist.leaderLog);
    }
  }

  lemma NewVoteMatched(s: System, c: Choice, p: Packet, i: int)
    requires HistoryHolds(s) && AllOrdered(s) && Matched(s) && OneLeader(Next(s, c).hist)
    requires SentNow(s, c, p, i) && p.VotePacket?
    ensures PacketMatched(p, Next(s, c).hist.leaderLog)
  {
    hide React, PacketsOf, VotesCast, Counts, Rooted, PacketMatched, RequestFor, EffectOf, Takes, Next;
    StepOf(s, c);
    TargetRooted(s, c);
    VoteMatched(p, s.nodes[Target(c)], Next(s, c).hist.leaderLog);
  }

  lemma NewPacketMatched(s: System, c: Choice, p: Packet)
    requires HistoryHolds(s) && AllOrdered(s) && Matched(s) && OneLeader(Next(s, c).hist)
    requires Enabled(s, c) && !c.Reboot? && p in Next(s, c).net && p !in s.net
    ensures PacketMatched(p, Next(s, c).hist.leaderLog)
  {
    hide React, PacketsOf, VotesCast, Counts, Rooted, PacketMatched, OutputHolds, Packed, HistoryHolds,
         AllOrdered, Matched, OneLeader, Next;
    var i := NewPacket(s, c, p);
    match p
    case AppendPacket(_, _, _, _) => NewAppendMatched(s, c, p, i);
    case VotePacket(_, _, _) => NewVoteMatched(s, c, p, i);
    case AppendAnswerPacket(_, _, _, _, _, _) => NewAnswerMatched(s, c, p, i);
    case VoteAnswerPacket(_, _, _, _) => VoteAnswerMatched(p, Next(s, c).hist.leaderLog);
  }

  lemma QuotedRequest(n: NodeState, m: AppendRequest, log: seq<LogEntry>)
    requires SameLog(n.log, log) && Honest(n, m)
    ensures Quotes(m, log) && m.prevIndex + 1 + |m.entries| == |n.log|
  {
  }

  lemma RoutineMatched(p: Packet, n: NodeState, logs: LeaderLogs)
    requires p.AppendPacket? && p.view == n.log && Honest(n, p.append)
    requires n.currentTerm in logs && SameLog(n.log, logs[n.currentTerm])
    ensures PacketMatched(p, logs)
  {
    QuotedRequest(n, p.append, logs[n.currentTerm]);
  }

  lemma OpeningMatched(p: Packet, n: NodeState, logs: LeaderLogs)
    requires p.AppendPacket? && !p.routine && p.append == OpeningHeartbeat(n)
    ensures PacketMatched(p, logs)
  {
  }

  lemma VoteMatched(p: Packet, n: NodeState, logs: LeaderLogs)
    requires p.VotePacket? && p.vote == VoteRequestOf(n) && p.view == n.log && Rooted(n.log, logs)
    ensures PacketMatched(p, logs)
  {
  }

  /** The follower that takes a routine request then holds what the leader held when it
      built the request. */
  lemma AnswerMatched(log: seq<LogEntry>, p: Packet, logs: LeaderLogs, q: Packet)
    requires p.AppendPacket? && p.routine && PacketMatched(p, logs)
    requires Rooted(log, logs) && forall t :: t in logs ==> Rooted(logs[t], logs)
    requires -1 <= p.append.prevIndex < |log| && (p.append.prevIndex >= 0 ==> log[p.append.prevIndex].term == p.append.prevTerm)
    requires q.AppendAnswerPacket? && q.append == p.append && q.view == p.view
    requires SameLog(NewLog(log, p.append), q.held)
    ensures PacketMatched(q, logs)
  {
    hide Rooted;
    TakenAgrees(log, p.append, logs);
    var target := logs[p.append.term];
    assert AgreeUpTo(q.held, target, |p.view|);
    assert AgreeUpTo(target, p.view, |p.view|);
  }

  lemma UnansweredMatched(p: Packet, logs: LeaderLogs)
    requires p.AppendAnswerPacket? && !(p.ack.success && p.routine)
    ensures PacketMatched(p, logs)
  {
  }

  lemma VoteAnswerMatched(p: Packet, logs: LeaderLogs)
    requires p.VoteAnswerPacket?
    ensures PacketMatched(p, logs)
  {
  }

  // ----- every run -----

  lemma NextMatched(s: System, c: Choice)
    requires HistoryHolds(s) && AllOrdered(s) && Matched(s) && OneLeader(Next(s, c).hist)
    ensures Matched(Next(s, c))
  {
    hide React, Restart, PacketsOf, VotesCast, Counts, Rooted, PacketMatched;
    var s' := Next(s, c);
    if !Enabled(s, c) {
    } else if c.Reboot? {
      RestartOutcome(s.nodes[c.node], c.lastHeard, c.now);
    } else {
      StepOf(s, c);
      LogsAfter(s, c);
      LogsExtend(s, c);
      TargetRooted(s, c);
      LeadersMatched(s, c);
      var logs, logs' := s.hist.leaderLog, s'.hist.leaderLog;
      forall a | a in s'.nodes ensures Rooted(s'.nodes[a].log, logs') {
        if a != Target(c) { RootedGrows(s.nodes[a].log, logs, logs'); }
      }
      forall t | t in logs' ensures Rooted(logs'[t], logs') {
        if t in logs { RootedGrows(logs[t], logs, logs'); }
      }
      forall p | p in s'.net ensures PacketMatched(p, logs') {
        if p in s.net { PacketGrows(p, logs, logs'); } else { NewPacketMatched(s, c, p); }
      }
    }
  }

  lemma {:induction false} MatchedAlways(s: System, run: seq<Choice>)
    requires Initial(s) && OneLeader(After(s, run).hist)
    ensures Matched(After(s, run))
  {
    if |run| == 0 {
      forall a | a in s.nodes ensures s.nodes[a].role.Follower? && s.nodes[a].log == [] {
        RestartOutcome(Blank(a, s.nodes[a].peers, s.nodes[a].minElectionTimeout), s.nodes[a].leaderLastHeard, 0);
      }
    } else {
      var before, c := After(s, run[..|run| - 1]), run[|run| - 1];
      OneLeaderBefore(before, c);
      MatchedAlways(s, run[..|run| - 1]);
      HistoryAlways(s, run[..|run| - 1]);
      TermOrderAlways(s, run[..|run| - 1]);
      NextMatched(before, c);
    }
  }

  /** Entries of equal index and term make two logs equal up to there, results aside. */
  ghost predicate Matching(a: seq<LogEntry>, b: seq<LogEntry>) {
    forall i :: 0 <= i < |a| && i < |b| && a[i].term == b[i].term ==> AgreeUpTo(a, b, i + 1)
  }

  /** Log Matching (section 5.3 of the Raft paper), over every run with lost, duplicated and
      reordered messages, restarts and membership changes in which no term has had two
      leaders. */
  lemma LogMatchingProperty(s: System, run: seq<Choice>, a: Address, b: Address)
    requires Initial(s) && OneLeader(After(s, run).hist)
    requires a in After(s, run).nodes && b in After(s, run).nodes
    ensures Matching(After(s, run).nodes[a].log, After(s, run).nodes[b].log)
  {
    hide After, Rooted, AgreeUpTo, PacketMatched;
    MatchedAlways(s, run);
    var t := After(s, run);
    var x, y := t.nodes[a].log, t.nodes[b].log;
    forall i | 0 <= i < |x| && i < |y| && x[i].term == y[i].term ensures AgreeUpTo(x, y, i + 1) {
      RootedMatch(x, y, t.hist.leaderLog, i);
    }
  }
}
