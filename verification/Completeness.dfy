/** What the code's own rules leave to be assumed for Leader Completeness (section 5.4.3 of
    the Raft paper), and that it then holds: an entry that a quorum has held in the term of
    its leader is in the log of every leader of a later term. */
module Completeness {
  import opened Types
  import opened Rules
  import opened Interpreter
  import opened Reactions
  import opened Effects
  import opened Network
  import opened TermOrder
  import opened Leadership
  import opened LogMatching
  import opened Safety
  import opened CommitAgreement
  import opened Elections

  /** The log starts with `p`, results aside. */
  ghost predicate Contains(log: seq<LogEntry>, p: seq<LogEntry>) {
    AgreeUpTo(p, log, |p|)
  }

  /** `v` holds `p` while it is in term `t`. */
  ghost predicate HoldsIn(s: System, v: Address, t: int, p: seq<LogEntry>) {
    v in s.nodes && s.nodes[v].currentTerm == t && Contains(s.nodes[v].log, p)
  }

  /** A request cuts off entries that the follower already shares with the leader of the
      request's term: it was built before the follower got them, and arrives after. */
  ghost predicate Stale(s: System, c: Choice) {
    && Enabled(s, c) && !c.Reboot? && EffectOf(s.nodes[Target(c)], EventFor(c)).Replaced?
    && var m := EventFor(c).append;
       m.term in s.hist.leaderLog
       && AgreeUpTo(s.nodes[Target(c)].log, s.hist.leaderLog[m.term], m.prevIndex + 1 + |m.entries| + 1)
  }

  // ----- candidacies -----

  /** Voters are not behind the terms they voted in, nor candidates behind the terms they ran
      in; what a candidate told about its log is true while the candidacy lasts. */
  ghost predicate Candidacies(s: System) {
    && (forall v, u, c :: (v, u, c) in s.hist.grants ==>
          v in s.nodes && s.nodes[v].currentTerm >= u && c in s.nodes && s.nodes[c].currentTerm >= u)
    && (forall q :: q in s.net && q.VotePacket? ==> Told(s, q))
  }

  ghost predicate Told(s: System, q: Packet)
    requires q.VotePacket?
  {
    && q.vote.candidate in s.nodes
    && var n := s.nodes[q.vote.candidate];
       q.vote.term <= n.currentTerm && (n.role.Candidate? && n.currentTerm == q.vote.term ==> SameLog(q.view, n.log))
  }

  /** What a step does to a node that is a candidate afterwards. */
  lemma CandidateAfter(n: NodeState, ev: Event, now: int)
    requires !ev.StateChanged? && React(n, ev, now).node.role.Candidate?
    ensures var k := React(n, ev, now).node;
            && SameLog(n.log, k.log)
            && (if n.role.Candidate? then k.currentTerm == n.currentTerm else k.currentTerm == n.currentTerm + 1)
  {
    hide React, EffectOf, Wins;
    SameLogSelf(n.log);
    if n.halted { DeadStep(n, ev, now); } else { Effect(n, ev, now); }
  }

  lemma TargetTerm(s: System, c: Choice)
    requires HistoryHolds(s)
    ensures Next(s, c).nodes.Keys == s.nodes.Keys
    ensures forall a :: a in s.nodes ==> Next(s, c).nodes[a].currentTerm >= s.nodes[a].currentTerm
    ensures forall a :: a in s.nodes && Next(s, c).nodes[a].role.Candidate? ==>
              && SameLog(s.nodes[a].log, Next(s, c).nodes[a].log)
              && (if s.nodes[a].role.Candidate? then Next(s, c).nodes[a].currentTerm == s.nodes[a].currentTerm
                  else Next(s, c).nodes[a].currentTerm == s.nodes[a].currentTerm + 1)
  {
    hide React, Restart, PacketsOf, Noted, LedBehind, OnRecord, Wins;
    SameKeys(s, c);
    forall a | a in s.nodes ensures SameLog(s.nodes[a].log, s.nodes[a].log) { SameLogSelf(s.nodes[a].log); }
    if !Enabled(s, c) {
    } else if c.Reboot? {
      RestartOutcome(s.nodes[c.node], c.lastHeard, c.now);
    } else {
      StepOf(s, c);
      StepRole(s.nodes[Target(c)], EventFor(c), c.now);
      if React(s.nodes[Target(c)], EventFor(c), c.now).node.role.Candidate? {
        CandidateAfter(s.nodes[Target(c)], EventFor(c), c.now);
      }
    }
  }

  lemma ToldStill(s: System, c: Choice, q: Packet)
    requires HistoryHolds(s) && q.VotePacket? && Told(s, q)
    ensures Told(Next(s, c), q)
  {
    hide Next;
    TargetTerm(s, c);
    var a := q.vote.candidate;
    var n, k := s.nodes[a], Next(s, c).nodes[a];
    if k.role.Candidate? && k.currentTerm == q.vote.term { SameLogTrans(q.view, n.log, k.log); }
  }

  lemma SameLogTrans(a: seq<LogEntry>, b: seq<LogEntry>, c: seq<LogEntry>)
    requires SameLog(a, b) && SameLog(b, c)
    ensures SameLog(a, c)
  {
  }

  lemma ToldFirst(s: System, c: Choice, q: Packet)
    requires HistoryHolds(s) && Enabled(s, c) && !c.Reboot? && q in Next(s, c).net && q !in s.net && q.VotePacket?
    ensures Told(Next(s, c), q)
  {
    hide React, Next, PacketsOf, Noted;
    var i := NewPacket(s, c, q);
    StepOf(s, c);
    SameLogSelf(q.view);
  }

  /** Where a vote on record comes from: a candidate's own, or the answer to a request that
      was on the network. */
  lemma NewGrant(s: System, c: Choice, v: Address, u: int, a: Address)
    requires HistoryHolds(s) && Enabled(s, c) && !c.Reboot?
    requires (v, u, a) in Next(s, c).hist.grants && (v, u, a) !in s.hist.grants
    ensures v == Target(c)
    ensures var n := s.nodes[v]; var k := Next(s, c).nodes[v];
            || (a == v && !n.role.Candidate? && k.role.Candidate? && k.currentTerm == u)
            || (c.Deliver? && c.packet.VotePacket? && c.packet in s.net && c.packet.vote.term == u && c.packet.vote.candidate == a
                && k.role.Follower? && k.currentTerm == u
                && !n.halted && VoteReaches(n, c.packet.vote) && GrantsVote(Receiver(n, u), c.packet.vote, c.now))
  {
    hide React, Next, PacketsOf, Tally, GrantsVote;
    var n := s.nodes[Target(c)];
    var ev := EventFor(c);
    var o := React(n, ev, c.now);
    GrantsAfter(s, c);
    StepOf(s, c);
    if n.halted { DeadStep(n, ev, c.now); }
    if ev.RequestVote? && Granted(o.out) {
      Outputs(n, ev, c.now);
      GrantLeavesFollower(n, ev.vote, c.now);
    }
  }

  lemma GrantLeavesFollower(n: NodeState, m: VoteRequest, now: int)
    ensures VoteReaches(n, m) && GrantsVote(Receiver(n, m.term), m, now) ==>
              var k := Voted(Receiver(n, m.term), m, now); k.role.Follower? && k.currentTerm == m.term
  {
    hide UpToDate;
  }

  lemma NextCandidacies(s: System, c: Choice)
    requires HistoryHolds(s) && Candidacies(s)
    ensures Candidacies(Next(s, c))
  {
    hide React, PacketsOf, VotesCast, Next, Told, GrantsVote;
    var s' := Next(s, c);
    TargetTerm(s, c);
    NetAndGrants(s, c);
    forall v, u, a | (v, u, a) in s'.hist.grants
      ensures v in s'.nodes && s'.nodes[v].currentTerm >= u && a in s'.nodes && s'.nodes[a].currentTerm >= u
    {
      if (v, u, a) !in s.hist.grants {
        NewGrant(s, c, v, u, a);
        if c.Deliver? && c.packet.VotePacket? && c.packet.vote.candidate == a { ToldMeans(s, c.packet); }
      }
    }
    forall q | q in s'.net && q.VotePacket? ensures Told(s', q) {
      if q in s.net { ToldStill(s, c, q); } else { ToldFirst(s, c, q); }
    }
  }

  lemma ToldMeans(s: System, q: Packet)
    requires q.VotePacket?
    ensures Told(s, q) ==> q.vote.candidate in s.nodes && q.vote.term <= s.nodes[q.vote.candidate].currentTerm
  {
  }

  /** A step that is not possible, or a restart, sends nothing and records nothing. */
  lemma NetAndGrants(s: System, c: Choice)
    ensures !Enabled(s, c) || c.Reboot? ==> Next(s, c).net == s.net && Next(s, c).hist == s.hist
    ensures s.hist.grants <= Next(s, c).hist.grants && s.net <= Next(s, c).net
  {
    hide React, Restart, PacketsOf, VotesCast;
  }

  lemma {:induction false} CandidaciesAlways(s: System, run: seq<Choice>)
    requires Initial(s)
    ensures Candidacies(After(s, run))
  {
    hide Next, Restart;
    if |run| > 0 {
      HistoryAlways(s, run[..|run| - 1]);
      CandidaciesAlways(s, run[..|run| - 1]);
      NextCandidacies(After(s, run[..|run| - 1]), run[|run| - 1]);
    }
  }

  // ----- what a quorum has held is kept -----

  /** Later leaders hold `p`; so does everybody in `h`, and so does any candidate of a later
      term with a vote from `h`; and no later leader's entries on the network end before it. */
  ghost predicate LeadersKeep(s: System, t: int, p: seq<LogEntry>) {
    forall u :: u in s.hist.leaderLog && u > t ==> Contains(s.hist.leaderLog[u], p)
  }

  ghost predicate HoldersKeep(s: System, h: set<Address>, t: int, p: seq<LogEntry>) {
    forall v :: v in h ==> v in s.nodes && s.nodes[v].currentTerm >= t && Contains(s.nodes[v].log, p)
  }

  ghost predicate CandidatesKeep(s: System, h: set<Address>, t: int, p: seq<LogEntry>) {
    forall v, u, a ::
      (v, u, a) in s.hist.grants && u > t && v in h && a in s.nodes && s.nodes[a].role.Candidate? && s.nodes[a].currentTerm == u ==>
        Contains(s.nodes[a].log, p)
  }

  ghost predicate RequestsReach(s: System, t: int, p: seq<LogEntry>) {
    forall q :: q in s.net && q.AppendPacket? && q.append.term > t && |q.append.entries| > 0 ==>
      q.append.prevIndex + 1 + |q.append.entries| >= |p|
  }

  ghost predicate Secured(s: System, h: set<Address>, t: int, p: seq<LogEntry>) {
    LeadersKeep(s, t, p) && HoldersKeep(s, h, t, p) && CandidatesKeep(s, h, t, p) && RequestsReach(s, t, p)
  }

  /** A prefix that ends with an entry of term `t`. */
  ghost predicate EndsIn(p: seq<LogEntry>, t: int) {
    |p| > 0 && p[|p| - 1].term == t
  }

  /** Everything that earlier modules establish about a reachable state. */
  ghost predicate Sound(s: System) {
    HistoryHolds(s) && AllOrdered(s) && Matched(s) && Candidacies(s)
  }

  lemma ContainsAlong(a: seq<LogEntry>, b: seq<LogEntry>, p: seq<LogEntry>, k: int)
    requires Contains(a, p) && AgreeUpTo(a, b, k) && |p| <= k
    ensures Contains(b, p)
  {
  }

  lemma ContainsPrefixOf(a: seq<LogEntry>, b: seq<LogEntry>, p: seq<LogEntry>, k: int)
    requires Contains(b, p) && AgreeUpTo(a, b, k) && |p| <= k
    ensures Contains(a, p)
  {
  }

  lemma ContainsSame(a: seq<LogEntry>, b: seq<LogEntry>, p: seq<LogEntry>)
    requires Contains(a, p) && SameLog(a, b)
    ensures Contains(b, p)
  {
  }

  // -- holders --

  /** The leader of term `t` holds what a node holds of it. */
  lemma RootHolds(log: seq<LogEntry>, logs: LeaderLogs, t: int, p: seq<LogEntry>)
    requires Rooted(log, logs) && Contains(log, p) && EndsIn(p, t)
    ensures t in logs && AgreeUpTo(log, logs[t], |p|) && Contains(logs[t], p)
  {
    assert Same(p[|p| - 1], log[|p| - 1]);
    assert RootedAt(log, logs, |p| - 1);
  }

  /** A node that holds `p` and is not behind term `t` still holds it after taking a request. */
  lemma HolderTakes(s: System, c: Choice, t: int, p: seq<LogEntry>)
    requires Sound(s) && LeadersKeep(s, t, p) && RequestsReach(s, t, p) && EndsIn(p, t) && !Stale(s, c)
    requires Enabled(s, c) && !c.Reboot? && EffectOf(s.nodes[Target(c)], EventFor(c)).Replaced?
    requires s.nodes[Target(c)].currentTerm >= t && Contains(s.nodes[Target(c)].log, p)
    ensures Contains(React(s.nodes[Target(c)], EventFor(c), c.now).node.log, p)
  {
    hide React, EffectOf, Rooted, Contains, Quotes, Takes, NewLog, AgreeUpTo;
    var n := s.nodes[Target(c)];
    var ev := EventFor(c);
    var logs := s.hist.leaderLog;
    ReplacedIsAppend(n, ev);
    TakenPacket(s, c);
    var m := ev.append;
    AppendTaken(n, m, c.now);
    assert PacketMatched(c.packet, logs);
    TakenAgrees(n.log, m, logs);
    RootHolds(n.log, logs, t, p);
    var reach := m.prevIndex + 1 + |m.entries|;
    if m.term == t {
      if reach < |p| { AgreeLess(n.log, logs[t], reach + 1, |p|); }
    }
    assert reach >= |p| && Contains(logs[m.term], p);
    ContainsPrefixOf(NewLog(n.log, m), logs[m.term], p, reach);
    ContainsSame(NewLog(n.log, m), React(n, ev, c.now).node.log, p);
  }

  /** And after any other step. */
  lemma HolderKeeps(s: System, c: Choice, t: int, p: seq<LogEntry>)
    requires Sound(s) && LeadersKeep(s, t, p) && RequestsReach(s, t, p) && EndsIn(p, t) && !Stale(s, c)
    requires Enabled(s, c) && !c.Reboot? && s.nodes[Target(c)].currentTerm >= t && Contains(s.nodes[Target(c)].log, p)
    ensures Contains(React(s.nodes[Target(c)], EventFor(c), c.now).node.log, p)
  {
    hide React, EffectOf, Contains, Stale, Sound, LeadersKeep, RequestsReach, EndsIn;
    var n := s.nodes[Target(c)];
    var ev := EventFor(c);
    if n.halted {
      DeadStep(n, ev, c.now);
    } else if EffectOf(n, ev).Replaced? {
      HolderTakes(s, c, t, p);
    } else {
      StepOf(s, c);
      Effect(n, ev, c.now);
      GrowthContains(n, ev, React(n, ev, c.now).node, p);
    }
  }

  lemma AgreeLess(a: seq<LogEntry>, b: seq<LogEntry>, j: nat, k: nat)
    requires AgreeUpTo(a, b, k) && j <= k
    ensures AgreeUpTo(a, b, j)
  {
  }

  lemma HoldersStep(s: System, c: Choice, h: set<Address>, t: int, p: seq<LogEntry>)
    requires Sound(s) && Secured(s, h, t, p) && EndsIn(p, t) && !Stale(s, c)
    ensures HoldersKeep(Next(s, c), h, t, p)
  {
    hide React, Restart, PacketsOf, Noted, EffectOf, Contains, Stale, Matched, AllOrdered;
    if !Enabled(s, c) {
    } else if c.Reboot? {
      RestartOutcome(s.nodes[c.node], c.lastHeard, c.now);
    } else {
      var n := s.nodes[Target(c)];
      var ev := EventFor(c);
      TargetTerm(s, c);
      StepOf(s, c);
      if Target(c) in h { HolderKeeps(s, c, t, p); }
    }
  }

  lemma GrowthContains(n: NodeState, ev: Event, k: NodeState, p: seq<LogEntry>)
    requires EffectHolds(n, ev, k) && !EffectOf(n, ev).Replaced? && Contains(n.log, p)
    ensures Contains(k.log, p)
  {
    if EffectOf(n, ev).Grown? {
      assert forall i :: 0 <= i < |n.log| ==> k.log[i] == n.log[i];
    }
  }

  // -- requests --

  lemma RequestsStep(s: System, c: Choice, h: set<Address>, t: int, p: seq<LogEntry>)
    requires Sound(s) && Secured(s, h, t, p)
    ensures RequestsReach(Next(s, c), t, p)
  {
    hide React, PacketsOf, Noted, Next, RequestFor, Rooted, PacketMatched;
    NetAndGrants(s, c);
    forall q | q in Next(s, c).net && q.AppendPacket? && q.append.term > t && |q.append.entries| > 0
      ensures q.append.prevIndex + 1 + |q.append.entries| >= |p|
    {
      if q !in s.net {
        var i := NewPacket(s, c, q);
        var n := s.nodes[Target(c)];
        assert EventFor(c).Timeout?;
        RequestCovers(n, Lookup(n.nextIndex, q.dest));
        assert Contains(s.hist.leaderLog[n.currentTerm], p);
      }
    }
  }

  // -- candidates --

  /** The election restriction carries `p` from the voter to the candidate. */
  lemma VoteCarries(n: NodeState, q: Packet, logs: LeaderLogs, t: int, p: seq<LogEntry>)
    requires NodeOrdered(n) && Rooted(n.log, logs) && q.VotePacket? && PacketMatched(q, logs)
    requires UpToDate(n, q.vote) && Contains(n.log, p) && EndsIn(p, t)
    requires forall u :: u in logs && u > t ==> Contains(logs[u], p)
    ensures Contains(q.view, p)
  {
    hide Rooted;
    var last := n.log[|n.log| - 1].term;
    assert Same(p[|p| - 1], n.log[|p| - 1]);
    assert last >= t >= 0;
    if q.vote.lastTerm > last {
      LaterLastTerm(n.log, q.view, logs, t, p);
    } else {
      UpToDateMeans(n, q.vote);
      RootedMatchUpTo(n.log, q.view, logs);
    }
  }

  /** A log whose last entry is of a term after `t` reaches past `p`. */
  lemma LaterLastTerm(log: seq<LogEntry>, view: seq<LogEntry>, logs: LeaderLogs, t: int, p: seq<LogEntry>)
    requires Ordered(log) && Contains(log, p) && EndsIn(p, t)
    requires Rooted(view, logs) && |view| > 0 && view[|view| - 1].term > t
    requires forall u :: u in logs && u > t ==> Contains(logs[u], p)
    ensures Contains(view, p)
  {
    var i := |view| - 1;
    assert RootedAt(view, logs, i);
    var u := view[i].term;
    assert Contains(logs[u], p);
    if i < |p| {
      assert Same(p[i], logs[u][i]) && Same(view[i], logs[u][i]) && Same(p[i], log[i]) && Same(p[|p| - 1], log[|p| - 1]);
    }
  }

  /** A vote just granted by a holder goes to a candidate that holds `p`. */
  lemma FreshVote(s: System, c: Choice, h: set<Address>, t: int, p: seq<LogEntry>, v: Address, u: int, a: Address)
    requires Sound(s) && Secured(s, h, t, p) && EndsIn(p, t) && Enabled(s, c) && !c.Reboot?
    requires (v, u, a) in Next(s, c).hist.grants && (v, u, a) !in s.hist.grants && u > t && v in h
    requires a in s.nodes && Next(s, c).nodes[a].role.Candidate? && Next(s, c).nodes[a].currentTerm == u
    ensures Contains(Next(s, c).nodes[a].log, p)
  {
    hide Next, Rooted, PacketMatched, Contains, GrantsVote, UpToDate, NodeOrdered, OnRecord, LedBehind;
    NewGrant(s, c, v, u, a);
    TargetTerm(s, c);
    var n := s.nodes[v];
    if a == v {
      ContainsSame(n.log, Next(s, c).nodes[a].log, p);
    } else {
      var q := c.packet;
      GrantUpToDate(Receiver(n, u), q.vote, c.now);
      ReceiverLog(n, u, q.vote);
      assert PacketMatched(q, s.hist.leaderLog) && Told(s, q);
      VoteCarries(n, q, s.hist.leaderLog, t, p);
      UntouchedNode(s, c, a);
      ContainsSame(q.view, s.nodes[a].log, p);
    }
  }

  lemma GrantUpToDate(f: NodeState, m: VoteRequest, now: int)
    requires GrantsVote(f, m, now)
    ensures UpToDate(f, m)
  {
    hide UpToDate;
  }

  lemma ReceiverLog(n: NodeState, u: int, m: VoteRequest)
    ensures UpToDate(Receiver(n, u), m) <==> UpToDate(n, m)
  {
  }

  lemma CandidatesStep(s: System, c: Choice, h: set<Address>, t: int, p: seq<LogEntry>)
    requires Sound(s) && Secured(s, h, t, p) && EndsIn(p, t)
    ensures CandidatesKeep(Next(s, c), h, t, p)
  {
    hide Next, Contains, Matched, AllOrdered, HoldersKeep, LeadersKeep, RequestsReach;
    NetAndGrants(s, c);
    TargetTerm(s, c);
    var s' := Next(s, c);
    forall v, u, a | (v, u, a) in s'.hist.grants && u > t && v in h && a in s'.nodes
        && s'.nodes[a].role.Candidate? && s'.nodes[a].currentTerm == u
      ensures Contains(s'.nodes[a].log, p)
    {
      if (v, u, a) in s.hist.grants {
        assert s.nodes[a].currentTerm >= u;
        ContainsSame(s.nodes[a].log, s'.nodes[a].log, p);
      } else {
        FreshVote(s, c, h, t, p, v, u, a);
      }
    }
  }

  // -- leaders --

  /** Members of `q` either hold `p` already or are not past term `t` yet. */
  ghost predicate Undecided(s: System, q: set<Address>, h: set<Address>, t: int) {
    forall v :: v in q ==> v in h || (v in s.nodes && s.nodes[v].currentTerm <= t)
  }

  lemma LeadersStep(s: System, c: Choice, h: set<Address>, t: int, p: seq<LogEntry>, q: set<Address>, cluster: set<Address>)
    requires Sound(s) && Secured(s, h, t, p) && OneLeader(Next(s, c).hist)
    requires VotesHold(Next(s, c), cluster) && CleanCounts(Next(s, c).hist, cluster) && |cluster| % 2 == 1
    requires Quorum(q, cluster) && Undecided(s, q, h, t)
    ensures LeadersKeep(Next(s, c), t, p)
  {
    hide React, PacketsOf, VotesCast, Counts, Rooted, PacketMatched, Next, Contains, VotesHold, CleanCounts,
         Quorum, Told;
    NetAndGrants(s, c);
    LogsExtend(s, c);
    var logs, logs' := s.hist.leaderLog, Next(s, c).hist.leaderLog;
    forall u | u in logs' && u > t ensures Contains(logs'[u], p) {
      if u in logs {
        LongEnough(logs[u], p);
        ContainsAlong(logs[u], logs'[u], p, |logs[u]|);
      } else {
        NewLeaderKeeps(s, c, h, t, p, q, cluster, u);
      }
    }
  }

  lemma LongEnough(log: seq<LogEntry>, p: seq<LogEntry>)
    requires Contains(log, p)
    ensures |p| <= |log|
  {
  }

  lemma NewLeaderKeeps(s: System, c: Choice, h: set<Address>, t: int, p: seq<LogEntry>, q: set<Address>,
                       cluster: set<Address>, u: int)
    requires Sound(s) && Secured(s, h, t, p)
    requires VotesHold(Next(s, c), cluster) && CleanCounts(Next(s, c).hist, cluster) && |cluster| % 2 == 1
    requires Quorum(q, cluster) && Undecided(s, q, h, t)
    requires u in Next(s, c).hist.leaderLog && u !in s.hist.leaderLog && u > t
    ensures Contains(Next(s, c).hist.leaderLog[u], p)
  {
    hide React, PacketsOf, Noted, Rooted, PacketMatched, Next, Contains, VotesHold, CleanCounts, Quorum, Told,
         Wins, EffectOf, Matched, AllOrdered;
    NetAndGrants(s, c);
    var a := Target(c);
    var n := s.nodes[a];
    var ev := EventFor(c);
    var k := React(n, ev, c.now).node;
    LogsAfter(s, c);
    StepOf(s, c);
    assert k.role.Leader? && k.currentTerm == u;
    if n.halted { DeadStep(n, ev, c.now); }
    Effect(n, ev, c.now);
    assert n.role.Candidate? && n.currentTerm == u && ev.VoteReply?;
    GrantsAfter(s, c);
    NextLeaderOnRecord(s, c, u, a);
    var w := WinnersQuorum(Next(s, c), cluster, u, a);
    QuorumsMeetIffOdd(cluster);
    NonEmpty(q, w, cluster);
    var v :| v in q * w;
    VoteCast(n, ev, React(n, ev, c.now));
    assert (v, u, a) in s.hist.grants && v in h;
    assert Contains(n.log, p);
    NotReplaced(n, ev);
    GrowthContains(n, ev, k, p);
  }

  lemma VoteCast(n: NodeState, ev: Event, o: Outcome)
    requires ev.VoteReply? && o.node.role.Leader?
    ensures VotesCast(n, ev, o) == {}
  {
  }

  lemma NextLeaderOnRecord(s: System, c: Choice, u: int, a: Address)
    requires HistoryHolds(s) && Enabled(s, c) && !c.Reboot? && a == Target(c)
    requires Next(s, c).nodes[a].role.Leader? && Next(s, c).nodes[a].currentTerm == u
    ensures (u, a) in Next(s, c).hist.leaders
  {
    hide Next;
    NextHistory(s, c);
    TargetTerm(s, c);
  }

  lemma NonEmpty(a: set<Address>, b: set<Address>, cluster: set<Address>)
    requires QuorumsMeet(cluster) && Quorum(a, cluster) && Quorum(b, cluster)
    ensures a * b != {}
  {
  }

  // ----- over runs -----

  ghost predicate HeldBy(s: System, run: seq<Choice>, v: Address, t: int, p: seq<LogEntry>) {
    exists i :: 0 <= i <= |run| && HoldsIn(After(s, run[..i]), v, t, p)
  }

  /** Who has held `p` in term `t` by the end of the run. */
  ghost function Keepers(s: System, run: seq<Choice>, t: int, p: seq<LogEntry>): set<Address> {
    set v | v in After(s, run).nodes && HeldBy(s, run, v, t, p)
  }

  ghost predicate NoneStale(s: System, run: seq<Choice>) {
    forall j :: 0 <= j < |run| ==> !Stale(After(s, run[..j]), run[j])
  }

  /** A run in a fixed cluster of odd size, of which every node knows all other members, with
      clean votes. */
  ghost predicate CleanRun(s: System, run: seq<Choice>, cluster: set<Address>) {
    && Initial(s) && NoReconfiguration(run) && |cluster| % 2 == 1
    && (forall a :: a in s.nodes ==> a in cluster && |s.nodes[a].peers| == |cluster| - 1)
    && (forall a, x :: a in s.nodes && x in s.nodes[a].peers ==> x in cluster - {a})
    && (forall a, i, j :: a in s.nodes && 0 <= i < j < |s.nodes[a].peers| ==> s.nodes[a].peers[i] != s.nodes[a].peers[j])
    && OneVote(After(s, run).hist) && CleanCounts(After(s, run).hist, cluster)
  }

  lemma PrefixNext(s: System, run: seq<Choice>, j: nat)
    requires j < |run|
    ensures After(s, run[..j + 1]) == Next(After(s, run[..j]), run[j])
  {
    hide Next;
    assert run[..j + 1][..j] == run[..j];
  }

  lemma {:induction false} TermsGrow(s: System, run: seq<Choice>, i: nat, j: nat)
    requires Initial(s) && i <= j <= |run|
    ensures After(s, run[..i]).nodes.Keys == After(s, run[..j]).nodes.Keys
    ensures forall a :: a in After(s, run[..i]).nodes ==>
              After(s, run[..i]).nodes[a].currentTerm <= After(s, run[..j]).nodes[a].currentTerm
    decreases j
  {
    hide After, Next, Initial;
    if i < j {
      TermsGrow(s, run, i, j - 1);
      PrefixNext(s, run, j - 1);
      HistoryAlways(s, run[..j - 1]);
      TargetTerm(After(s, run[..j - 1]), run[j - 1]);
    }
  }

  lemma CleanBefore(s: System, c: Choice, cluster: set<Address>)
    requires HistoryHolds(s) && CleanCounts(Next(s, c).hist, cluster)
    ensures CleanCounts(s.hist, cluster)
  {
    hide Next, Tally, OnRecord, LedBehind;
    NetAndGrants(s, c);
    if Enabled(s, c) && !c.Reboot? {
      forall a, t
        ensures var tally := Tally(s.hist, a, t);
                && (forall i :: 0 <= i < |tally| ==> tally[i].1 == t && tally[i].0 in cluster - {a})
                && (forall i, j :: 0 <= i < j < |tally| ==> tally[i].0 != tally[j].0)
      {
        TallyAfter(s, c, a, t);
        TallyPart(Tally(s.hist, a, t), Tally(Next(s, c).hist, a, t), a, t, cluster);
      }
    }
  }

  lemma TallyPart(x: seq<(Address, int)>, y: seq<(Address, int)>, a: Address, t: int, cluster: set<Address>)
    requires |x| <= |y| && y[..|x|] == x
    requires forall i :: 0 <= i < |y| ==> y[i].1 == t && y[i].0 in cluster - {a}
    requires forall i, j :: 0 <= i < j < |y| ==> y[i].0 != y[j].0
    ensures forall i :: 0 <= i < |x| ==> x[i].1 == t && x[i].0 in cluster - {a}
    ensures forall i, j :: 0 <= i < j < |x| ==> x[i].0 != x[j].0
  {
    assert forall i :: 0 <= i < |x| ==> x[i] == y[i];
  }

  /** What is clean at the end of a run was clean all along. */
  lemma {:induction false} CleanAllAlong(s: System, run: seq<Choice>, j: nat, cluster: set<Address>)
    requires Initial(s) && j <= |run| && OneLeader(After(s, run).hist) && CleanCounts(After(s, run).hist, cluster)
    ensures OneLeader(After(s, run[..j]).hist) && CleanCounts(After(s, run[..j]).hist, cluster)
    decreases |run| - j
  {
    hide After, Next, Initial, OneLeader, CleanCounts, HistoryHolds;
    if j == |run| {
      assert run[..j] == run;
    } else {
      CleanAllAlong(s, run, j + 1, cluster);
      PrefixNext(s, run, j);
      HistoryAlways(s, run[..j]);
      OneLeaderBefore(After(s, run[..j]), run[j]);
      CleanBefore(After(s, run[..j]), run[j], cluster);
    }
  }

  lemma ReconfigurationPrefix(run: seq<Choice>, j: nat)
    requires j <= |run| && NoReconfiguration(run)
    ensures NoReconfiguration(run[..j])
  {
  }

  lemma SoundAt(s: System, run: seq<Choice>, j: nat)
    requires Initial(s) && j <= |run| && OneLeader(After(s, run[..j]).hist)
    ensures Sound(After(s, run[..j]))
  {
    hide After, Initial, HistoryHolds, AllOrdered, Matched, Candidacies, OneLeader;
    HistoryAlways(s, run[..j]);
    TermOrderAlways(s, run[..j]);
    MatchedAlways(s, run[..j]);
    CandidaciesAlways(s, run[..j]);
  }

  /** A member of a quorum that holds `p` some time, either does so by now or is not past the
      term yet. */
  lemma UndecidedAt(s: System, run: seq<Choice>, j: nat, t: int, p: seq<LogEntry>, q: set<Address>)
    requires Initial(s) && j <= |run| && forall v :: v in q ==> HeldBy(s, run, v, t, p)
    ensures Undecided(After(s, run[..j]), q, Keepers(s, run[..j], t, p), t)
  {
    hide After, Initial, Contains;
    forall v | v in q
      ensures v in Keepers(s, run[..j], t, p) || (v in After(s, run[..j]).nodes && After(s, run[..j]).nodes[v].currentTerm <= t)
    {
      var i :| 0 <= i <= |run| && HoldsIn(After(s, run[..i]), v, t, p);
      if i <= j {
        assert run[..j][..i] == run[..i];
        TermsGrow(s, run, i, j);
      } else {
        TermsGrow(s, run, j, i);
      }
    }
  }

  /** New holders are in term `t`, so none has voted in a later one. */
  lemma KeptMore(s: System, h: set<Address>, h': set<Address>, t: int, p: seq<LogEntry>)
    requires Secured(s, h, t, p) && Candidacies(s)
    requires forall v :: v in h' ==> v in h || HoldsIn(s, v, t, p)
    ensures Secured(s, h', t, p)
  {
    hide Contains, Told, LeadersKeep, RequestsReach;
  }

  lemma KeeperGrows(s: System, run: seq<Choice>, j: nat, t: int, p: seq<LogEntry>, v: Address)
    requires j < |run| && HeldBy(s, run[..j + 1], v, t, p)
    ensures HeldBy(s, run[..j], v, t, p) || HoldsIn(After(s, run[..j + 1]), v, t, p)
  {
    hide After, HoldsIn;
    var i :| 0 <= i <= |run[..j + 1]| && HoldsIn(After(s, run[..j + 1][..i]), v, t, p);
    assert run[..j + 1][..i] == run[..i];
    if i <= j { assert run[..j][..i] == run[..i]; }
  }

  lemma KeptFirst(s: System, t: int, p: seq<LogEntry>)
    requires Initial(s)
    ensures Secured(s, Keepers(s, [], t, p), t, p)
  {
    hide Restart, Contains;
    forall v | v in Keepers(s, [], t, p) ensures HoldsIn(s, v, t, p) {
      var i :| 0 <= i <= 0 && HoldsIn(After(s, [][..i]), v, t, p);
    }
  }

  lemma {:induction false} KeptAlways(s: System, run: seq<Choice>, j: nat, t: int, p: seq<LogEntry>, q: set<Address>, cluster: set<Address>)
    requires CleanRun(s, run, cluster) && NoneStale(s, run) && EndsIn(p, t) && j <= |run|
    requires Quorum(q, cluster) && forall v :: v in q ==> HeldBy(s, run, v, t, p)
    ensures Secured(After(s, run[..j]), Keepers(s, run[..j], t, p), t, p)
    decreases j
  {
    hide After, Next, Initial, OneLeader, CleanCounts, OneVote, Stale, Sound, Secured, Undecided, Keepers,
         Quorum, VotesHold, HeldBy, EndsIn, Candidacies, HoldsIn;
    if j == 0 {
      assert run[..0] == [];
      AfterNone(s);
      KeptFirst(s, t, p);
    } else {
      KeptAlways(s, run, j - 1, t, p, q, cluster);
      var before, c := After(s, run[..j - 1]), run[j - 1];
      var h := Keepers(s, run[..j - 1], t, p);
      ElectionSafety(s, run, cluster);
      PrefixNext(s, run, j - 1);
      CleanAllAlong(s, run, j - 1, cluster);
      CleanAllAlong(s, run, j, cluster);
      SoundAt(s, run, j - 1);
      CandidaciesAlways(s, run[..j]);
      UndecidedAt(s, run, j - 1, t, p, q);
      ReconfigurationPrefix(run, j);
      VotesAlways(s, run[..j], cluster);
      KeptStep(before, c, h, t, p, q, cluster);
      KeepersCover(s, run, j - 1, t, p);
      KeptMore(After(s, run[..j]), h, Keepers(s, run[..j], t, p), t, p);
    }
  }

  lemma AfterNone(s: System)
    ensures After(s, []) == s
  {
  }

  lemma KeepersCover(s: System, run: seq<Choice>, j: nat, t: int, p: seq<LogEntry>)
    requires Initial(s) && j < |run|
    ensures forall v :: v in Keepers(s, run[..j + 1], t, p) ==>
              v in Keepers(s, run[..j], t, p) || HoldsIn(After(s, run[..j + 1]), v, t, p)
  {
    hide After, HoldsIn, HeldBy, Initial;
    TermsGrow(s, run, j, j + 1);
    forall v | v in Keepers(s, run[..j + 1], t, p)
      ensures v in Keepers(s, run[..j], t, p) || HoldsIn(After(s, run[..j + 1]), v, t, p)
    {
      KeeperGrows(s, run, j, t, p, v);
      assert v in After(s, run[..j + 1]).nodes.Keys && v in After(s, run[..j]).nodes;
    }
  }

  lemma KeptStep(s: System, c: Choice, h: set<Address>, t: int, p: seq<LogEntry>, q: set<Address>, cluster: set<Address>)
    requires Sound(s) && Secured(s, h, t, p) && EndsIn(p, t) && !Stale(s, c) && OneLeader(Next(s, c).hist)
    requires VotesHold(Next(s, c), cluster) && CleanCounts(Next(s, c).hist, cluster) && |cluster| % 2 == 1
    requires Quorum(q, cluster) && Undecided(s, q, h, t)
    ensures Secured(Next(s, c), h, t, p)
  {
    hide Next, Sound, EndsIn, Stale, OneLeader, VotesHold, CleanCounts, Quorum, Undecided, LeadersKeep,
         HoldersKeep, CandidatesKeep, RequestsReach;
    HoldersStep(s, c, h, t, p);
    RequestsStep(s, c, h, t, p);
    CandidatesStep(s, c, h, t, p);
    LeadersStep(s, c, h, t, p, q, cluster);
  }

  /** What a quorum has held in the term of its last entry is in the log of every leader of a
      later term. */
  lemma QuorumKept(s: System, run: seq<Choice>, cluster: set<Address>, t: int, p: seq<LogEntry>, q: set<Address>)
    requires CleanRun(s, run, cluster) && NoneStale(s, run) && EndsIn(p, t)
    requires Quorum(q, cluster) && forall v :: v in q ==> HeldBy(s, run, v, t, p)
    ensures forall u :: u in After(s, run).hist.leaderLog && u > t ==> Contains(After(s, run).hist.leaderLog[u], p)
  {
    hide After, CleanRun, NoneStale, EndsIn, Quorum, HeldBy, Contains, Keepers;
    assert run[..|run|] == run;
    KeptAlways(s, run, |run|, t, p, q, cluster);
  }
}
