/** How leaderships begin: with a no-operation entry, and with a heartbeat that dates the entry
    before it wrongly. Over every run in which no term has two leaders. */
module Openings {
  import opened Types
  import opened Rules
  import opened Interpreter
  import opened Reactions
  import opened Effects
  import opened Network
  import opened TermOrder
  import opened Leadership
  import opened LogMatching
  import opened CommitAgreement
  import opened Completeness
  import opened Commitment

  // ----- opening heartbeats -----

  /** The log a request speaks for: the leader's when it was built. An opening heartbeat is
      built before the no-operation entry is appended. */
  function Spoken(q: Packet): seq<LogEntry>
    requires q.AppendPacket?
  {
    if q.routine || |q.view| == 0 then q.view else q.view[..|q.view| - 1]
  }

  /** An opening heartbeat names the entry before the no-operation entry, which is of an
      earlier term, but claims its own term for it. */
  ghost predicate OpeningTrue(q: Packet, logs: LeaderLogs)
    requires q.AppendPacket?
  {
    !q.routine ==>
      && q.append.term in logs && |q.view| > 0 && AgreeUpTo(q.view, logs[q.append.term], |q.view|)
      && q.append.entries == [] && q.append.prevIndex == |q.view| - 2 && q.append.prevTerm == q.append.term
      && (q.append.prevIndex >= 0 ==> q.view[q.append.prevIndex].term < q.append.term)
  }

  ghost predicate OpeningsTrue(s: System) {
    forall q :: q in s.net && q.AppendPacket? ==> OpeningTrue(q, s.hist.leaderLog)
  }

  lemma OpeningStays(q: Packet, old': LeaderLogs, new': LeaderLogs)
    requires q.AppendPacket? && OpeningTrue(q, old') && Extends(old', new')
    ensures OpeningTrue(q, new')
  {
  }

  /** A log has no entry of a term nobody has led. */
  lemma EarlierTerms(n: NodeState, logs: LeaderLogs)
    requires Rooted(n.log, logs) && NodeOrdered(n) && n.currentTerm !in logs
    ensures forall i :: 0 <= i < |n.log| ==> n.log[i].term < n.currentTerm
  {
    forall i | 0 <= i < |n.log| ensures n.log[i].term < n.currentTerm { assert RootedAt(n.log, logs, i); }
  }

  lemma NewOpening(s: System, c: Choice, q: Packet)
    requires Sound(s) && OneLeader(Next(s, c).hist) && Enabled(s, c) && !c.Reboot?
    requires q in Next(s, c).net && q !in s.net && q.AppendPacket?
    ensures OpeningTrue(q, Next(s, c).hist.leaderLog)
    ensures !s.nodes[Target(c)].halted && q.append.term == s.nodes[Target(c)].currentTerm
            && q.append.commit == s.nodes[Target(c)].commitIndex && Spoken(q) == s.nodes[Target(c)].log
  {
    hide React, PacketsOf, Noted, Next, Rooted, NodeOrdered, Wins, RequestFor, PacketMatched, Candidacies;
    var i := NewPacket(s, c, q);
    var n := s.nodes[Target(c)];
    var ev := EventFor(c);
    var k := React(n, ev, c.now).node;
    StepOf(s, c);
    if ev.Timeout? {
      RequestCovers(n, Lookup(n.nextIndex, q.dest));
    } else {
      FreshlyCrowned(s, c);
      GreetingTrue(q, n, k, Next(s, c).hist.leaderLog);
    }
  }

  /** A new leader's log: its old one, all of it of earlier terms, and a no-operation entry. */
  lemma FreshlyCrowned(s: System, c: Choice)
    requires Sound(s) && OneLeader(Next(s, c).hist) && Enabled(s, c) && !c.Reboot?
    requires EventFor(c).VoteReply? && Wins(s.nodes[Target(c)], EventFor(c).ballot)
    ensures var n := s.nodes[Target(c)]; var k := React(n, EventFor(c), c.now).node; var logs := Next(s, c).hist.leaderLog;
            && k.log == n.log + [NoOp(n.currentTerm)] && n.currentTerm in logs && logs[n.currentTerm] == k.log
            && forall i :: 0 <= i < |n.log| ==> n.log[i].term < n.currentTerm
  {
    hide React, PacketsOf, Noted, Next, Rooted, NodeOrdered, Wins, PacketMatched, Candidacies, OneLeader;
    var n := s.nodes[Target(c)];
    var ev := EventFor(c);
    StepOf(s, c);
    WinMeans(n, ev);
    VoteReplyOutcome(n, ev.ballot, c.now);
    Crowning(n.(voteCount := n.voteCount + 1));
    FreshTerm(s, c);
    EarlierTerms(n, s.hist.leaderLog);
    LogsAfter(s, c);
  }

  lemma GreetingTrue(q: Packet, n: NodeState, k: NodeState, logs: LeaderLogs)
    requires q.AppendPacket? && !q.routine && q.append == OpeningHeartbeat(n) && q.view == k.log
    requires k.log == n.log + [NoOp(n.currentTerm)] && n.currentTerm in logs && logs[n.currentTerm] == k.log
    requires forall i :: 0 <= i < |n.log| ==> n.log[i].term < n.currentTerm
    ensures OpeningTrue(q, logs)
    ensures q.append.term == n.currentTerm && q.append.commit == n.commitIndex && Spoken(q) == n.log
  {
    SameLogSelf(k.log);
  }

  lemma WinMeans(n: NodeState, ev: Event)
    requires ev.VoteReply? && Wins(n, ev.ballot)
    ensures !n.halted && n.role.Candidate? && ev.ballot.term <= n.currentTerm && ev.ballot.granted
    ensures Elected(n.voteCount + 1, |n.peers|)
  {
  }

  lemma Crowning(n: NodeState)
    ensures Crowned(n).role.Leader? && Crowned(n).log == n.log + [NoOp(n.currentTerm)]
    ensures Crowned(n).currentTerm == n.currentTerm
  {
    hide Marked;
  }

  lemma NextOpenings(s: System, c: Choice)
    requires Sound(s) && OpeningsTrue(s) && OneLeader(Next(s, c).hist)
    ensures OpeningsTrue(Next(s, c))
  {
    hide React, Next, OpeningTrue, OneLeader, Extends, AllOrdered, Matched, Candidacies;
    NetAndGrants(s, c);
    forall q | q in Next(s, c).net && q.AppendPacket? ensures OpeningTrue(q, Next(s, c).hist.leaderLog) {
      if q in s.net {
        LogsExtend(s, c);
        OpeningStays(q, s.hist.leaderLog, Next(s, c).hist.leaderLog);
      } else {
        NewOpening(s, c, q);
      }
    }
  }

  /** Everything known of a reachable state and the step from it, when no term has two leaders. */
  lemma SoundAlong(s: System, run: seq<Choice>, j: nat)
    requires Initial(s) && OneLeader(After(s, run).hist) && j <= |run|
    ensures Sound(After(s, run[..j])) && OneLeader(After(s, run[..j]).hist)
    ensures j < |run| ==> After(s, run[..j + 1]) == Next(After(s, run[..j]), run[j])
  {
    hide After, Sound, OneLeader, Initial, Next;
    OneLeaderAt(s, run, j);
    SoundAt(s, run, j);
    if j < |run| { PrefixNext(s, run, j); }
  }

  lemma {:induction false} OpeningsAlways(s: System, run: seq<Choice>, j: nat)
    requires Initial(s) && OneLeader(After(s, run).hist) && j <= |run|
    ensures OpeningsTrue(After(s, run[..j]))
    decreases j
  {
    hide After, Next, OneLeader, Sound, Initial, OpeningTrue;
    if j == 0 {
      assert run[..0] == [];
      AfterNone(s);
      NoNetYet(s);
    } else {
      OpeningsAlways(s, run, j - 1);
      SoundAlong(s, run, j - 1);
      SoundAlong(s, run, j);
      NextOpenings(After(s, run[..j - 1]), run[j - 1]);
    }
  }

  lemma NoNetYet(s: System)
    requires Initial(s)
    ensures s.net == {}
  {
  }

  /** Nobody accepts an opening heartbeat but over an empty log. */
  lemma OpeningRefused(log: seq<LogEntry>, q: Packet, logs: LeaderLogs)
    requires Rooted(log, logs) && q.AppendPacket? && !q.routine && OpeningTrue(q, logs)
    requires -1 <= q.append.prevIndex < |log|
    requires q.append.prevIndex >= 0 ==> log[q.append.prevIndex].term == q.append.prevTerm
    ensures q.append.prevIndex == -1 && Spoken(q) == []
  {
    var i := q.append.prevIndex;
    if i >= 0 { NotThatTerm(log, q.view, logs, i, q.append.term); }
  }

  lemma NotThatTerm(log: seq<LogEntry>, view: seq<LogEntry>, logs: LeaderLogs, i: nat, term: int)
    requires Rooted(log, logs) && i < |log| && term in logs
    requires AgreeUpTo(view, logs[term], |view|) && i < |view| && view[i].term < term
    ensures log[i].term != term
  {
    assert RootedAt(log, logs, i) && Same(view[i], logs[term][i]);
  }

  // ----- the first entry -----

  predicate IsNoOp(e: LogEntry) {
    e.kind == NoOpEntry && e.payload == NoOp(0).payload
  }

  ghost predicate BeginsIdle(log: seq<LogEntry>) {
    |log| > 0 && IsNoOp(log[0])
  }

  ghost predicate LeadersBegin(s: System) {
    forall t :: t in s.hist.leaderLog ==> BeginsIdle(s.hist.leaderLog[t])
  }

  lemma RootedBegins(log: seq<LogEntry>, logs: LeaderLogs)
    requires Rooted(log, logs) && |log| > 0 && forall t :: t in logs ==> BeginsIdle(logs[t])
    ensures BeginsIdle(log)
  {
    assert RootedAt(log, logs, 0);
  }

  lemma NextBegins(s: System, c: Choice)
    requires Sound(s) && LeadersBegin(s) && OneLeader(Next(s, c).hist)
    ensures LeadersBegin(Next(s, c))
  {
    hide React, Next, OneLeader, Rooted, AllOrdered, Candidacies, IsNoOp, Wins, EffectOf;
    NetAndGrants(s, c);
    if Enabled(s, c) && !c.Reboot? {
      var n, ev := s.nodes[Target(c)], EventFor(c);
      var k := React(n, ev, c.now).node;
      LogsAfter(s, c);
      StepOf(s, c);
      if k.role.Leader? {
        if n.halted {
          DeadStep(n, ev, c.now);
        } else {
          Effect(n, ev, c.now);
        }
        if n.role.Candidate? {
          FreshlyCrowned(s, c);
          if |n.log| > 0 { RootedBegins(n.log, s.hist.leaderLog); } else { FreshNoOp(n.currentTerm); }
        } else {
          LeaderBegins(n, ev, k, s.hist.leaderLog[n.currentTerm]);
        }
      }
    }
  }

  lemma FreshNoOp(t: int)
    ensures IsNoOp(NoOp(t))
  {
  }

  lemma LeaderBegins(n: NodeState, ev: Event, k: NodeState, log: seq<LogEntry>)
    requires (EffectHolds(n, ev, k) || k == n) && k.role.Leader? && SameLog(n.log, log) && BeginsIdle(log)
    ensures BeginsIdle(k.log)
  {
    assert Same(n.log[0], log[0]);
    if k != n {
      GrownAgrees(n, ev, k);
      assert Same(n.log[0], k.log[0]);
    }
  }

  lemma {:induction false} BeginsAlways(s: System, run: seq<Choice>, j: nat)
    requires Initial(s) && OneLeader(After(s, run).hist) && j <= |run|
    ensures LeadersBegin(After(s, run[..j]))
    decreases j
  {
    hide After, Next, OneLeader, Sound, Initial, BeginsIdle;
    if j == 0 {
      assert run[..0] == [];
      AfterNone(s);
      NoLeadersYet(s);
    } else {
      BeginsAlways(s, run, j - 1);
      SoundAlong(s, run, j - 1);
      SoundAlong(s, run, j);
      NextBegins(After(s, run[..j - 1]), run[j - 1]);
    }
  }

  lemma NoLeadersYet(s: System)
    requires Initial(s)
    ensures s.hist.leaderLog == map[]
  {
  }

  /** Entry 0 of every log is a no-operation entry, of whatever term. */
  lemma FirstEntryIdle(s: System, run: seq<Choice>, j: nat, a: Address)
    requires Initial(s) && OneLeader(After(s, run).hist) && j <= |run| && a in After(s, run[..j]).nodes
    ensures |After(s, run[..j]).nodes[a].log| > 0 ==> IsNoOp(After(s, run[..j]).nodes[a].log[0])
  {
    hide After, OneLeader, Initial, Rooted, PacketMatched, IsNoOp;
    BeginsAlways(s, run, j);
    SoundAlong(s, run, j);
    var u := After(s, run[..j]);
    if |u.nodes[a].log| > 0 { RootedBegins(u.nodes[a].log, u.hist.leaderLog); }
  }
}
