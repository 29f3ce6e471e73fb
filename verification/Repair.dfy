/** Log repair: a leader that keeps timing out, one request in flight, brings a follower's
    log in line with its own. */
module Repair {
  import opened Types
  import opened Rules
  import opened Interpreter
  import opened Reactions
  import opened Effects
  import opened TermOrder
  import opened LogMatching
  import opened CommitAgreement
  import opened Config
  import opened Leadership
  import opened Network
  import opened Bounds
  import opened ChangeRecords
  import opened Reconfiguration
  import opened Completeness
  import opened Commitment

  // ----- a round -----

  /** The append request for `a` among some outputs. */
  function RequestTo(out: seq<Output>, a: Address): Option<AppendRequest> {
    if |out| == 0 then None
    else if out[0].AppendRpc? && out[0].dest == a then Some(out[0].append)
    else RequestTo(out[1..], a)
  }

  /** The answer to an append request among some outputs. */
  function AnswerIn(out: seq<Output>): Option<AppendAnswer> {
    if |out| == 0 then None
    else if out[0].Answer? && out[0].reply.AppendResult? then Some(out[0].reply.ack)
    else AnswerIn(out[1..])
  }

  datatype Pair = Pair(leader: NodeState, follower: NodeState, done: bool)

  /** The leader times out, its request is delivered, the answer is brought back. Nothing
      more happens once a request has succeeded. */
  function Round(p: Pair, now: int): Pair {
    if p.done then p
    else
      var tick := React(p.leader, Timeout, now);
      var m := RequestTo(tick.out, p.follower.address);
      if m.None? then p
      else
        var got := React(p.follower, AppendEntries(m.value), now);
        var a := AnswerIn(got.out);
        if a.None? then Pair(tick.node, got.node, false)
        else Pair(React(tick.node, AppendReply(a.value), now).node, got.node, a.value.success)
  }

  /** What else happens at the leader before a round: traffic with other peers, probes, ... */
  datatype Turn = Turn(meanwhile: seq<Event>, now: int)

  function Through(l: NodeState, events: seq<Event>, now: int): NodeState
    decreases |events|
  {
    if |events| == 0 then l else Through(React(l, events[0], now).node, events[1..], now)
  }

  function Played(p: Pair, turn: Turn): Pair {
    if p.done then p else Round(p.(leader := Through(p.leader, turn.meanwhile, turn.now)), turn.now)
  }

  /** A round for each turn. */
  function Rounds(p: Pair, turns: seq<Turn>): Pair
    decreases |turns|
  {
    if |turns| == 0 then p else Rounds(Played(p, turns[0]), turns[1..])
  }

  // ----- the situation -----

  function NextFor(l: NodeState, f: NodeState): int {
    Lookup(l.nextIndex, f.address)
  }

  ghost predicate LeaderReady(l: NodeState, f: NodeState) {
    && !l.halted && l.role.Leader? && NodeOrdered(l)
    && f.address in l.peers && !TimeoutCrashes(l)
    && NextFor(l, f) >= 0 && l.lastApplied >= -1
  }

  ghost predicate FollowerReady(l: NodeState, f: NodeState) {
    && !f.halted && f.commitIndex >= -1 && Rewindable(f)
    && f.currentTerm <= l.currentTerm && (f.role.Leader? ==> f.currentTerm < l.currentTerm)
  }

  /** Two nodes the loop works for: the leader's peers' next indices are in range, the
      follower is not in a later term, and their logs match. */
  ghost predicate Ready(l: NodeState, f: NodeState) {
    LeaderReady(l, f) && FollowerReady(l, f) && Matching(f.log, l.log)
  }

  /** The commit index the leader announces is at most one past its log or one past what the
      follower has committed: the follower's apply loop then never runs out of entries. A
      leader whose committed entries were cut off before it was elected can be beyond that. */
  predicate Announceable(l: NodeState, f: NodeState) {
    l.commitIndex <= LastIndex(l) + 1 || l.commitIndex <= f.commitIndex + 1
  }

  /** Events that leave the leader what it is: alive, in office, with an unchanged log, and with
      the same index for this follower. */
  ghost predicate Calm(l: NodeState, events: seq<Event>, now: int, f: NodeState)
    decreases |events|
  {
    |events| > 0 ==>
      var k := React(l, events[0], now).node;
      && !events[0].StateChanged? && k.role.Leader? && !k.halted && |k.log| == |l.log|
      && f.address in k.peers && !TimeoutCrashes(k) && NextFor(k, f) == NextFor(l, f)
      && Calm(k, events[1..], now, f)
  }

  /** Until the loop has succeeded or the follower has died, every turn is calm. */
  ghost predicate CalmTurns(p: Pair, turns: seq<Turn>)
    decreases |turns|
  {
    |turns| > 0 && !p.done && !p.follower.halted ==>
      Calm(p.leader, turns[0].meanwhile, turns[0].now, p.follower) && CalmTurns(Played(p, turns[0]), turns[1..])
  }

  // ----- calm events -----

  lemma QuietEvent(l: NodeState, ev: Event, now: int, f: NodeState)
    requires Ready(l, f) && Calm(l, [ev], now, f)
    ensures var k := React(l, ev, now).node;
            Ready(k, f) && SameLog(l.log, k.log) && NextFor(k, f) == NextFor(l, f) && (Announceable(k, f) <==> Announceable(l, f))
  {
    hide React, TimeoutCrashes, Rewindable, Matching, NodeOrdered, Committable;
    var k := React(l, ev, now).node;
    assert Calm(k, [ev][1..], now, f);
    CommitMoves(l, ev, now);
    LeaderKeepsRecord(l, ev, now);
    Effect(l, ev, now);
    QuietOrdered(l, ev, k);
    MatchingSame(f.log, l.log, k.log);
  }

  lemma QuietOrdered(l: NodeState, ev: Event, k: NodeState)
    requires NodeOrdered(l) && l.role.Leader? && k.role.Leader? && EffectHolds(l, ev, k) && SameLog(l.log, k.log)
    ensures NodeOrdered(k) && k.currentTerm == l.currentTerm
  {
    hide EffectOf;
    SameLogOrdered(l.log, k.log, l.currentTerm);
    assert Same(l.log[|l.log| - 1], k.log[|k.log| - 1]);
  }

  lemma MatchingSame(f: seq<LogEntry>, a: seq<LogEntry>, b: seq<LogEntry>)
    requires Matching(f, a) && SameLog(a, b)
    ensures Matching(f, b)
  {
    forall i | 0 <= i < |f| && i < |b| && f[i].term == b[i].term ensures AgreeUpTo(f, b, i + 1) {
      assert Same(a[i], b[i]);
    }
  }

  lemma {:induction false} QuietEvents(l: NodeState, events: seq<Event>, now: int, f: NodeState)
    requires Ready(l, f) && Calm(l, events, now, f)
    ensures var k := Through(l, events, now);
            Ready(k, f) && SameLog(l.log, k.log) && NextFor(k, f) == NextFor(l, f) && (Announceable(k, f) <==> Announceable(l, f))
    decreases |events|
  {
    hide React, Ready, Announceable, SameLog;
    if |events| == 0 {
      SameLogSelf(l.log);
    } else {
      var k := React(l, events[0], now).node;
      QuietFirst(l, events, now, f);
      QuietEvent(l, events[0], now, f);
      QuietEvents(k, events[1..], now, f);
      SameLogTrans(l.log, k.log, Through(l, events, now).log);
    }
  }

  lemma QuietFirst(l: NodeState, events: seq<Event>, now: int, f: NodeState)
    requires |events| > 0 && Calm(l, events, now, f)
    ensures Calm(l, [events[0]], now, f)
  {
    hide React, TimeoutCrashes;
    assert [events[0]][1..] == [];
  }

  // ----- what a round does -----

  lemma {:induction false} RequestFound(out: seq<Output>, a: Address, m: AppendRequest, i: nat)
    requires i < |out| && out[i] == AppendRpc(a, m)
    requires forall j :: 0 <= j < |out| && out[j].AppendRpc? && out[j].dest == a ==> out[j].append == m
    ensures RequestTo(out, a) == Some(m)
  {
    if i > 0 {
      assert out[1..][i - 1] == out[i];
      if !(out[0].AppendRpc? && out[0].dest == a) { RequestFound(out[1..], a, m, i - 1); }
    }
  }

  lemma {:induction false} AnswerFound(out: seq<Output>, a: AppendAnswer)
    requires |out| > 0 && out[|out| - 1] == Answer(AppendResult(a))
    requires forall j :: 0 <= j < |out| - 1 ==> !out[j].Answer?
    ensures AnswerIn(out) == Some(a)
  {
    if |out| > 1 { AnswerFound(out[1..], a); }
  }

  lemma {:induction false} NoAnswerFound(out: seq<Output>)
    requires forall j :: 0 <= j < |out| ==> !out[j].Answer?
    ensures AnswerIn(out) == None
  {
    if |out| > 0 { NoAnswerFound(out[1..]); }
  }

  lemma TickSends(l: NodeState, f: NodeState, now: int)
    requires LeaderReady(l, f)
    ensures React(l, Timeout, now).node == l
    ensures RequestTo(React(l, Timeout, now).out, f.address) == Some(RequestFor(l, NextFor(l, f)))
  {
    hide React, RequestFor, NodeOrdered;
    LeaderTimeout(l, now);
    FeedPeersSent(l, l.peers);
    var out := React(l, Timeout, now).out;
    var i :| 0 <= i < |l.peers| && l.peers[i] == f.address;
    assert out[i + 1] == AppendRpc(f.address, RequestFor(l, NextFor(l, f)));
    RequestFound(out, f.address, RequestFor(l, NextFor(l, f)), i + 1);
  }

  /** How the follower answers a request of the leader, and when it dies on it. */
  lemma FollowerAnswers(l: NodeState, f: NodeState, m: AppendRequest, now: int)
    requires FollowerReady(l, f) && m.term == l.currentTerm
    ensures var g := Receiver(f, m.term); var o := React(f, AppendEntries(m), now);
            var fits := m.commit <= m.prevIndex + |m.entries| + 1 || m.commit <= f.commitIndex + 1;
            && g.currentTerm <= l.currentTerm
            && (!Accepts(g, m) || fits ==>
                  AnswerIn(o.out) == Some(AppendAnswer(f.address, Accepts(g, m), g.currentTerm)))
            && (Accepts(g, m) && fits ==> Takes(f, m))
            && (Accepts(g, m) && !fits ==> AnswerIn(o.out) == None && o.node.halted)
            && (!Accepts(g, m) ==> o.node == Heard(g, m, now))
  {
    hide React, Implement, AppendCrashes, Accepts, Stored, CommitActions, Rewind;
    var g := Receiver(f, m.term);
    AppendOutcome(f, m, now);
    if Accepts(g, m) { SameRecord(f, g); DiesUnlessFits(g, m); }
    NoAnswerFound(StepOut(f));
    AnswerFound(StepOut(f) + FollowerOutput(g, Accepts(g, m)), AppendAnswer(g.address, Accepts(g, m), g.currentTerm));
  }

  lemma SameRecord(f: NodeState, g: NodeState)
    requires Rewindable(f) && g.log == f.log && g.peers == f.peers && g.address == f.address
    requires g.changeIndex == f.changeIndex && g.changeTerm == f.changeTerm
    ensures Rewindable(g)
  {
    hide Rewind;
    assert Recorded(g) == Recorded(f);
  }

  lemma DiesUnlessFits(g: NodeState, m: AppendRequest)
    requires Accepts(g, m) && g.commitIndex >= -1 && Rewindable(g)
    ensures AppendCrashes(g, m) <==> !(m.commit <= m.prevIndex + |m.entries| + 1 || m.commit <= g.commitIndex + 1)
  {
    hide Rewind, Accepts, EntryFor;
    AcceptsInRange(g, m);
    WalkEscapesIff(g, m);
  }

  /** What a round amounts to: the leader's request, the follower's answer to it, and what
      the leader makes of that - or the follower's death, unanswered. */
  lemma RoundShape(l: NodeState, f: NodeState, now: int)
    requires Ready(l, f)
    ensures var m := RequestFor(l, NextFor(l, f)); var g := Receiver(f, m.term); var ok := Accepts(g, m);
            && m.term == l.currentTerm && g.currentTerm <= l.currentTerm && (ok && Announceable(l, f) ==> Takes(f, m))
            && (!ok ==> React(f, AppendEntries(m), now).node == Heard(g, m, now))
            && var p := Round(Pair(l, f, false), now);
            if ok && !Announceable(l, f) then p.follower.halted && !p.done
            else p == Pair(React(l, AppendReply(AppendAnswer(f.address, ok, g.currentTerm)), now).node,
                           React(f, AppendEntries(m), now).node, ok)
  {
    hide React, Implement, Accepts, RequestFor, Rewind, Matching, NodeOrdered, RequestTo, AnswerIn, Heard,
         Takes, Rewindable;
    TickSends(l, f, now);
    RequestCovers(l, NextFor(l, f));
    RequestTerm(l, NextFor(l, f));
    FollowerAnswers(l, f, RequestFor(l, NextFor(l, f)), now);
  }

  lemma RequestTerm(l: NodeState, next: int)
    requires next >= 0
    ensures RequestFor(l, next).term == l.currentTerm
  {
  }

  /** A failed round the follower survives moves the next index back by one and leaves
      everything in place for the next; a round at next index zero cannot fail so. */
  lemma RoundFails(l: NodeState, f: NodeState, now: int)
    requires Ready(l, f) && !Round(Pair(l, f, false), now).done && !Round(Pair(l, f, false), now).follower.halted
    ensures NextFor(l, f) > 0
    ensures var p := Round(Pair(l, f, false), now);
            && p.leader == l.(nextIndex := l.nextIndex[f.address := NextFor(l, f) - 1])
            && p.follower.log == f.log && p.follower.address == f.address && p.follower.commitIndex == f.commitIndex
            && Ready(p.leader, p.follower) && NextFor(p.leader, p.follower) == NextFor(l, f) - 1
  {
    hide React, Implement, Accepts, RequestFor, Rewind, Matching, NodeOrdered, Rewindable, Round, Takes, Receiver;
    var m := RequestFor(l, NextFor(l, f));
    RoundShape(l, f, now);
    OrderedTail(l);
    var g := Receiver(f, m.term);
    ReceiverKeeps(f, m.term);
    AppendReplyOutcome(l, AppendAnswer(f.address, false, g.currentTerm), now);
    SameRecord(f, Heard(g, m, now));
    StartAccepted(g, m, l.currentTerm);
    RequestStart(l, NextFor(l, f));
    var p := Round(Pair(l, f, false), now);
    OrderedIndexes(l, p.leader);
    StillCalm(l, f, p.leader);
  }

  /** A lower index for one peer, still not negative, leaves nothing to crash on. */
  lemma StillCalm(l: NodeState, f: NodeState, k: NodeState)
    requires !TimeoutCrashes(l) && NextFor(l, f) > 0
    requires k == l.(nextIndex := l.nextIndex[f.address := NextFor(l, f) - 1])
    ensures !TimeoutCrashes(k) && NextFor(k, f) == NextFor(l, f) - 1
  {
  }

  lemma OrderedTail(l: NodeState)
    requires NodeOrdered(l)
    ensures Tail(l)
  {
  }

  lemma OrderedIndexes(l: NodeState, k: NodeState)
    requires NodeOrdered(l) && k == l.(nextIndex := k.nextIndex)
    ensures NodeOrdered(k)
  {
  }

  lemma RequestStart(l: NodeState, next: int)
    requires next >= 0 && Tail(l) && l.role.Leader?
    ensures next == 0 ==> RequestFor(l, next).prevIndex == -1
  {
  }

  /** A request for the whole log passes any consistency check. */
  lemma StartAccepted(g: NodeState, m: AppendRequest, term: int)
    requires m.term == term && g.currentTerm <= term
    ensures m.prevIndex == -1 ==> Accepts(g, m)
  {
  }

  /** A successful round leaves the follower in agreement with the leader's whole log, and
      the leader expecting nothing further to send. */
  lemma RoundSucceeds(l: NodeState, f: NodeState, now: int)
    requires Ready(l, f) && Round(Pair(l, f, false), now).done
    ensures Announceable(l, f)
    ensures var p := Round(Pair(l, f, false), now);
            && AgreeUpTo(p.follower.log, l.log, |l.log|) && SameLog(l.log, p.leader.log)
            && NextFor(p.leader, f) == LastIndex(l) + 1
  {
    hide React, Accepts, RequestFor, Matching, NodeOrdered, Rewindable, Round, Takes, Receiver, AgreeUpTo, SameLog;
    RoundShape(l, f, now);
    FollowerRepaired(l, f, RequestFor(l, NextFor(l, f)), now);
    LeaderSatisfied(l, f, Receiver(f, l.currentTerm).currentTerm, now);
  }

  /** A follower dies in a round only on accepting a commit index it cannot follow. */
  lemma RoundKills(l: NodeState, f: NodeState, now: int)
    requires Ready(l, f) && !Round(Pair(l, f, false), now).done && Round(Pair(l, f, false), now).follower.halted
    ensures !Announceable(l, f)
  {
    hide React, Accepts, RequestFor, Matching, NodeOrdered, Rewindable, Round, Takes;
    RoundShape(l, f, now);
  }

  lemma FollowerRepaired(l: NodeState, f: NodeState, m: AppendRequest, now: int)
    requires Ready(l, f) && m == RequestFor(l, NextFor(l, f)) && Takes(f, m)
    ensures AgreeUpTo(React(f, AppendEntries(m), now).node.log, l.log, |l.log|)
  {
    hide React, Accepts, RequestFor, Matching, NodeOrdered, Rewindable, Takes, Honest, NewLog;
    OrderedTail(l);
    HonestRequest(l, NextFor(l, f));
    AppendTaken(f, m, now);
    SplicedAgrees(l, f.log, m);
    AgreeSame(NewLog(f.log, m), React(f, AppendEntries(m), now).node.log, l.log);
  }

  lemma AgreeSame(a: seq<LogEntry>, b: seq<LogEntry>, c: seq<LogEntry>)
    requires SameLog(a, b) && AgreeUpTo(a, c, |c|)
    ensures AgreeUpTo(b, c, |c|)
  {
  }

  lemma LeaderSatisfied(l: NodeState, f: NodeState, term: int, now: int)
    requires !l.halted && l.role.Leader? && term <= l.currentTerm
    ensures var k := React(l, AppendReply(AppendAnswer(f.address, true, term)), now).node;
            SameLog(l.log, k.log) && NextFor(k, f) == LastIndex(l) + 1
  {
    hide React, Implement, NewCommit, AdvanceList;
    var a := AppendAnswer(f.address, true, term);
    AppendReplyOutcome(l, a, now);
    AcknowledgedRun(l, a, Acknowledged(l, a), now);
  }

  lemma SplicedAgrees(l: NodeState, follower: seq<LogEntry>, m: AppendRequest)
    requires Matching(follower, l.log) && Honest(l, m) && m.prevIndex < |follower|
    requires m.prevIndex >= 0 ==> follower[m.prevIndex].term == m.prevTerm
    ensures AgreeUpTo(NewLog(follower, m), l.log, |l.log|)
  {
    hide Matching, AgreeUpTo, NewLog, Honest;
    HonestPrevious(l, m);
    MatchingPrefix(follower, l.log, m.prevIndex + 1);
    PrefixThenTail(follower, l, m);
  }

  lemma MatchingPrefix(a: seq<LogEntry>, b: seq<LogEntry>, k: nat)
    requires Matching(a, b) && k <= |a| && k <= |b| && (k > 0 ==> a[k - 1].term == b[k - 1].term)
    ensures AgreeUpTo(a, b, k)
  {
  }

  lemma PrefixThenTail(follower: seq<LogEntry>, l: NodeState, m: AppendRequest)
    requires Honest(l, m) && m.prevIndex < |follower| && AgreeUpTo(follower, l.log, m.prevIndex + 1)
    ensures AgreeUpTo(NewLog(follower, m), l.log, |l.log|)
  {
    var new' := NewLog(follower, m);
    forall i | 0 <= i < |l.log| ensures Same(new'[i], l.log[i]) {
      if i > m.prevIndex { assert m.entries[i - (m.prevIndex + 1)] == l.log[i]; }
    }
  }

  /** Log repair. From any next index the loop succeeds within next index + 1 rounds exactly
      when the leader's commit index is announceable to the follower, and then the follower
      agrees with the leader through its last index; otherwise the follower dies by then.
      Between the rounds the leader may deal with anything that leaves its log as it is. */
  lemma {:induction false} LogRepaired(l: NodeState, f: NodeState, turns: seq<Turn>)
    requires Ready(l, f) && |turns| == NextFor(l, f) + 1 && CalmTurns(Pair(l, f, false), turns)
    ensures var p := Rounds(Pair(l, f, false), turns);
            && (p.done <==> Announceable(l, f))
            && (p.done ==>
                  && AgreeUpTo(p.follower.log, l.log, |l.log|) && SameLog(l.log, p.leader.log)
                  && NextFor(p.leader, f) == LastIndex(l) + 1)
            && (!p.done ==> p.follower.halted)
    decreases NextFor(l, f)
  {
    NotDead(l, f);
    hide Round, Through, Calm, Ready, Announceable, AgreeUpTo, SameLog;
    var k := Through(l, turns[0].meanwhile, turns[0].now);
    QuietEvents(l, turns[0].meanwhile, turns[0].now, f);
    var now := turns[0].now;
    var p := Round(Pair(k, f, false), now);
    assert Played(Pair(l, f, false), turns[0]) == p;
    if p.done {
      RoundSucceeds(k, f, now);
      Done(p, turns[1..]);
      Carried(l, k, p);
    } else if p.follower.halted {
      RoundKills(k, f, now);
      DeadFollower(p, turns[1..]);
    } else {
      RoundFails(k, f, now);
      SameAnnounceable(k, f, p);
      LogRepaired(p.leader, p.follower, turns[1..]);
      Carried(l, k, Rounds(p, turns[1..]));
    }
  }

  lemma NotDead(l: NodeState, f: NodeState)
    requires Ready(l, f)
    ensures NextFor(l, f) >= 0 && !f.halted
  {
  }

  lemma SameAnnounceable(k: NodeState, f: NodeState, p: Pair)
    requires p.leader == k.(nextIndex := p.leader.nextIndex) && p.follower.commitIndex == f.commitIndex
    ensures Announceable(p.leader, p.follower) <==> Announceable(k, f)
  {
  }

  /** What agrees with the later log of the leader agrees with the earlier one. */
  lemma Carried(l: NodeState, k: NodeState, p: Pair)
    requires SameLog(l.log, k.log)
    ensures AgreeUpTo(p.follower.log, k.log, |k.log|) ==> AgreeUpTo(p.follower.log, l.log, |l.log|)
    ensures SameLog(k.log, p.leader.log) ==> SameLog(l.log, p.leader.log)
    ensures LastIndex(k) == LastIndex(l)
  {
  }

  /** A dead follower answers nothing. */
  lemma {:induction false} DeadFollower(p: Pair, turns: seq<Turn>)
    requires !p.done && p.follower.halted
    ensures var q := Rounds(p, turns); !q.done && q.follower.halted
    decreases |turns|
  {
    hide RequestTo;
    if |turns| > 0 {
      DeadRound(p.(leader := Through(p.leader, turns[0].meanwhile, turns[0].now)), turns[0].now);
      DeadFollower(Played(p, turns[0]), turns[1..]);
    }
  }

  lemma DeadRound(p: Pair, now: int)
    requires !p.done && p.follower.halted
    ensures !Round(p, now).done && Round(p, now).follower.halted
  {
    hide RequestTo, Handle, Implement;
  }

  lemma {:induction false} Done(p: Pair, turns: seq<Turn>)
    requires p.done
    ensures Rounds(p, turns) == p
    decreases |turns|
  {
    if |turns| > 0 { Done(p, turns[1..]); }
  }

  /** In runs: two living nodes of which one leads and the other is not in a later term are
      ready for the loop, whatever went before, provided no term had two leaders. */
  lemma RepairedInRuns(s: System, run: seq<Choice>, a: Address, b: Address, turns: seq<Turn>)
    requires Initial(s) && OneLeader(After(s, run).hist)
    requires a in After(s, run).nodes && b in After(s, run).nodes && a != b
    requires var l, f := After(s, run).nodes[a], After(s, run).nodes[b];
             && !l.halted && l.role.Leader? && b in l.peers && !TimeoutCrashes(l)
             && !f.halted && f.currentTerm <= l.currentTerm
             && |turns| == Lookup(l.nextIndex, b) + 1 && CalmTurns(Pair(l, f, false), turns)
    ensures var l, f := After(s, run).nodes[a], After(s, run).nodes[b]; var p := Rounds(Pair(l, f, false), turns);
            && (p.done <==> Announceable(l, f))
            && (p.done ==>
                  && AgreeUpTo(p.follower.log, l.log, |l.log|) && SameLog(l.log, p.leader.log)
                  && Lookup(p.leader.nextIndex, b) == LastIndex(l) + 1)
            && (!p.done ==> p.follower.halted)
  {
    hide After, Initial, OneLeader, CalmTurns, NodeOrdered, NodeLinked, Rewindable, Matching, AgreeUpTo,
         SameLog, Announceable;
    var t := After(s, run);
    HistoryAlways(s, run);
    TermOrderAlways(s, run);
    LogMatchingProperty(s, run, b, a);
    LinkedAlways(s, run);
    LinkedRewindable(t.nodes[b]);
    BoundsAlways(s, run, a);
    BoundsAlways(s, run, b);
    SoleLeader(t, a, b);
    LogRepaired(t.nodes[a], t.nodes[b], turns);
  }

  lemma SoleLeader(t: System, a: Address, b: Address)
    requires HistoryHolds(t) && OneLeader(t.hist) && a in t.nodes && b in t.nodes && a != b && t.nodes[a].role.Leader?
    ensures t.nodes[b].role.Leader? ==> t.nodes[a].currentTerm != t.nodes[b].currentTerm
  {
  }
}
