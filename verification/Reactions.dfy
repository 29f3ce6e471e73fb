/** What one event does to a node, in closed form: each lemma runs the interpreter over the
    handler's list once, so that later proofs need not look at actions again. */
module Reactions {
  import opened Types
  import opened Rules
  import opened Interpreter

  // ----- lists whose effect is narrow -----

  predicate Emits(a: Action) {
    a.SendAppend? || a.SendVote? || a.ResetTimer?
  }

  predicate SetsIndex(a: Action) {
    a.SetNextIndex? || a.SetMatchIndex?
  }

  predicate Advances(a: Action) {
    a.ApplyEntry? || a.SetLastApplied? || a.SetCommitIndex?
  }

  /** What a list of emitting actions puts on the wire. */
  function Sent(actions: seq<Action>): seq<Output> {
    if |actions| == 0 then []
    else
      (match actions[0]
       case SendAppend(d, m) => [AppendRpc(d, m)]
       case SendVote(d, m) => [VoteRpc(d, m)]
       case ResetTimer(h) => [Timer(h)]
       case _ => [])
      + Sent(actions[1..])
  }

  lemma {:induction false} SentConcat(a: seq<Action>, b: seq<Action>)
    ensures Sent(a + b) == Sent(a) + Sent(b)
  {
    if |a| == 0 {
      assert a + b == b;
    } else {
      assert (a + b)[1..] == a[1..] + b;
      SentConcat(a[1..], b);
    }
  }

  ghost predicate All(actions: seq<Action>, p: Action -> bool) {
    forall i :: 0 <= i < |actions| ==> p(actions[i])
  }

  lemma AllTail(actions: seq<Action>, p: Action -> bool)
    requires |actions| > 0 && All(actions, p)
    ensures p(actions[0]) && All(actions[1..], p)
  {
    forall i | 0 <= i < |actions| - 1 ensures p(actions[1..][i]) { assert actions[1..][i] == actions[i + 1]; }
  }

  lemma SendOne(n: NodeState, a: Action, chan: bool)
    requires Emits(a)
    ensures Perform(n, a, chan) == Outcome(n, Sent([a]))
  {
  }

  /** Emitting actions leave the node alone. */
  lemma {:induction false} SendRun(actions: seq<Action>, ev: Event, chan: bool, n: NodeState, now: int)
    requires !n.halted && All(actions, a => Emits(a))
    ensures Implement(actions, ev, chan, n, now) == Outcome(n, Sent(actions))
    decreases |actions|
  {
    hide Implement, Perform;
    if |actions| == 0 {
      Nothing(ev, chan, n, now);
    } else {
      assert actions == [actions[0]] + actions[1..];
      SentConcat([actions[0]], actions[1..]);
      AllTail(actions, a => Emits(a));
      UnfoldPlain(actions, ev, chan, n, now);
      SendOne(n, actions[0], chan);
      SendRun(actions[1..], ev, chan, n, now);
    }
  }

  lemma AdvanceOne(n: NodeState, a: Action, chan: bool)
    requires Advances(a)
    ensures !IsControl(a)
    ensures var o := Perform(n, a, chan);
            && o.out == []
            && SameLog(n.log, o.node.log)
            && o.node == n.(commitIndex := o.node.commitIndex, lastApplied := o.node.lastApplied,
                            database := o.node.database, log := o.node.log, halted := o.node.halted)
  {
  }

  /** Actions that advance the indices and apply commands keep the log up to results, emit
      nothing, and touch no other field. */
  lemma {:induction false} AdvanceRun(actions: seq<Action>, ev: Event, chan: bool, n: NodeState, now: int)
    requires All(actions, a => Advances(a))
    ensures var o := Implement(actions, ev, chan, n, now);
            && o.out == []
            && SameLog(n.log, o.node.log)
            && o.node == n.(commitIndex := o.node.commitIndex, lastApplied := o.node.lastApplied,
                            database := o.node.database, log := o.node.log, halted := o.node.halted)
    decreases |actions|
  {
    hide Implement, Perform;
    if n.halted {
      Dead(actions, ev, chan, n, now);
    } else if |actions| == 0 {
      Nothing(ev, chan, n, now);
    } else {
      AllTail(actions, a => Advances(a));
      AdvanceOne(n, actions[0], chan);
      UnfoldPlain(actions, ev, chan, n, now);
      AdvanceRun(actions[1..], ev, chan, Perform(n, actions[0], chan).node, now);
    }
  }

  // ----- the lists the handlers build -----

  lemma {:induction false} AskPeersSent(peers: seq<Address>, m: VoteRequest)
    ensures All(AskPeers(peers, m), a => Emits(a))
    ensures Sent(AskPeers(peers, m)) == seq(|peers|, i requires 0 <= i < |peers| => VoteRpc(peers[i], m))
  {
    if |peers| > 0 { AskPeersSent(peers[1..], m); }
  }

  lemma {:induction false} GreetPeersSent(n: NodeState, peers: seq<Address>)
    ensures All(GreetPeers(n, peers), a => Emits(a) || SetsIndex(a))
    ensures Sent(GreetPeers(n, peers)) == seq(|peers|, i requires 0 <= i < |peers| => AppendRpc(peers[i], OpeningHeartbeat(n)))
  {
    hide OpeningHeartbeat;
    if |peers| > 0 {
      GreetPeersSent(n, peers[1..]);
      var head := [SetNextIndex(peers[0], LastIndex(n) + 1), SetMatchIndex(peers[0], 0),
                   SendAppend(peers[0], OpeningHeartbeat(n))];
      SentConcat(head, GreetPeers(n, peers[1..]));
      HelloSent(n, peers[0]);
    }
  }

  lemma HelloSent(n: NodeState, a: Address)
    ensures Sent([SetNextIndex(a, LastIndex(n) + 1), SetMatchIndex(a, 0), SendAppend(a, OpeningHeartbeat(n))])
         == [AppendRpc(a, OpeningHeartbeat(n))]
  {
    hide OpeningHeartbeat;
    var head := [SetNextIndex(a, LastIndex(n) + 1), SetMatchIndex(a, 0), SendAppend(a, OpeningHeartbeat(n))];
    assert head[1..] == [SetMatchIndex(a, 0), SendAppend(a, OpeningHeartbeat(n))];
    assert head[1..][1..] == [SendAppend(a, OpeningHeartbeat(n))];
    assert Sent(head[1..][1..]) == [AppendRpc(a, OpeningHeartbeat(n))];
  }

  lemma {:induction false} FeedPeersSent(n: NodeState, peers: seq<Address>)
    requires forall i :: 0 <= i < |peers| ==> Lookup(n.nextIndex, peers[i]) >= 0
    ensures All(FeedPeers(n, peers), a => Emits(a))
    ensures Sent(FeedPeers(n, peers))
         == seq(|peers|, i requires 0 <= i < |peers| => AppendRpc(peers[i], RequestFor(n, Lookup(n.nextIndex, peers[i]))))
  {
    hide RequestFor;
    if |peers| > 0 { FeedPeersSent(n, peers[1..]); }
  }

  lemma {:induction false} ApplyActionsAdvance(n: NodeState, m: AppendRequest, i: int)
    ensures All(ApplyActions(n, m, i), a => Advances(a))
    decreases m.commit - i
  {
    if i < m.commit { ApplyActionsAdvance(n, m, i + 1); }
  }

  lemma {:induction false} AdvanceActionsAdvance(n: NodeState, i: int, upto: int)
    ensures All(AdvanceActions(n, i, upto), a => Advances(a))
    decreases upto - i
  {
    if i <= upto { AdvanceActionsAdvance(n, i + 1, upto); }
  }

  // ----- changes of role -----

  function BecomeFollower(n: NodeState): NodeState {
    n.(role := Follower, votedFor := "", voteCount := 0)
  }

  function BecomeCandidate(n: NodeState): NodeState {
    n.(role := Candidate, currentTerm := n.currentTerm + 1, votedFor := n.address, voteCount := 1)
  }

  lemma VotesSet(k: NodeState, term: int, candidate: Address, count: int, chan: bool)
    ensures Perform(k, SetCurrentTerm(term), chan) == Outcome(k.(currentTerm := term), [])
    ensures Perform(k, SetVotedFor(candidate), chan) == Outcome(k.(votedFor := candidate), [])
    ensures Perform(k, SetVoteCount(count), chan) == Outcome(k.(voteCount := count), [])
  {
  }

  lemma TimerStarted(k: NodeState, half: bool, chan: bool)
    ensures Perform(k, ResetTimer(half), chan) == Outcome(k, [Timer(half)])
  {
  }

  /** Entering the follower state clears the vote, in whatever term the node is. */
  lemma EnterFollower(n: NodeState, ev: Event, now: int)
    requires !n.halted
    ensures Implement(FollowerOnStateChanged(n), ev, false, n.(role := Follower), now)
         == Outcome(BecomeFollower(n), [Timer(false)])
  {
    hide Implement, Perform;
    var f := n.(role := Follower);
    var f1 := f.(votedFor := "");
    assert FollowerOnStateChanged(n) == [SetVotedFor("")] + ([SetVoteCount(0)] + [ResetTimer(false)]);
    VotesSet(f, 0, "", 0, false);
    ConsQuiet(SetVotedFor(""), [SetVoteCount(0)] + [ResetTimer(false)], ev, false, f, f1, now);
    VotesSet(f1, 0, "", 0, false);
    ConsQuiet(SetVoteCount(0), [ResetTimer(false)], ev, false, f1, BecomeFollower(n), now);
    TimerStarted(BecomeFollower(n), false, false);
    Single(ResetTimer(false), ev, false, BecomeFollower(n), now);
  }

  /** Stepping down, then the rest of the list. */
  lemma StepDown(rest: seq<Action>, ev: Event, chan: bool, n: NodeState, now: int)
    requires !n.halted
    ensures Implement([SetState(Follower)] + rest, ev, chan, n, now)
         == Then(Outcome(BecomeFollower(n), [Timer(false)]), rest, ev, chan, now)
  {
    var list := [SetState(Follower)] + rest;
    assert list[1..] == rest;
    Unfold(list, ev, chan, n, now);
    EnterFollower(n, StateChanged, now);
    assert First(list, ev, chan, n, now) == Outcome(BecomeFollower(n), [Timer(false)]) by { hide Implement, BecomeFollower; }
  }

  lemma EnterCandidate(n: NodeState, ev: Event, now: int)
    requires !n.halted
    ensures Implement(CandidateOnStateChanged(n), ev, false, n.(role := Candidate), now)
         == Outcome(BecomeCandidate(n), [Timer(false)] + Sent(AskPeers(n.peers, VoteRequestOf(n))))
  {
    hide Implement, Perform, VoteRequestOf;
    var c := n.(role := Candidate);
    var ask := AskPeers(n.peers, VoteRequestOf(n));
    var t4 := [ResetTimer(false)] + ask;
    var t3 := [SetVoteCount(1)] + t4;
    var t2 := [SetVotedFor(n.address)] + t3;
    assert CandidateOnStateChanged(n) == [SetCurrentTerm(n.currentTerm + 1)] + t2;
    var c2 := c.(currentTerm := n.currentTerm + 1);
    var c3 := c2.(votedFor := n.address);
    VotesSet(c, n.currentTerm + 1, n.address, 1, false);
    ConsQuiet(SetCurrentTerm(n.currentTerm + 1), t2, ev, false, c, c2, now);
    VotesSet(c2, n.currentTerm + 1, n.address, 1, false);
    ConsQuiet(SetVotedFor(n.address), t3, ev, false, c2, c3, now);
    VotesSet(c3, n.currentTerm + 1, n.address, 1, false);
    ConsQuiet(SetVoteCount(1), t4, ev, false, c3, BecomeCandidate(n), now);
    TimerThenAsk(n.peers, VoteRequestOf(n));
    SendRun(t4, ev, false, BecomeCandidate(n), now);
  }

  lemma TimerThenAsk(peers: seq<Address>, m: VoteRequest)
    ensures var all := [ResetTimer(false)] + AskPeers(peers, m);
            All(all, a => Emits(a)) && Sent(all) == [Timer(false)] + Sent(AskPeers(peers, m))
  {
    hide AskPeers;
    var ask := AskPeers(peers, m);
    var all := [ResetTimer(false)] + ask;
    AskPeersSent(peers, m);
    forall i | 0 <= i < |all| ensures Emits(all[i]) { if i > 0 { assert all[i] == ask[i - 1]; } }
    assert all[1..] == ask;
  }

  /** One index for each of `peers`; what is known of others stays. */
  function Marked(known: map<Address, int>, peers: seq<Address>, index: int): (r: map<Address, int>)
    ensures forall a :: a in r <==> a in known || a in peers
    ensures forall a :: a in r ==> r[a] == if a in peers then index else known[a]
    decreases |peers|
  {
    if |peers| == 0 then known else Marked(known[peers[0] := index], peers[1..], index)
  }

  /** A fresh leader: same term, a no-operation entry on top of its log. Every peer is
      expected to need that entry next, and entry 0 already counts as held by all. */
  function Crowned(n: NodeState): NodeState {
    n.(role := Leader, log := n.log + [NoOp(n.currentTerm)],
       nextIndex := Marked(n.nextIndex, n.peers, LastIndex(n) + 1), matchIndex := Marked(n.matchIndex, n.peers, 0))
  }

  lemma IndicesSet(k: NodeState, a: Address, next: int, match': int)
    ensures Perform(k, SetNextIndex(a, next), false) == Outcome(k.(nextIndex := k.nextIndex[a := next]), [])
    ensures Perform(k, SetMatchIndex(a, match'), false) == Outcome(k.(matchIndex := k.matchIndex[a := match']), [])
  {
  }

  lemma GreetOne(n: NodeState, a: Address, rest: seq<Action>, ev: Event, k: NodeState, now: int)
    requires !k.halted
    ensures Implement([SetNextIndex(a, LastIndex(n) + 1), SetMatchIndex(a, 0), SendAppend(a, OpeningHeartbeat(n))] + rest, ev, false, k, now)
         == Then(Outcome(k.(nextIndex := k.nextIndex[a := LastIndex(n) + 1], matchIndex := k.matchIndex[a := 0]),
                         [AppendRpc(a, OpeningHeartbeat(n))]), rest, ev, false, now)
  {
    hide Implement, OpeningHeartbeat, Perform;
    var next := LastIndex(n) + 1;
    var hello := SendAppend(a, OpeningHeartbeat(n));
    var t2 := [hello] + rest;
    var t1 := [SetMatchIndex(a, 0)] + t2;
    assert [SetNextIndex(a, next), SetMatchIndex(a, 0), hello] + rest == [SetNextIndex(a, next)] + t1;
    var k1 := k.(nextIndex := k.nextIndex[a := next]);
    var k2 := k1.(matchIndex := k.matchIndex[a := 0]);
    IndicesSet(k, a, next, 0);
    IndicesSet(k1, a, next, 0);
    ConsQuiet(SetNextIndex(a, next), t1, ev, false, k, k1, now);
    ConsQuiet(SetMatchIndex(a, 0), t2, ev, false, k1, k2, now);
    Cons(hello, rest, ev, false, k2, now);
    SendOne(k2, hello, false);
    HelloAlone(a, OpeningHeartbeat(n));
  }

  lemma HelloAlone(a: Address, m: AppendRequest)
    ensures Sent([SendAppend(a, m)]) == [AppendRpc(a, m)]
  {
  }

  /** The greetings, from a leader that stood as `n` before it appended anything. */
  lemma {:induction false} GreetRun(n: NodeState, peers: seq<Address>, ev: Event, k: NodeState, now: int)
    requires !k.halted
    ensures Implement(GreetPeers(n, peers), ev, false, k, now)
         == Outcome(k.(nextIndex := Marked(k.nextIndex, peers, LastIndex(n) + 1), matchIndex := Marked(k.matchIndex, peers, 0)),
                    Sent(GreetPeers(n, peers)))
    decreases |peers|
  {
    hide Implement, OpeningHeartbeat, Sent;
    if |peers| == 0 {
      Nothing(ev, false, k, now);
      SentNothing();
    } else {
      var a := peers[0];
      GreetOne(n, a, GreetPeers(n, peers[1..]), ev, k, now);
      GreetRun(n, peers[1..], ev, k.(nextIndex := k.nextIndex[a := LastIndex(n) + 1], matchIndex := k.matchIndex[a := 0]), now);
      GreetingSent(n, peers);
    }
  }

  lemma SentNothing()
    ensures Sent([]) == []
  {
  }

  lemma GreetingSent(n: NodeState, peers: seq<Address>)
    requires |peers| > 0
    ensures Sent(GreetPeers(n, peers)) == [AppendRpc(peers[0], OpeningHeartbeat(n))] + Sent(GreetPeers(n, peers[1..]))
  {
    hide OpeningHeartbeat;
    GreetPeersSent(n, peers);
    GreetPeersSent(n, peers[1..]);
  }

  lemma TimerSet(n: NodeState)
    ensures Perform(n, ResetTimer(true), false) == Outcome(n, [Timer(true)])
  {
  }

  lemma EnterLeader(n: NodeState, ev: Event, now: int)
    requires !n.halted
    ensures Implement(LeaderOnStateChanged(n), ev, false, n.(role := Leader), now)
         == Outcome(Crowned(n), Sent(GreetPeers(n, n.peers)) + [Timer(true)])
  {
    hide Implement, OpeningHeartbeat, GreetPeers, Marked, Perform;
    var greet := GreetPeers(n, n.peers);
    var tail := greet + [ResetTimer(true)];
    var k := n.(role := Leader, log := n.log + [NoOp(n.currentTerm)]);
    assert LeaderOnStateChanged(n) == [AppendLog([NoOp(n.currentTerm)])] + tail;
    Appended(n.(role := Leader), [NoOp(n.currentTerm)], false);
    ConsQuiet(AppendLog([NoOp(n.currentTerm)]), tail, ev, false, n.(role := Leader), k, now);
    TimerSet(Crowned(n));
    ImplementConcat(greet, [ResetTimer(true)], ev, false, k, now);
    GreetRun(n, n.peers, ev, k, now);
    Single(ResetTimer(true), ev, false, Crowned(n), now);
  }

  // ----- timeouts -----

  lemma FollowerTimeout(n: NodeState, now: int)
    requires !n.halted && n.role.Follower?
    ensures React(n, Timeout, now)
         == Outcome(BecomeCandidate(n), [Timer(false)] + Sent(AskPeers(n.peers, VoteRequestOf(n))))
  {
    var list := [SetState(Candidate)];
    Unfold(list, Timeout, false, n, now);
    EnterCandidate(n, StateChanged, now);
    var c := n.(role := Candidate);
    assert CandidateOnStateChanged(c) == CandidateOnStateChanged(n);
    assert First(list, Timeout, false, n, now) == Implement(CandidateOnStateChanged(n), StateChanged, false, c, now) by { hide Implement; }
  }

  lemma CandidateTimeout(n: NodeState, now: int)
    requires !n.halted && n.role.Candidate?
    ensures React(n, Timeout, now) == Outcome(BecomeFollower(n), [Timer(false)])
  {
    assert [SetState(Follower)] == [SetState(Follower)] + [];
    StepDown([], Timeout, false, n, now);
  }

  lemma LeaderTimeout(n: NodeState, now: int)
    requires !n.halted && n.role.Leader?
    ensures TimeoutCrashes(n) ==> React(n, Timeout, now) == Outcome(n.(halted := true), [])
    ensures !TimeoutCrashes(n) ==> React(n, Timeout, now) == Outcome(n, [Timer(true)] + Sent(FeedPeers(n, n.peers)))
  {
    hide RequestFor, Handle, Implement;
    LeaderTimeoutList(n, now);
    if TimeoutCrashes(n) {
      Single(Crash, Timeout, false, n, now);
    } else {
      var feed := FeedPeers(n, n.peers);
      FeedPeersSent(n, n.peers);
      var list := [ResetTimer(true)] + feed;
      assert All(list, a => Emits(a)) by {
        forall i | 0 <= i < |list| ensures Emits(list[i]) { if i > 0 { assert list[i] == feed[i - 1]; } }
      }
      SendRun(list, Timeout, false, n, now);
      assert Sent(list) == [Timer(true)] + Sent(feed) by { assert list[1..] == feed; }
    }
  }

  lemma LeaderTimeoutList(n: NodeState, now: int)
    requires n.role.Leader?
    ensures Handle(n, Timeout, now) == if TimeoutCrashes(n) then [Crash] else [ResetTimer(true)] + FeedPeers(n, n.peers)
  {
    hide FeedPeers;
  }

  // ----- append entries -----

  /** What hearing from a leader does before the consistency check is decided. */
  function Heard(n: NodeState, m: AppendRequest, now: int): NodeState {
    n.(leaderLastHeard := now, currentTerm := if m.term > n.currentTerm then m.term else n.currentTerm)
  }

  /** The configuration the node falls back to when its log is cut after `m.prevIndex`. */
  function FallenBack(n: NodeState, r: Rewound): NodeState
    requires r.Rewound?
  {
    if r.moved then WithPeers(n.(changeIndex := r.index, changeTerm := r.term), Others(r.cluster, n.address)) else n
  }

  /** The configuration the node takes over from the entries it was sent. */
  function Adopted(n: NodeState, m: AppendRequest): NodeState {
    var i := LastChange(m.entries);
    if i < 0 then n
    else WithPeers(n.(changeIndex := m.prevIndex + i + 1, changeTerm := m.entries[i].term),
                   Others(RecordOf(m.entries[i].payload).newCluster, n.address))
  }

  /** The log after an accepted request. */
  function NewLog(log: seq<LogEntry>, m: AppendRequest): seq<LogEntry>
    requires -1 <= m.prevIndex < |log|
  {
    if |m.entries| == 0 then log else log[..m.prevIndex + 1] + m.entries
  }

  /** The follower after it has stored an accepted request, before it commits and applies. */
  function Stored(n: NodeState, m: AppendRequest, now: int): NodeState
    requires -1 <= m.prevIndex < |n.log|
    requires |m.entries| > 0 ==> Rewind(n.log, m.prevIndex, Recorded(n)).Rewound?
  {
    var h := Heard(n, m, now);
    if |m.entries| == 0 then h
    else
      var r := Rewind(n.log, m.prevIndex, Recorded(n));
      Adopted(FallenBack(h, r).(log := NewLog(n.log, m)), m)
  }

  lemma AcceptsInRange(n: NodeState, m: AppendRequest)
    requires Accepts(n, m)
    ensures -1 <= m.prevIndex < |n.log|
    ensures m.prevIndex >= 0 ==> n.log[m.prevIndex].term == m.prevTerm
  {
  }

  lemma HearingSet(n: NodeState, term: int, now: int, chan: bool)
    ensures Perform(n, ResetTimer(false), chan) == Outcome(n, [Timer(false)])
    ensures Perform(n, SetLeaderLastHeard(now), chan) == Outcome(n.(leaderLastHeard := now), [])
    ensures Perform(n, SetCurrentTerm(term), chan) == Outcome(n.(currentTerm := term), [])
  {
  }

  lemma HeardRun(n: NodeState, m: AppendRequest, rest: seq<Action>, ev: Event, chan: bool, now: int)
    requires !n.halted
    ensures Implement(HeardActions(n, m, now) + rest, ev, chan, n, now)
         == Then(Outcome(Heard(n, m, now), [Timer(false)]), rest, ev, chan, now)
  {
    hide Implement, Perform;
    var set' := if m.term > n.currentTerm then [SetCurrentTerm(m.term)] else [];
    var t2 := set' + rest;
    var t1 := [SetLeaderLastHeard(now)] + t2;
    assert HeardActions(n, m, now) + rest == [ResetTimer(false)] + t1;
    var h := n.(leaderLastHeard := now);
    HearingSet(n, m.term, now, chan);
    HearingSet(h, m.term, now, chan);
    Cons(ResetTimer(false), t1, ev, chan, n, now);
    ConsQuiet(SetLeaderLastHeard(now), t2, ev, chan, n, h, now);
    if m.term > n.currentTerm {
      ConsQuiet(SetCurrentTerm(m.term), rest, ev, chan, h, Heard(n, m, now), now);
    } else {
      assert t2 == rest;
    }
  }

  /** Taking over a configuration: its place in the log, and its members. */
  lemma TakeOverRun(k: NodeState, index: int, term: int, peers: seq<Address>, ev: Event, chan: bool, now: int)
    requires !k.halted
    ensures Implement([SetClusterChange(index, term), SetPeers(peers)], ev, chan, k, now)
         == Outcome(WithPeers(k.(changeIndex := index, changeTerm := term), peers), [])
  {
    hide Implement, Perform, WithPeers;
    var k1 := k.(changeIndex := index, changeTerm := term);
    assert [SetClusterChange(index, term), SetPeers(peers)] == [SetClusterChange(index, term)] + [SetPeers(peers)];
    ConfigSet(k, index, term, peers, chan);
    ConsQuiet(SetClusterChange(index, term), [SetPeers(peers)], ev, chan, k, k1, now);
    ConfigSet(k1, index, term, peers, chan);
    Single(SetPeers(peers), ev, chan, k1, now);
  }

  lemma ConfigSet(k: NodeState, index: int, term: int, peers: seq<Address>, chan: bool)
    ensures Perform(k, SetClusterChange(index, term), chan) == Outcome(k.(changeIndex := index, changeTerm := term), [])
    ensures Perform(k, SetPeers(peers), chan) == Outcome(WithPeers(k, peers), [])
  {
    hide WithPeers;
  }

  lemma FallBackRun(n: NodeState, k: NodeState, r: Rewound, ev: Event, chan: bool, now: int)
    requires r.Rewound? && !k.halted && k.address == n.address
    ensures Implement(RewindActions(n, r), ev, chan, k, now) == Outcome(FallenBack(k, r), [])
  {
    hide Implement, Others;
    Nothing(ev, chan, k, now);
    if r.moved {
      TakeOverRun(k, r.index, r.term, Others(r.cluster, n.address), ev, chan, now);
    }
  }

  lemma AdoptRun(n: NodeState, k: NodeState, m: AppendRequest, ev: Event, chan: bool, now: int)
    requires !k.halted && k.address == n.address
    ensures Implement(AdoptActions(n, m), ev, chan, k, now) == Outcome(Adopted(k, m), [])
  {
    hide Implement, Others;
    Nothing(ev, chan, k, now);
    var i := LastChange(m.entries);
    if i >= 0 {
      TakeOverRun(k, m.prevIndex + i + 1, m.entries[i].term, Others(RecordOf(m.entries[i].payload).newCluster, n.address), ev, chan, now);
    }
  }

  lemma FallenBackKeeps(h: NodeState, k: NodeState, r: Rewound)
    requires r.Rewound? && k == h.(log := k.log)
    ensures FallenBack(k, r) == FallenBack(h, r).(log := k.log)
    ensures FallenBack(k, r).halted == k.halted && FallenBack(k, r).address == k.address
  {
  }

  lemma CutAfter(h: NodeState, prev: int, chan: bool)
    requires -1 <= prev < |h.log|
    ensures Perform(h, DeleteLog(LastIndex(h) - prev), chan) == Outcome(h.(log := h.log[..prev + 1]), [])
  {
    assert h.log[..|h.log|] == h.log;
  }

  lemma Appended(k: NodeState, entries: seq<LogEntry>, chan: bool)
    ensures Perform(k, AppendLog(entries), chan) == Outcome(k.(log := k.log + entries), [])
  {
  }

  lemma StoreRun(n: NodeState, m: AppendRequest, ev: Event, chan: bool, now: int)
    requires !n.halted && -1 <= m.prevIndex < |n.log|
    requires |m.entries| > 0 ==> Rewind(n.log, m.prevIndex, Recorded(n)).Rewound?
    ensures Implement(StoreActions(n, m), ev, chan, Heard(n, m, now), now) == Outcome(Stored(n, m, now), [])
  {
    hide Implement, Perform, Rewind, RewindActions, AdoptActions, Adopted, FallenBack;
    var h := Heard(n, m, now);
    Nothing(ev, chan, h, now);
    if |m.entries| > 0 {
      var r := Rewind(n.log, m.prevIndex, Recorded(n));
      var k := h.(log := n.log[..m.prevIndex + 1]);
      var t2 := [AppendLog(m.entries)] + AdoptActions(n, m);
      var t1 := RewindActions(n, r) + t2;
      assert StoreActions(n, m) == [DeleteLog(LastIndex(n) - m.prevIndex)] + t1;
      CutAfter(h, m.prevIndex, chan);
      ConsQuiet(DeleteLog(LastIndex(n) - m.prevIndex), t1, ev, chan, h, k, now);
      ImplementConcat(RewindActions(n, r), t2, ev, chan, k, now);
      FallBackRun(n, k, r, ev, chan, now);
      var k2 := FallenBack(k, r);
      FallenBackKeeps(h, k, r);
      Appended(k2, m.entries, chan);
      ConsQuiet(AppendLog(m.entries), AdoptActions(n, m), ev, chan, k2, k2.(log := k2.log + m.entries), now);
      AdoptRun(n, k2.(log := k2.log + m.entries), m, ev, chan, now);
    }
  }

  /** What a follower that has decided on a request emits: it answers with its old term. */
  function FollowerOutput(f: NodeState, success: bool): seq<Output> {
    [Timer(false), Answer(AppendResult(AppendAnswer(f.address, success, f.currentTerm)))]
  }

  /** A node that holds a rejected request has only heard it. */
  lemma FollowerRejects(n: NodeState, m: AppendRequest, ev: Event, now: int)
    requires !n.halted && !Accepts(n, m)
    ensures Implement(FollowerOnAppendEntries(n, m, now), ev, true, n, now)
         == Outcome(Heard(n, m, now), FollowerOutput(n, false))
  {
    hide Implement, HeardActions, Accepts, AppendCrashes, StoreActions, CommitActions;
    var reply := Respond(AppendResult(AppendAnswer(n.address, false, n.currentTerm)));
    HeardRun(n, m, [reply], ev, true, now);
    Single(reply, ev, true, Heard(n, m, now), now);
  }

  /** An accepted request is answered, stored, and then committed and applied; the commit
      part moves only the commit index, the database and results. */
  lemma FollowerAccepts(n: NodeState, m: AppendRequest, ev: Event, now: int)
    requires !n.halted && Accepts(n, m) && !AppendCrashes(n, m)
    ensures Implement(FollowerOnAppendEntries(n, m, now), ev, true, n, now)
         == Then(Outcome(Stored(n, m, now), FollowerOutput(n, true)), CommitActions(n, m), ev, true, now)
  {
    hide Implement, HeardActions, Accepts, StoreActions, CommitActions, Rewind, Stored;
    AcceptsInRange(n, m);
    var reply := Respond(AppendResult(AppendAnswer(n.address, true, n.currentTerm)));
    var store := StoreActions(n, m);
    var commit := CommitActions(n, m);
    HeardRun(n, m, [reply] + (store + commit), ev, true, now);
    var h := Heard(n, m, now);
    Cons(reply, store + commit, ev, true, h, now);
    ImplementConcat(store, commit, ev, true, h, now);
    StoreRun(n, m, ev, true, now);
  }

  lemma CommitRun(n: NodeState, m: AppendRequest, ev: Event, k: NodeState, now: int)
    ensures var o := Implement(CommitActions(n, m), ev, true, k, now);
            && o.out == []
            && SameLog(k.log, o.node.log)
            && o.node == k.(commitIndex := o.node.commitIndex, lastApplied := o.node.lastApplied,
                            database := o.node.database, log := o.node.log, halted := o.node.halted)
  {
    var apply := ApplyActions(n, m, n.commitIndex + 1);
    ApplyActionsAdvance(n, m, n.commitIndex + 1);
    hide Implement, ApplyActions;
    var list := CommitActions(n, m);
    assert All(list, a => Advances(a)) by {
      forall i | 0 <= i < |list| ensures Advances(list[i]) { if i > 0 { assert list[i] == apply[i - 1]; } }
    }
    AdvanceRun(list, ev, true, k, now);
  }

  /** The follower state in which a request that is not simply refused ends up being
      handled: candidates and leaders step down first, a candidate taking the new term. */
  function Receiver(n: NodeState, term: int): NodeState {
    match n.role
    case Follower => n
    case Candidate => BecomeFollower(n).(currentTerm := term)
    case Leader => BecomeFollower(n)
  }

  lemma ReceiverKeeps(n: NodeState, term: int)
    ensures var f := Receiver(n, term);
            f == n.(role := Follower, currentTerm := f.currentTerm, votedFor := f.votedFor, voteCount := f.voteCount)
  {
    match n.role
    case Follower =>
    case Candidate => assert Receiver(n, term) == BecomeFollower(n).(currentTerm := term);
    case Leader => assert Receiver(n, term) == BecomeFollower(n);
  }

  /** The request reaches a follower's handler, possibly after stepping down. */
  predicate Reaches(n: NodeState, m: AppendRequest) {
    match n.role
    case Follower => true
    case Candidate => m.term >= n.currentTerm
    case Leader => m.term > n.currentTerm
  }

  function StepOut(n: NodeState): seq<Output> {
    if n.role.Follower? then [] else [Timer(false)]
  }

  lemma AppendReaches(n: NodeState, m: AppendRequest, now: int)
    requires !n.halted && Reaches(n, m)
    ensures React(n, AppendEntries(m), now)
         == Then(Outcome(Receiver(n, m.term), StepOut(n)), FollowerOnAppendEntries(Receiver(n, m.term), m, now), AppendEntries(m), true, now)
  {
    hide Implement, FollowerOnAppendEntries;
    var ev := AppendEntries(m);
    match n.role
    case Follower =>
      Nothing(ev, true, n, now);
    case Candidate =>
      assert Handle(n, ev, now) == [SetCurrentTerm(m.term)] + ([SetState(Follower)] + [Reprocess]);
      Cons(SetCurrentTerm(m.term), [SetState(Follower)] + [Reprocess], ev, true, n, now);
      StepDown([Reprocess], ev, true, n.(currentTerm := m.term), now);
      Again(Receiver(n, m.term), ev, true, now);
    case Leader =>
      assert Handle(n, ev, now) == [SetState(Follower)] + [Reprocess];
      StepDown([Reprocess], ev, true, n, now);
      Again(Receiver(n, m.term), ev, true, now);
  }

  /** Reprocessing at the end of a list hands the event to the handler of the role reached. */
  lemma Again(n: NodeState, ev: Event, chan: bool, now: int)
    requires !n.halted
    ensures Implement([Reprocess], ev, chan, n, now) == Implement(Handle(n, ev, now), ev, chan, n, now)
  {
    hide Implement, Handle, Perform;
    var list := [Reprocess];
    Unfold(list, ev, chan, n, now);
    var o := Implement(Handle(n, ev, now), ev, chan, n, now);
    assert list[1..] == [];
    assert First(list, ev, chan, n, now) == o;
    Nothing(ev, chan, o.node, now);
    assert o.out + [] == o.out;
  }

  lemma AppendRefused(n: NodeState, m: AppendRequest, now: int)
    requires !n.halted && !Reaches(n, m)
    ensures React(n, AppendEntries(m), now)
         == Outcome(n, if n.role.Leader? then [] else [Answer(AppendResult(AppendAnswer(n.address, false, n.currentTerm)))])
  {
    var ev := AppendEntries(m);
    hide Implement;
    Nothing(ev, true, n, now);
    Single(Respond(AppendResult(AppendAnswer(n.address, false, n.currentTerm))), ev, true, n, now);
  }

  lemma Crashed(n: NodeState)
    ensures Perform(n, Crash, true) == Outcome(n.(halted := true), [])
  {
  }

  /** The three ends of a request that reaches a follower. */
  lemma AppendOutcome(n: NodeState, m: AppendRequest, now: int)
    requires !n.halted && Reaches(n, m)
    ensures var f := Receiver(n, m.term);
            React(n, AppendEntries(m), now) ==
              if !Accepts(f, m) then
                Outcome(Heard(f, m, now), StepOut(n) + FollowerOutput(f, false))
              else if AppendCrashes(f, m) then
                Outcome(f.(halted := true), StepOut(n))
              else
                Outcome(Implement(CommitActions(f, m), AppendEntries(m), true, Stored(f, m, now), now).node,
                        StepOut(n) + FollowerOutput(f, true))
  {
    hide Receiver, StepOut, FollowerOutput, Handle, Implement;
    var f := Receiver(n, m.term);
    var ev := AppendEntries(m);
    AppendReaches(n, m, now);
    ReceiverKeeps(n, m.term);
    hide Perform, Accepts, AppendCrashes, Stored, Heard, CommitActions, HeardActions, StoreActions, Reaches,
         Rewind, React;
    if !Accepts(f, m) {
      FollowerRejects(f, m, ev, now);
    } else if AppendCrashes(f, m) {
      Crashed(f);
      Single(Crash, ev, true, f, now);
      assert StepOut(n) + [] == StepOut(n);
    } else {
      FollowerAccepts(f, m, ev, now);
      CommitRun(f, m, ev, Stored(f, m, now), now);
      assert FollowerOutput(f, true) + [] == FollowerOutput(f, true);
    }
  }


  // ----- request vote -----

  function Ballot(f: NodeState, m: VoteRequest, now: int): VoteAnswer {
    if RecentlyHeard(f, now) || m.term < f.currentTerm then VoteAnswer("", false, f.currentTerm)
    else VoteAnswer(f.address, GrantsVote(f, m, now), f.currentTerm)
  }

  /** The voter afterwards: it takes the newer term (unless it heard from a leader lately)
      and remembers whom it voted for. */
  function Voted(f: NodeState, m: VoteRequest, now: int): NodeState {
    if RecentlyHeard(f, now) || m.term < f.currentTerm then f
    else f.(currentTerm := m.term, votedFor := if GrantsVote(f, m, now) then m.candidate else f.votedFor)
  }

  lemma FollowerVotes(f: NodeState, m: VoteRequest, ev: Event, now: int)
    requires !f.halted
    ensures Implement(FollowerOnRequestVote(f, m, now), ev, true, f, now)
         == Outcome(Voted(f, m, now), [Answer(VoteResult(Ballot(f, m, now)))])
  {
    hide Implement, Perform, GrantsVote, RecentlyHeard;
    if RecentlyHeard(f, now) || m.term < f.currentTerm {
      Answered(f, VoteResult(VoteAnswer("", false, f.currentTerm)));
      Single(Respond(VoteResult(VoteAnswer("", false, f.currentTerm))), ev, true, f, now);
    } else {
      var g := f.(currentTerm := m.term);
      var granted := GrantsVote(f, m, now);
      BallotRun(g, VoteAnswer(f.address, granted, f.currentTerm), m.candidate, ev, now);
      var t := [Respond(VoteResult(VoteAnswer(f.address, granted, f.currentTerm)))] + (if granted then [SetVotedFor(m.candidate)] else []);
      if m.term > f.currentTerm {
        assert FollowerOnRequestVote(f, m, now) == [SetCurrentTerm(m.term)] + t;
        HearingSet(f, m.term, now, true);
        ConsQuiet(SetCurrentTerm(m.term), t, ev, true, f, g, now);
      } else {
        assert FollowerOnRequestVote(f, m, now) == t;
        assert g == f;
      }
    }
  }

  /** Answering a vote request, and remembering the candidate if the vote is granted. */
  lemma BallotRun(g: NodeState, b: VoteAnswer, candidate: Address, ev: Event, now: int)
    requires !g.halted
    ensures Implement([Respond(VoteResult(b))] + (if b.granted then [SetVotedFor(candidate)] else []), ev, true, g, now)
         == Outcome(if b.granted then g.(votedFor := candidate) else g, [Answer(VoteResult(b))])
  {
    hide Implement;
    var rest := if b.granted then [SetVotedFor(candidate)] else [];
    Cons(Respond(VoteResult(b)), rest, ev, true, g, now);
    if b.granted { Single(SetVotedFor(candidate), ev, true, g, now); } else { Nothing(ev, true, g, now); }
  }

  /** A request for a vote that makes its way to a follower's handler. */
  predicate VoteReaches(n: NodeState, m: VoteRequest) {
    n.role.Follower? || m.term > n.currentTerm
  }

  lemma VoteOutcome(n: NodeState, m: VoteRequest, now: int)
    requires !n.halted
    ensures React(n, RequestVote(m), now) ==
              if VoteReaches(n, m) then
                var f := Receiver(n, m.term);
                Outcome(Voted(f, m, now), StepOut(n) + [Answer(VoteResult(Ballot(f, m, now)))])
              else Outcome(n, [Answer(VoteResult(VoteAnswer(n.address, false, n.currentTerm)))])
  {
    hide Implement, Perform, FollowerOnRequestVote, Voted, Ballot;
    var ev := RequestVote(m);
    var f := Receiver(n, m.term);
    if !VoteReaches(n, m) {
      Answered(n, VoteResult(VoteAnswer(n.address, false, n.currentTerm)));
      Single(Respond(VoteResult(VoteAnswer(n.address, false, n.currentTerm))), ev, true, n, now);
    } else {
      FollowerVotes(f, m, ev, now);
      match n.role
      case Follower =>
      case Candidate =>
        assert Handle(n, ev, now) == [SetCurrentTerm(m.term)] + ([SetState(Follower)] + [Reprocess]);
        VotesSet(n, m.term, "", 0, true);
        ConsQuiet(SetCurrentTerm(m.term), [SetState(Follower)] + [Reprocess], ev, true, n, n.(currentTerm := m.term), now);
        StepDown([Reprocess], ev, true, n.(currentTerm := m.term), now);
        Again(f, ev, true, now);
      case Leader =>
        assert Handle(n, ev, now) == [SetState(Follower)] + [Reprocess];
        StepDown([Reprocess], ev, true, n, now);
        Again(f, ev, true, now);
    }
  }

  // ----- vote replies -----

  lemma VoteReplyOutcome(n: NodeState, r: VoteAnswer, now: int)
    requires !n.halted
    ensures !n.role.Candidate? ==> React(n, VoteReply(r), now) == Outcome(n, [])
    ensures n.role.Candidate? && r.term > n.currentTerm ==>
              React(n, VoteReply(r), now) == Outcome(BecomeFollower(n.(currentTerm := r.term)), [Timer(false)])
    ensures n.role.Candidate? && r.term <= n.currentTerm && !r.granted ==> React(n, VoteReply(r), now) == Outcome(n, [])
    ensures n.role.Candidate? && r.term <= n.currentTerm && r.granted ==>
              var c := n.(voteCount := n.voteCount + 1);
              var o := React(n, VoteReply(r), now);
              o == if Elected(c.voteCount, |n.peers|) then Outcome(Crowned(c), Sent(GreetPeers(n, n.peers)) + [Timer(true)])
                   else Outcome(c, [])
  {
    hide Implement, Crowned, GreetPeers;
    var ev := VoteReply(r);
    Nothing(ev, false, n, now);
    if n.role.Candidate? {
      if r.term > n.currentTerm {
        var k := n.(currentTerm := r.term);
        assert Handle(n, ev, now) == [SetCurrentTerm(r.term)] + ([SetState(Follower)] + []);
        Cons(SetCurrentTerm(r.term), [SetState(Follower)] + [], ev, false, n, now);
        StepDown([], ev, false, k, now);
        Nothing(ev, false, BecomeFollower(k), now);
      } else if r.granted {
        var c := n.(voteCount := n.voteCount + 1);
        var t := if Elected(c.voteCount, |n.peers|) then [SetState(Leader)] else [];
        Cons(SetVoteCount(c.voteCount), t, ev, false, n, now);
        Nothing(ev, false, c, now);
        if Elected(c.voteCount, |n.peers|) {
          CrownRun(c, ev, now);
          SameGreeting(n, c, n.peers);
        }
      }
    }
  }

  lemma {:induction false} SameGreeting(n: NodeState, c: NodeState, peers: seq<Address>)
    requires c == n.(voteCount := c.voteCount)
    ensures GreetPeers(n, peers) == GreetPeers(c, peers)
  {
    if |peers| > 0 { SameGreeting(n, c, peers[1..]); }
  }

  lemma CrownRun(n: NodeState, ev: Event, now: int)
    requires !n.halted
    ensures Implement([SetState(Leader)], ev, false, n, now)
         == Outcome(Crowned(n), Sent(GreetPeers(n, n.peers)) + [Timer(true)])
  {
    hide Implement, Crowned, GreetPeers;
    var list := [SetState(Leader)];
    var l := n.(role := Leader);
    EnterLeader(n, StateChanged, now);
    LeaderListSame(n, l);
    Unfold(list, ev, false, n, now);
    var o := Implement(LeaderOnStateChanged(n), StateChanged, false, l, now);
    assert First(list, ev, false, n, now) == o;
    assert list[1..] == [];
    Nothing(ev, false, o.node, now);
  }

  lemma LeaderListSame(n: NodeState, l: NodeState)
    requires l == n.(role := l.role)
    ensures LeaderOnStateChanged(n) == LeaderOnStateChanged(l)
  {
    SameGreetingRole(n, l, n.peers);
  }

  lemma {:induction false} SameGreetingRole(n: NodeState, l: NodeState, peers: seq<Address>)
    requires l == n.(role := l.role)
    ensures GreetPeers(n, peers) == GreetPeers(l, peers)
  {
    if |peers| > 0 { SameGreetingRole(n, l, peers[1..]); }
  }

  // ----- append replies -----

  /** The leader once a successful reply is recorded and the commit index advanced. */
  function Acknowledged(n: NodeState, r: AppendAnswer): NodeState {
    n.(nextIndex := n.nextIndex[r.address := LastIndex(n) + 1],
       matchIndex := n.matchIndex[r.address := LastIndex(n)],
       commitIndex := Max(n.commitIndex, NewCommit(n, r.address)))
  }

  function AdvanceList(n: NodeState, r: AppendAnswer): seq<Action> {
    AdvanceActions(n, n.lastApplied + 1, NewCommit(n, r.address))
  }

  lemma ReplyList(n: NodeState, r: AppendAnswer, now: int)
    ensures var h := Handle(n, AppendReply(r), now);
            if !n.role.Leader? then h == []
            else if r.term > n.currentTerm then h == [SetCurrentTerm(r.term)] + ([SetState(Follower)] + [])
            else if !r.success then h == [SetNextIndex(r.address, Lookup(n.nextIndex, r.address) - 1)]
            else h == [SetNextIndex(r.address, LastIndex(n) + 1)] + ([SetMatchIndex(r.address, LastIndex(n))]
                      + ((if NewCommit(n, r.address) > n.commitIndex then [SetCommitIndex(NewCommit(n, r.address))] else [])
                         + AdvanceList(n, r)))
  {
    hide NewCommit, AdvanceActions;
  }

  /** Recording a successful reply. */
  lemma AcknowledgeRun(n: NodeState, r: AppendAnswer, rest: seq<Action>, ev: Event, now: int)
    requires !n.halted
    ensures Implement([SetNextIndex(r.address, LastIndex(n) + 1)] + ([SetMatchIndex(r.address, LastIndex(n))]
                      + ((if NewCommit(n, r.address) > n.commitIndex then [SetCommitIndex(NewCommit(n, r.address))] else []) + rest)),
                      ev, false, n, now)
         == Implement(rest, ev, false, Acknowledged(n, r), now)
  {
    hide Implement, Perform, NewCommit;
    var c := NewCommit(n, r.address);
    var t2 := (if c > n.commitIndex then [SetCommitIndex(c)] else []) + rest;
    var k1 := n.(nextIndex := n.nextIndex[r.address := LastIndex(n) + 1]);
    var k2 := k1.(matchIndex := n.matchIndex[r.address := LastIndex(n)]);
    IndicesSet(n, r.address, LastIndex(n) + 1, 0);
    ConsQuiet(SetNextIndex(r.address, LastIndex(n) + 1), [SetMatchIndex(r.address, LastIndex(n))] + t2, ev, false, n, k1, now);
    IndicesSet(k1, r.address, 0, LastIndex(n));
    ConsQuiet(SetMatchIndex(r.address, LastIndex(n)), t2, ev, false, k1, k2, now);
    if c > n.commitIndex {
      CommitSet(k2, c, false);
      ConsQuiet(SetCommitIndex(c), rest, ev, false, k2, k2.(commitIndex := c), now);
    } else {
      assert t2 == rest;
    }
  }

  lemma CommitSet(k: NodeState, c: int, chan: bool)
    ensures Perform(k, SetCommitIndex(c), chan) == Outcome(k.(commitIndex := c), [])
    ensures Perform(k, SetLastApplied(c), chan) == Outcome(k.(lastApplied := c), [])
  {
  }

  lemma AppendReplyOutcome(n: NodeState, r: AppendAnswer, now: int)
    requires !n.halted
    ensures React(n, AppendReply(r), now) ==
              if !n.role.Leader? then Outcome(n, [])
              else if r.term > n.currentTerm then Outcome(BecomeFollower(n.(currentTerm := r.term)), [Timer(false)])
              else if !r.success then
                Outcome(n.(nextIndex := n.nextIndex[r.address := Lookup(n.nextIndex, r.address) - 1]), [])
              else Implement(AdvanceList(n, r), AppendReply(r), false, Acknowledged(n, r), now)
  {
    hide Implement, Handle, Perform, Acknowledged, NewCommit, AdvanceList;
    var ev := AppendReply(r);
    ReplyList(n, r, now);
    if !n.role.Leader? {
      Nothing(ev, false, n, now);
    } else if r.term > n.currentTerm {
      var k := n.(currentTerm := r.term);
      HearingSet(n, r.term, now, false);
      ConsQuiet(SetCurrentTerm(r.term), [SetState(Follower)] + [], ev, false, n, k, now);
      StepDown([], ev, false, k, now);
      Nothing(ev, false, BecomeFollower(k), now);
    } else if !r.success {
      IndicesSet(n, r.address, Lookup(n.nextIndex, r.address) - 1, 0);
      Single(SetNextIndex(r.address, Lookup(n.nextIndex, r.address) - 1), ev, false, n, now);
    } else {
      AcknowledgeRun(n, r, AdvanceList(n, r), ev, now);
    }
  }

  lemma AcknowledgedRun(n: NodeState, r: AppendAnswer, k: NodeState, now: int)
    ensures var o := Implement(AdvanceList(n, r), AppendReply(r), false, k, now);
            && o.out == []
            && SameLog(k.log, o.node.log)
            && o.node == k.(commitIndex := o.node.commitIndex, lastApplied := o.node.lastApplied,
                            database := o.node.database, log := o.node.log, halted := o.node.halted)
  {
    hide Implement;
    AdvanceActionsAdvance(n, n.lastApplied + 1, NewCommit(n, r.address));
    AdvanceRun(AdvanceList(n, r), AppendReply(r), false, k, now);
  }

  // ----- clients -----

  predicate IsClient(ev: Event) {
    ev.AddServer? || ev.RemoveServer? || ev.Command? || ev.Probe?
  }

  lemma ClientRefused(n: NodeState, ev: Event, now: int)
    requires !n.halted && IsClient(ev) && !n.role.Leader?
    ensures React(n, ev, now) == Outcome(n, [Answer(NotLeader)])
  {
    hide Implement;
    Single(Respond(NotLeader), ev, true, n, now);
  }

  function CommandEntryOf(n: NodeState, p: Payload): LogEntry {
    LogEntry(n.currentTerm, CommandEntry, p, "")
  }

  lemma CommandOutcome(n: NodeState, p: Payload, now: int)
    requires !n.halted && n.role.Leader?
    ensures React(n, Command(p), now) == Outcome(n.(log := n.log + [CommandEntryOf(n, p)]), [Answer(Ticket(n))])
  {
    hide Implement, Perform, Handle, CommandEntryOf, Ticket;
    var ev := Command(p);
    var k := n.(log := n.log + [CommandEntryOf(n, p)]);
    CommandList(n, p, now);
    Appended(n, [CommandEntryOf(n, p)], true);
    ConsQuiet(AppendLog([CommandEntryOf(n, p)]), [Respond(Ticket(n))], ev, true, n, k, now);
    Answered(k, Ticket(n));
    Single(Respond(Ticket(n)), ev, true, k, now);
  }

  lemma CommandList(n: NodeState, p: Payload, now: int)
    requires n.role.Leader?
    ensures Handle(n, Command(p), now) == [AppendLog([CommandEntryOf(n, p)])] + [Respond(Ticket(n))]
  {
  }

  lemma ProbeOutcome(n: NodeState, index: int, term: int, now: int)
    requires !n.halted && n.role.Leader?
    ensures React(n, Probe(index, term), now) == Outcome(n, [Answer(
              if !(0 <= index < |n.log|) then Failed("not in log")
              else if n.lastApplied < index then CheckLater(index, term)
              else if n.log[index].term != term then Failed("overwritten")
              else Completed(n.log[index].result))])
  {
    hide Implement;
    Single(LeaderOnStateMachineProbe(n, index, term)[0], Probe(index, term), true, n, now);
  }

  /** What a leader says that cannot take on a membership change yet. */
  function Refusal(n: NodeState): Reply {
    Failed(if n.commitIndex < n.changeIndex then "previous change in progress"
           else "did not commit anything on current term yet")
  }

  lemma ChangeRefused(n: NodeState, ev: Event, now: int)
    requires !n.halted && n.role.Leader? && (ev.AddServer? || ev.RemoveServer?)
    requires n.commitIndex < n.changeIndex || !(0 <= n.commitIndex < |n.log|) || n.log[n.commitIndex].term != n.currentTerm
    ensures !MayChange(n) && React(n, ev, now) == Outcome(n, [Answer(Refusal(n))])
  {
    hide Implement, Handle;
    RefusalList(n, ev, now);
    Single(Respond(Refusal(n)), ev, true, n, now);
  }

  lemma RefusalList(n: NodeState, ev: Event, now: int)
    requires n.role.Leader? && (ev.AddServer? || ev.RemoveServer?) && !MayChange(n)
    ensures Handle(n, ev, now) == [Respond(Refusal(n))]
  {
    hide MayChange, ChangeEntry, Others;
  }

  lemma ChangeList(n: NodeState, ev: Event, now: int)
    requires n.role.Leader? && (ev.AddServer? || ev.RemoveServer?) && MayChange(n)
    ensures var a := if ev.AddServer? then IncludeServer(ev.newServer) else ExcludeServer(ev.oldServer);
            && Handle(n, ev, now) == [a] + ([AppendLog([Changed(n, ev).1])] + [Respond(Ticket(n))])
            && Perform(n, a, true) == Outcome(Changed(n, ev).0, [])
  {
    hide MayChange, RefuseChange, Included, Excluded, ChangeEntry;
  }

  lemma ChangeTaken(n: NodeState, ev: Event, now: int)
    requires !n.halted && n.role.Leader? && (ev.AddServer? || ev.RemoveServer?) && MayChange(n)
    ensures var (k, e) := Changed(n, ev);
            React(n, ev, now) == if k.halted then Outcome(k, []) else Outcome(k.(log := n.log + [e]), [Answer(Ticket(n))])
  {
    hide Implement, MayChange, Changed, Handle, Perform;
    ChangeList(n, ev, now);
    ChangedKeeps(n, ev);
    ChangeRun(if ev.AddServer? then IncludeServer(ev.newServer) else ExcludeServer(ev.oldServer), ev, n, now);
  }

  /** Change the peers, append the entry, hand out the ticket - unless the first kills. */
  lemma ChangeRun(a: Action, ev: Event, n: NodeState, now: int)
    requires !n.halted && (ev.AddServer? || ev.RemoveServer?)
    requires !IsControl(a) && Perform(n, a, true) == Outcome(Changed(n, ev).0, [])
    ensures var (k, e) := Changed(n, ev);
            Implement([a] + ([AppendLog([e])] + [Respond(Ticket(n))]), ev, true, n, now)
            == if k.halted then Outcome(k, []) else Outcome(k.(log := k.log + [e]), [Answer(Ticket(n))])
  {
    hide Implement, Changed, Perform;
    var (k, e) := Changed(n, ev);
    var t := [AppendLog([e])] + [Respond(Ticket(n))];
    ConsQuiet(a, t, ev, true, n, k, now);
    if k.halted {
      Dead(t, ev, true, k, now);
    } else {
      var z := k.(log := k.log + [e]);
      Appended(k, [e], true);
      ConsQuiet(AppendLog([e]), [Respond(Ticket(n))], ev, true, k, z, now);
      Single(Respond(Ticket(n)), ev, true, z, now);
      Answered(z, Ticket(n));
    }
  }

  lemma Answered(n: NodeState, r: Reply)
    ensures Perform(n, Respond(r), true) == Outcome(n, [Answer(r)])
  {
  }

  /** A leader's part in a membership change: peers and log change, its own change index
      and term do not. */
  lemma ChangeOutcome(n: NodeState, ev: Event, now: int)
    requires !n.halted && n.role.Leader? && (ev.AddServer? || ev.RemoveServer?)
    ensures MayChange(n) <==>
              n.changeIndex <= n.commitIndex && 0 <= n.commitIndex < |n.log| && n.log[n.commitIndex].term == n.currentTerm
    ensures !MayChange(n) ==> React(n, ev, now) == Outcome(n, [Answer(Refusal(n))])
    ensures MayChange(n) ==>
              var (k, e) := Changed(n, ev);
              React(n, ev, now) == if k.halted then Outcome(k, []) else Outcome(k.(log := n.log + [e]), [Answer(Ticket(n))])
  {
    hide React, Changed;
    if MayChange(n) { ChangeTaken(n, ev, now); } else { ChangeRefused(n, ev, now); }
  }

  /** The leader with its new peers, and the entry it appends. */
  function Changed(n: NodeState, ev: Event): (NodeState, LogEntry)
    requires ev.AddServer? || ev.RemoveServer?
  {
    if ev.AddServer? then (Included(n, ev.newServer), ChangeEntry(n, n.peers + [n.address, ev.newServer]))
    else (Excluded(n, ev.oldServer), ChangeEntry(n, Others(n.peers + [n.address], ev.oldServer)))
  }

  lemma ChangedKeeps(n: NodeState, ev: Event)
    requires ev.AddServer? || ev.RemoveServer?
    ensures var k := Changed(n, ev).0;
            k == n.(peers := k.peers, nextIndex := k.nextIndex, matchIndex := k.matchIndex, halted := k.halted)
    ensures ev.AddServer? ==> Changed(n, ev).0.halted == n.halted
  {
  }

  // ----- start-up -----

  lemma RestartOutcome(n: NodeState, lastHeard: int, now: int)
    ensures Restart(n, lastHeard, now) == Outcome(BecomeFollower(Recovered(n, lastHeard)), [Timer(false)])
  {
    EnterFollower(Recovered(n, lastHeard), StateChanged, now);
  }
}
