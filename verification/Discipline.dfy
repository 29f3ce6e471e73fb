/** The interpreter's discipline: which requests are answered, how often, and what can kill
    a node. (That the interpreter terminates for every list, state and event is the
    termination measure of `Interpreter.Implement`.) */
module Discipline {
  import opened Types
  import opened Rules
  import opened Interpreter
  import opened Reactions
  import opened Effects
  import opened Applying
  import opened Outcomes

  function CountAnswers(out: seq<Output>): nat {
    if |out| == 0 then 0 else (if out[0].Answer? then 1 else 0) + CountAnswers(out[1..])
  }

  lemma {:induction false} CountConcat(a: seq<Output>, b: seq<Output>)
    ensures CountAnswers(a + b) == CountAnswers(a) + CountAnswers(b)
  {
    if |a| == 0 {
      assert a + b == b;
    } else {
      assert (a + b)[1..] == a[1..] + b;
      CountConcat(a[1..], b);
    }
  }

  lemma {:induction false} CountNone(out: seq<Output>)
    requires forall i :: 0 <= i < |out| ==> !out[i].Answer?
    ensures CountAnswers(out) == 0
  {
    if |out| > 0 { CountNone(out[1..]); }
  }

  lemma CountOne(o: Output)
    ensures CountAnswers([o]) == if o.Answer? then 1 else 0
  {
    assert [o][1..] == [];
  }

  /** The follower's handler dies on this request before it has decided anything. */
  predicate DiesDeciding(n: NodeState, m: AppendRequest) {
    Reaches(n, m) && Accepts(Receiver(n, m.term), m) && AppendCrashes(Receiver(n, m.term), m)
  }

  /** Asked to remove a server that is not among its peers, a leader dies. */
  predicate DiesRemoving(n: NodeState, ev: Event) {
    ev.RemoveServer? && n.role.Leader? && MayChange(n) && ev.oldServer !in n.peers
  }

  /** The requests that get no answer: an append request to a leader of the same or a later
      term, and the two on which the node dies first. */
  predicate Unanswered(n: NodeState, ev: Event) {
    match ev
    case AppendEntries(m) => (n.role.Leader? && m.term <= n.currentTerm) || DiesDeciding(n, m)
    case RemoveServer(_) => DiesRemoving(n, ev)
    case _ => false
  }

  lemma {:induction false} OthersShorter(cluster: seq<Address>, a: Address)
    ensures |Others(cluster, a)| <= |cluster|
    ensures |Others(cluster, a)| == |cluster| <==> a !in cluster
  {
    if |cluster| > 0 {
      OthersShorter(cluster[1..], a);
      assert cluster == [cluster[0]] + cluster[1..];
    }
  }

  lemma RemovingDies(n: NodeState, server: Address)
    requires !n.halted
    ensures Excluded(n, server).halted <==> server !in n.peers
  {
    OthersShorter(n.peers, server);
  }

  /** Reply discipline: a request from outside is answered exactly once, unless it is one of
      the unanswered kind; events without a reply channel are never answered. */
  lemma OneAnswerEach(n: NodeState, ev: Event, now: int)
    requires !n.halted && !ev.StateChanged?
    ensures CountAnswers(React(n, ev, now).out) == if IsRpc(ev) && !Unanswered(n, ev) then 1 else 0
  {
    hide React, Implement, AppendCrashes, Accepts, NewCommit, AdvanceList, Included, MayChange, UpToDate,
         Excluded, CountAnswers, GreetPeers, FeedPeers, AskPeers, Elected;
    var out := React(n, ev, now).out;
    match ev
    case Timeout => TimeoutSilent(n, now);
    case AppendEntries(m) => AppendAnswered(n, m, now);
    case RequestVote(m) => VoteAnswered(n, m, now);
    case VoteReply(r) => Outputs(n, ev, now); CountNone(out);
    case AppendReply(r) => Outputs(n, ev, now); CountNone(out);
    case _ => if IsClient(ev) { ClientAnswered(n, ev, now); }
  }

  lemma TimeoutSilent(n: NodeState, now: int)
    requires !n.halted
    ensures CountAnswers(React(n, Timeout, now).out) == 0
  {
    hide React;
    Outputs(n, Timeout, now);
    CountNone(React(n, Timeout, now).out);
  }

  lemma AppendAnswered(n: NodeState, m: AppendRequest, now: int)
    requires !n.halted
    ensures CountAnswers(React(n, AppendEntries(m), now).out) == if Unanswered(n, AppendEntries(m)) then 0 else 1
  {
    hide React, Implement, AppendCrashes, Accepts, CountAnswers, Stored, Rewind, CommitActions;
    var f := Receiver(n, m.term);
    CountNone([]);
    if Reaches(n, m) {
      AppendOutcome(n, m, now);
      CountNone(StepOut(n));
      var verdict := FollowerOutput(f, Accepts(f, m));
      assert verdict == [Timer(false)] + [verdict[1]];
      CountOne(Timer(false));
      CountOne(verdict[1]);
      CountConcat([Timer(false)], [verdict[1]]);
      CountConcat(StepOut(n), verdict);
    } else {
      AppendRefused(n, m, now);
      CountOne(Answer(AppendResult(AppendAnswer(n.address, false, n.currentTerm))));
    }
  }

  lemma VoteAnswered(n: NodeState, m: VoteRequest, now: int)
    requires !n.halted
    ensures CountAnswers(React(n, RequestVote(m), now).out) == 1
  {
    hide React, CountAnswers, Ballot, Voted;
    VoteOutcome(n, m, now);
    var answer := Answer(VoteResult(Ballot(Receiver(n, m.term), m, now)));
    CountNone(StepOut(n));
    CountOne(answer);
    CountConcat(StepOut(n), [answer]);
    CountOne(Answer(VoteResult(VoteAnswer(n.address, false, n.currentTerm))));
  }

  lemma ClientAnswered(n: NodeState, ev: Event, now: int)
    requires !n.halted && IsClient(ev)
    ensures CountAnswers(React(n, ev, now).out) == if Unanswered(n, ev) then 0 else 1
  {
    hide React, CountAnswers, MayChange, Included, Excluded, Others;
    CountNone([]);
    forall o | o in React(n, ev, now).out ensures CountAnswers([o]) == if o.Answer? then 1 else 0 { CountOne(o); }
    if !n.role.Leader? {
      ClientRefused(n, ev, now);
    } else if ev.Command? {
      CommandOutcome(n, ev.payload, now);
    } else if ev.Probe? {
      ProbeOutcome(n, ev.index, ev.term, now);
    } else {
      ChangeOutcome(n, ev, now);
      ChangedKeeps(n, ev);
      if ev.RemoveServer? { RemovingDies(n, ev.oldServer); }
    }
  }

  /** All the ways an event can kill a node: the follower's handler dies deciding, a leader
      times out with a negative next index, a leader removes a stranger, or a command that
      does not decode is applied. A reply without a channel is not among them. */
  predicate Dies(n: NodeState, ev: Event)
    requires -1 <= n.commitIndex && -1 <= n.lastApplied
  {
    match ev
    case Timeout => n.role.Leader? && TimeoutCrashes(n)
    case AppendEntries(m) =>
      DiesDeciding(n, m)
      || (Takes(n, m) && n.commitIndex + 1 < m.commit
          && exists i :: n.commitIndex < i < m.commit && Undecodable(EntryFor(Receiver(n, m.term), m, i)))
    case RemoveServer(_) => DiesRemoving(n, ev)
    case AppendReply(r) =>
      n.role.Leader? && r.term <= n.currentTerm && r.success && n.lastApplied < NewCommit(n, r.address)
      && exists i :: n.lastApplied < i < Stop(n, NewCommit(n, r.address)) && Undecodable(Get(n.log, i))
    case _ => false
  }

  predicate Undecodable(e: Option<LogEntry>) {
    e.Some? && e.value.kind == CommandEntry && CommandOf(e.value.payload).None?
  }

  lemma DiesIff(n: NodeState, ev: Event, now: int)
    requires !n.halted && !ev.StateChanged? && -1 <= n.commitIndex && -1 <= n.lastApplied
    ensures React(n, ev, now).node.halted <==> Dies(n, ev)
  {
    hide React, Implement, AppendCrashes, Accepts, NewCommit, AdvanceList, Included, MayChange, UpToDate,
         Excluded, GreetPeers, FeedPeers, AskPeers, Elected;
    match ev
    case Timeout =>
      match n.role {
        case Follower => FollowerTimeout(n, now);
        case Candidate => CandidateTimeout(n, now);
        case Leader => LeaderTimeout(n, now);
      }
    case AppendEntries(m) => AppendDies(n, m, now);
    case RequestVote(m) => VoteOutcome(n, m, now);
    case VoteReply(r) => VoteReplyOutcome(n, r, now);
    case AppendReply(r) => ReplyDies(n, r, now);
    case _ => if IsClient(ev) { ClientDies(n, ev, now); }
  }

  lemma ClientDies(n: NodeState, ev: Event, now: int)
    requires !n.halted && IsClient(ev)
    ensures React(n, ev, now).node.halted <==> DiesRemoving(n, ev)
  {
    hide React, MayChange, Included, Excluded, Others;
    if !n.role.Leader? {
      ClientRefused(n, ev, now);
    } else if ev.Command? {
      CommandOutcome(n, ev.payload, now);
    } else if ev.Probe? {
      ProbeOutcome(n, ev.index, ev.term, now);
    } else {
      ChangeOutcome(n, ev, now);
      ChangedKeeps(n, ev);
      if ev.RemoveServer? { RemovingDies(n, ev.oldServer); }
    }
  }

  lemma AppendDies(n: NodeState, m: AppendRequest, now: int)
    requires !n.halted && -1 <= n.commitIndex && -1 <= n.lastApplied
    ensures React(n, AppendEntries(m), now).node.halted <==> Dies(n, AppendEntries(m))
  {
    hide React, AppendCrashes, Accepts, Implement, Stored, Rewind, EntryFor, CommitActions, Receiver, Reaches;
    var f := Receiver(n, m.term);
    ReceiverKeeps(n, m.term);
    if !Reaches(n, m) {
      AppendRefused(n, m, now);
    } else if Takes(n, m) {
      FollowerApplies(n, m, now);
      var st := Stored(f, m, now);
      if n.commitIndex + 1 < m.commit { WalkDecodable(f, m, st); }
    } else {
      AppendOutcome(n, m, now);
    }
  }

  lemma WalkDecodable(f: NodeState, m: AppendRequest, st: NodeState)
    requires Accepts(f, m) && !AppendCrashes(f, m) && st.log == NewLog(f.log, m)
    requires -1 <= f.commitIndex && f.commitIndex + 1 < m.commit <= |st.log|
    ensures Decodable(st.log, f.commitIndex + 1, m.commit)
            <==> !exists i :: f.commitIndex < i < m.commit && Undecodable(EntryFor(f, m, i))
  {
    hide EntryFor, Accepts, AppendCrashes, Rewind;
    SameLogSelf(st.log);
    WalkReads(f, m, st);
    forall x: int | f.commitIndex < x < m.commit ensures Undecodable(EntryFor(f, m, x)) <==> Undecodable(Get(st.log, x)) {
      assert ReadAt(f, m, st, x);
    }
    DecodableGet(st.log, f.commitIndex + 1, m.commit);
  }

  lemma DecodableGet(log: seq<LogEntry>, i: nat, j: nat)
    requires i <= j <= |log|
    ensures Decodable(log, i, j) <==> !exists x :: i <= x < j && Undecodable(Get(log, x))
  {
    assert forall x :: i <= x < j ==>
      (Undecodable(Get(log, x)) <==> (log[x].kind == CommandEntry && CommandOf(log[x].payload).None?));
  }

  lemma ReplyDies(n: NodeState, r: AppendAnswer, now: int)
    requires !n.halted && -1 <= n.commitIndex && -1 <= n.lastApplied
    ensures React(n, AppendReply(r), now).node.halted <==> Dies(n, AppendReply(r))
  {
    hide React, NewCommit, Implement;
    if n.role.Leader? && r.term <= n.currentTerm && r.success {
      LeaderApplies(n, r, now);
      var c := NewCommit(n, r.address);
      if n.lastApplied < c && n.lastApplied < |n.log| { DecodableGet(n.log, n.lastApplied + 1, Stop(n, c)); }
    } else {
      AppendReplyOutcome(n, r, now);
    }
  }

  /** Reprocessing always lands in a follower's handler: by the time a list reaches it, the
      node has stepped down. */
  lemma ReprocessAsFollower(n: NodeState, ev: Event, now: int, i: nat)
    requires !n.halted && !ev.StateChanged? && i < |Handle(n, ev, now)| && Handle(n, ev, now)[i].Reprocess?
    ensures Implement(Handle(n, ev, now)[..i], ev, IsRpc(ev), n, now).node.role.Follower?
    ensures ev.AppendEntries? || ev.RequestVote?
  {
    HandleShape(n, ev, now, i);
    hide Implement, Handle;
    var before := Handle(n, ev, now)[..i];
    if i == 1 {
      assert before == [SetState(Follower)] + [];
      StepDown([], ev, IsRpc(ev), n, now);
      Nothing(ev, IsRpc(ev), BecomeFollower(n), now);
    } else {
      assert before == [before[0]] + ([SetState(Follower)] + []);
      Cons(before[0], [SetState(Follower)] + [], ev, IsRpc(ev), n, now);
      var k := Perform(n, before[0], IsRpc(ev)).node;
      StepDown([], ev, IsRpc(ev), k, now);
      Nothing(ev, IsRpc(ev), BecomeFollower(k), now);
    }
  }

  lemma HandleShape(n: NodeState, ev: Event, now: int, i: nat)
    requires !ev.StateChanged? && i < |Handle(n, ev, now)| && Handle(n, ev, now)[i].Reprocess?
    ensures 1 <= i <= 2 && Handle(n, ev, now)[i - 1] == SetState(Follower)
    ensures i == 2 ==> Handle(n, ev, now)[0].SetCurrentTerm?
    ensures ev.AppendEntries? || ev.RequestVote?
  {
    hide Handle;
    HandleForm(n, ev, now);
  }

  // ----- replies without a channel -----

  predicate Silent(a: Action) {
    !a.Respond? && !a.Reprocess?
  }

  lemma FollowerSilent(n: NodeState, ev: Event, now: int)
    requires !IsRpc(ev) && n.role.Follower?
    ensures All(Handle(n, ev, now), a => Silent(a))
  {
  }

  lemma CandidateSilent(n: NodeState, ev: Event, now: int)
    requires !IsRpc(ev) && n.role.Candidate?
    ensures All(Handle(n, ev, now), a => Silent(a))
  {
    hide AskPeers;
    AskPeersSent(n.peers, VoteRequestOf(n));
  }

  lemma LeaderSilent(n: NodeState, ev: Event, now: int)
    requires !IsRpc(ev) && n.role.Leader?
    ensures All(Handle(n, ev, now), a => Silent(a))
  {
    hide GreetPeers, FeedPeers, AdvanceActions, NewCommit, RequestFor, OpeningHeartbeat;
    if ev.StateChanged? {
      GreetPeersSent(n, n.peers);
    } else if ev.Timeout? && !TimeoutCrashes(n) {
      FeedPeersSent(n, n.peers);
    } else if ev.AppendReply? {
      AdvanceActionsAdvance(n, n.lastApplied + 1, NewCommit(n, ev.ack.address));
    }
  }

  /** What handles an event that came without a reply channel never replies. */
  lemma HandleSilent(n: NodeState, ev: Event, now: int)
    requires !IsRpc(ev)
    ensures All(Handle(n, ev, now), a => Silent(a))
  {
    hide Handle;
    match n.role
    case Follower => FollowerSilent(n, ev, now);
    case Candidate => CandidateSilent(n, ev, now);
    case Leader => LeaderSilent(n, ev, now);
  }

  lemma {:induction false} SilentRun(actions: seq<Action>, ev: Event, n: NodeState, now: int)
    requires All(actions, a => Silent(a))
    ensures Implement(actions, ev, false, n, now) == Implement(actions, ev, true, n, now)
    decreases |actions|
  {
    hide Implement, First;
    if n.halted {
      Dead(actions, ev, false, n, now);
      Dead(actions, ev, true, n, now);
    } else if |actions| == 0 {
      Nothing(ev, false, n, now);
      Nothing(ev, true, n, now);
    } else {
      AllTail(actions, a => Silent(a));
      Unfold(actions, ev, false, n, now);
      Unfold(actions, ev, true, n, now);
      SilentFirst(actions, ev, n, now);
      SilentRun(actions[1..], ev, First(actions, ev, true, n, now).node, now);
    }
  }

  lemma SilentFirst(actions: seq<Action>, ev: Event, n: NodeState, now: int)
    requires |actions| > 0 && Silent(actions[0])
    ensures First(actions, ev, false, n, now) == First(actions, ev, true, n, now)
  {
    hide Implement, OnStateChanged, Handle;
  }

  /** No reply is ever attempted without a channel: for a timer, an incoming answer or a
      change of state it makes no difference whether one is open. */
  lemma NoReplyWithoutChannel(n: NodeState, ev: Event, now: int)
    requires !IsRpc(ev)
    ensures Implement(Handle(n, ev, now), ev, false, n, now) == Implement(Handle(n, ev, now), ev, true, n, now)
  {
    hide Implement, Handle;
    HandleSilent(n, ev, now);
    SilentRun(Handle(n, ev, now), ev, n, now);
  }
}
