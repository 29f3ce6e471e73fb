/** What one event can do to a node's role, term and log, and what it can put on the wire. */
module Effects {
  import opened Types
  import opened Rules
  import opened Interpreter
  import opened Reactions

  /** The three things that can happen to a log in one event. */
  datatype LogEffect = Kept | Grown | Replaced

  /** The request is accepted, with entries, by the follower the node is or becomes. */
  predicate Takes(n: NodeState, m: AppendRequest) {
    && !n.halted && Reaches(n, m)
    && var f := Receiver(n, m.term);
       Accepts(f, m) && !AppendCrashes(f, m)
  }

  predicate Wins(n: NodeState, r: VoteAnswer) {
    && !n.halted && n.role.Candidate?
    && r.term <= n.currentTerm && r.granted && Elected(n.voteCount + 1, |n.peers|)
  }

  /** A leader starts a membership change and survives it. */
  predicate ChangesCluster(n: NodeState, ev: Event) {
    && !n.halted && n.role.Leader?
    && (ev.AddServer? || ev.RemoveServer?)
    && MayChange(n) && !Changed(n, ev).0.halted
  }

  function EffectOf(n: NodeState, ev: Event): LogEffect {
    match ev
    case AppendEntries(m) => if Takes(n, m) && |m.entries| > 0 then Replaced else Kept
    case VoteReply(r) => if Wins(n, r) then Grown else Kept
    case Command(_) => if !n.halted && n.role.Leader? then Grown else Kept
    case AddServer(_) => if ChangesCluster(n, ev) then Grown else Kept
    case RemoveServer(_) => if ChangesCluster(n, ev) then Grown else Kept
    case _ => Kept
  }

  ghost predicate EffectHolds(n: NodeState, ev: Event, k: NodeState) {
    match EffectOf(n, ev)
    case Kept =>
      SameLog(n.log, k.log) && (k.role.Leader? ==> n.role.Leader? && k.currentTerm == n.currentTerm)
    case Grown =>
      && !n.role.Follower? && k.role.Leader? && k.currentTerm == n.currentTerm
      && |k.log| == |n.log| + 1 && k.log[..|n.log|] == n.log && k.log[|n.log|].term == n.currentTerm
    case Replaced =>
      var m := ev.append;
      && k.role.Follower? && k.currentTerm == m.term
      && -1 <= m.prevIndex < |n.log|
      && (m.prevIndex >= 0 ==> n.log[m.prevIndex].term == m.prevTerm)
      && SameLog(n.log[..m.prevIndex + 1] + m.entries, k.log)
  }

  /** Terms never go back; a candidacy is a follower's timeout and raises the term by one; a
      leadership begins as a candidacy of the same term. */
  ghost predicate RoleHolds(n: NodeState, ev: Event, k: NodeState) {
    && k.address == n.address
    && k.currentTerm >= n.currentTerm
    && (k.role.Candidate? ==>
          || (n.role.Candidate? && k.currentTerm == n.currentTerm)
          || (n.role.Follower? && ev.Timeout? && k.currentTerm == n.currentTerm + 1))
    && (k.role.Leader? ==> !n.role.Follower? && k.currentTerm == n.currentTerm)
    && (k.role.Leader? && n.role.Candidate? ==> ev.VoteReply? && Wins(n, ev.ballot))
  }

  lemma StoredKeeps(f: NodeState, m: AppendRequest, now: int)
    requires -1 <= m.prevIndex < |f.log|
    requires |m.entries| > 0 ==> Rewind(f.log, m.prevIndex, Recorded(f)).Rewound?
    ensures var k := Stored(f, m, now);
            && k == Heard(f, m, now).(log := NewLog(f.log, m), changeIndex := k.changeIndex, changeTerm := k.changeTerm,
                                      peers := k.peers, nextIndex := k.nextIndex, matchIndex := k.matchIndex)
  {
    hide Rewind, LastChange, Others;
  }

  /** A request reaches a node only if the node is not past its term, or is a follower. */
  lemma ReachedTerm(n: NodeState, m: AppendRequest)
    requires Reaches(n, m)
    ensures Receiver(n, m.term).currentTerm >= n.currentTerm
  {
  }

  /** An append request that is taken: the log becomes the agreed prefix and what was sent. */
  lemma AppendTaken(n: NodeState, m: AppendRequest, now: int)
    requires Takes(n, m)
    ensures -1 <= m.prevIndex < |n.log| && (m.prevIndex >= 0 ==> n.log[m.prevIndex].term == m.prevTerm)
    ensures n.currentTerm <= m.term
    ensures var k := React(n, AppendEntries(m), now).node;
            && k.role.Follower? && k.currentTerm == m.term && k.address == n.address
            && SameLog(NewLog(n.log, m), k.log)
  {
    hide React, Implement, Rewind, AppendCrashes, Accepts, CommitActions, Stored, LastChange, Receiver, Reaches;
    var f := Receiver(n, m.term);
    ReceiverKeeps(n, m.term);
    ReachedTerm(n, m);
    AppendOutcome(n, m, now);
    AcceptsInRange(f, m);
    NoStuck(f, m);
    StoredKeeps(f, m, now);
    CommitRun(f, m, AppendEntries(m), Stored(f, m, now), now);
    AcceptedTerm(f, m);
  }

  /** An append request that is not taken leaves the log as it is. */
  lemma AppendNotTaken(n: NodeState, m: AppendRequest, now: int)
    requires !n.halted && !Takes(n, m)
    ensures var k := React(n, AppendEntries(m), now).node;
            && k.log == n.log && k.address == n.address && k.currentTerm >= n.currentTerm
            && (k.role == n.role || k.role.Follower?)
            && (!k.role.Follower? ==> k.currentTerm == n.currentTerm)
  {
    hide React, AppendCrashes, Accepts, Rewind;
    if Reaches(n, m) {
      hide Implement, CommitActions, Stored;
      AppendOutcome(n, m, now);
    } else {
      AppendRefused(n, m, now);
    }
  }

  lemma AppendEffect(n: NodeState, m: AppendRequest, now: int)
    requires !n.halted
    ensures var k := React(n, AppendEntries(m), now).node;
            EffectHolds(n, AppendEntries(m), k) && RoleHolds(n, AppendEntries(m), k)
  {
    hide React, Takes, Reaches;
    if Takes(n, m) {
      AppendTaken(n, m, now);
    } else {
      AppendNotTaken(n, m, now);
    }
  }

  lemma NoStuck(f: NodeState, m: AppendRequest)
    requires !AppendCrashes(f, m)
    ensures |m.entries| > 0 ==> Rewind(f.log, m.prevIndex, Recorded(f)).Rewound?
  {
  }

  lemma AcceptedTerm(f: NodeState, m: AppendRequest)
    requires Accepts(f, m)
    ensures m.term >= f.currentTerm
  {
  }

  /** The effect of any event. */
  lemma Effect(n: NodeState, ev: Event, now: int)
    requires !n.halted && !ev.StateChanged?
    ensures var k := React(n, ev, now).node;
            EffectHolds(n, ev, k) && RoleHolds(n, ev, k)
  {
    hide React, EffectHolds, RoleHolds;
    match ev
    case Timeout => TimeoutEffect(n, now);
    case AppendEntries(m) => AppendEffect(n, m, now);
    case RequestVote(m) => VoteEffect(n, m, now);
    case VoteReply(r) => VoteReplyEffect(n, r, now);
    case AppendReply(r) => AppendReplyEffect(n, r, now);
    case _ => if IsClient(ev) { ClientEffect(n, ev, now); }
  }

  lemma TimeoutEffect(n: NodeState, now: int)
    requires !n.halted
    ensures var k := React(n, Timeout, now).node;
            EffectHolds(n, Timeout, k) && RoleHolds(n, Timeout, k)
  {
    hide React, Sent, AskPeers, FeedPeers;
    SameLogSelf(n.log);
    match n.role
    case Follower => FollowerTimeout(n, now);
    case Candidate => CandidateTimeout(n, now);
    case Leader => LeaderTimeout(n, now);
  }

  lemma VoteEffect(n: NodeState, m: VoteRequest, now: int)
    requires !n.halted
    ensures var k := React(n, RequestVote(m), now).node;
            EffectHolds(n, RequestVote(m), k) && RoleHolds(n, RequestVote(m), k)
  {
    hide React, Ballot, UpToDate;
    SameLogSelf(n.log);
    VoteOutcome(n, m, now);
  }

  lemma VoteReplyEffect(n: NodeState, r: VoteAnswer, now: int)
    requires !n.halted
    ensures var k := React(n, VoteReply(r), now).node;
            EffectHolds(n, VoteReply(r), k) && RoleHolds(n, VoteReply(r), k)
  {
    hide React, GreetPeers, Elected, Sent, Marked;
    SameLogSelf(n.log);
    VoteReplyOutcome(n, r, now);
  }

  lemma AppendReplyEffect(n: NodeState, r: AppendAnswer, now: int)
    requires !n.halted
    ensures var k := React(n, AppendReply(r), now).node;
            EffectHolds(n, AppendReply(r), k) && RoleHolds(n, AppendReply(r), k)
  {
    hide React, Implement, NewCommit, AdvanceList;
    SameLogSelf(n.log);
    AppendReplyOutcome(n, r, now);
    AcknowledgedRun(n, r, Acknowledged(n, r), now);
  }

  lemma ReplacedIsAppend(n: NodeState, ev: Event)
    requires EffectOf(n, ev).Replaced?
    ensures ev.AppendEntries? && |ev.append.entries| > 0 && Takes(n, ev.append)
  {
  }

  lemma NotReplaced(n: NodeState, ev: Event)
    requires !ev.AppendEntries?
    ensures !EffectOf(n, ev).Replaced?
  {
  }

  lemma ClientEffect(n: NodeState, ev: Event, now: int)
    requires !n.halted && IsClient(ev)
    ensures var k := React(n, ev, now).node;
            EffectHolds(n, ev, k) && RoleHolds(n, ev, k)
  {
    hide React, MayChange, Included, Excluded, Others;
    if !n.role.Leader? {
      ClientRefused(n, ev, now);
    } else if ev.Command? {
      CommandOutcome(n, ev.payload, now);
    } else if ev.Probe? {
      ProbeOutcome(n, ev.index, ev.term, now);
    } else {
      ChangeOutcome(n, ev, now);
      ChangedKeeps(n, ev);
    }
  }

  // ----- what goes on the wire -----

  /** An append request leaves a node only when a leader times out, or as the opening
      heartbeat of a leadership just won. */
  ghost predicate AppendSent(n: NodeState, ev: Event, k: NodeState, d: Address, m: AppendRequest) {
    && k.role.Leader? && k.currentTerm == n.currentTerm == m.term && m.leader == n.address && d in n.peers
    && if ev.Timeout? then
         n.role.Leader? && k == n && Lookup(n.nextIndex, d) >= 0 && m == RequestFor(n, Lookup(n.nextIndex, d))
       else ev.VoteReply? && Wins(n, ev.ballot) && m == OpeningHeartbeat(n)
  }

  ghost predicate OutputHolds(n: NodeState, ev: Event, k: NodeState, o: Output, now: int) {
    match o
    case Timer(_) => true
    case AppendRpc(d, m) => AppendSent(n, ev, k, d, m)
    case VoteRpc(d, m) =>
      ev.Timeout? && n.role.Follower? && m == VoteRequestOf(n) && k == BecomeCandidate(n) && d in n.peers
    case Answer(AppendResult(a)) =>
      && ev.AppendEntries? && a.address == n.address && a.term <= k.currentTerm
      && (a.success <==> Takes(n, ev.append))
      && (a.term <= n.currentTerm || a.term <= ev.append.term)
    case Answer(VoteResult(b)) =>
      && ev.RequestVote?
      && (b.granted ==> b.address == n.address && VoteReaches(n, ev.vote) && GrantsVote(Receiver(n, ev.vote.term), ev.vote, now)
                        && k == Voted(Receiver(n, ev.vote.term), ev.vote, now))
    case Answer(_) => IsClient(ev)
  }

  lemma Outputs(n: NodeState, ev: Event, now: int)
    requires !n.halted && !ev.StateChanged?
    ensures var o := React(n, ev, now);
            forall i :: 0 <= i < |o.out| ==> OutputHolds(n, ev, o.node, o.out[i], now)
  {
    hide React, Implement, AppendCrashes, Accepts, NewCommit, AdvanceList, Included, Excluded, MayChange,
         Others, UpToDate, RequestFor;
    match ev
    case Timeout => TimeoutOutputs(n, now);
    case AppendEntries(m) => AppendOutputs(n, m, now);
    case RequestVote(m) => VoteOutputs(n, m, now);
    case VoteReply(r) => VoteReplyOutputs(n, r, now);
    case AppendReply(r) =>
      AppendReplyOutcome(n, r, now);
      AcknowledgedRun(n, r, Acknowledged(n, r), now);
    case _ => if IsClient(ev) { ClientOutputs(n, ev, now); }
  }

  lemma VoteOutputs(n: NodeState, m: VoteRequest, now: int)
    requires !n.halted
    ensures var o := React(n, RequestVote(m), now);
            forall i :: 0 <= i < |o.out| ==> OutputHolds(n, RequestVote(m), o.node, o.out[i], now)
  {
    hide React, UpToDate;
    VoteOutcome(n, m, now);
  }

  lemma VoteReplyOutputs(n: NodeState, r: VoteAnswer, now: int)
    requires !n.halted
    ensures var o := React(n, VoteReply(r), now);
            forall i :: 0 <= i < |o.out| ==> OutputHolds(n, VoteReply(r), o.node, o.out[i], now)
  {
    hide React, GreetPeers, Elected, OpeningHeartbeat, Marked;
    VoteReplyOutcome(n, r, now);
    GreetPeersSent(n, n.peers);
    GreetingHeader(n);
  }

  lemma GreetingHeader(n: NodeState)
    ensures OpeningHeartbeat(n).term == n.currentTerm && OpeningHeartbeat(n).leader == n.address
  {
  }

  lemma ClientOutputs(n: NodeState, ev: Event, now: int)
    requires !n.halted && IsClient(ev)
    ensures var o := React(n, ev, now);
            forall i :: 0 <= i < |o.out| ==> OutputHolds(n, ev, o.node, o.out[i], now)
  {
    hide React, Implement, AppendCrashes, Accepts, NewCommit, AdvanceList, Included, Excluded, MayChange,
         Others, UpToDate, RequestFor;
    if !n.role.Leader? {
      ClientRefused(n, ev, now);
    } else if ev.Command? {
      CommandOutcome(n, ev.payload, now);
    } else if ev.Probe? {
      ProbeOutcome(n, ev.index, ev.term, now);
    } else {
      ChangeOutcome(n, ev, now);
    }
  }

  lemma TimeoutOutputs(n: NodeState, now: int)
    requires !n.halted
    ensures var o := React(n, Timeout, now);
            forall i :: 0 <= i < |o.out| ==> OutputHolds(n, Timeout, o.node, o.out[i], now)
  {
    hide React, RequestFor;
    match n.role
    case Follower =>
      FollowerTimeout(n, now);
      AskPeersSent(n.peers, VoteRequestOf(n));
    case Candidate => CandidateTimeout(n, now);
    case Leader =>
      LeaderTimeout(n, now);
      if !TimeoutCrashes(n) { FeedPeersSent(n, n.peers); RequestHeader(n); }
  }

  lemma RequestHeader(n: NodeState)
    ensures forall next: int :: next >= 0 ==> RequestFor(n, next).term == n.currentTerm && RequestFor(n, next).leader == n.address
  {
  }

  lemma ReceiverTerm(n: NodeState, term: int)
    ensures var f := Receiver(n, term); f.currentTerm == n.currentTerm || f.currentTerm == term
  {
  }

  lemma AppendOutputs(n: NodeState, m: AppendRequest, now: int)
    requires !n.halted
    ensures var o := React(n, AppendEntries(m), now);
            forall i :: 0 <= i < |o.out| ==> OutputHolds(n, AppendEntries(m), o.node, o.out[i], now)
  {
    hide React, Implement, AppendCrashes, Accepts, Rewind, CommitActions, Stored, LastChange, Receiver, Reaches;
    if Reaches(n, m) {
      AppendOutcome(n, m, now);
      var f := Receiver(n, m.term);
      ReceiverKeeps(n, m.term);
      ReceiverTerm(n, m.term);
      if Accepts(f, m) && !AppendCrashes(f, m) {
        AppendTaken(n, m, now);
        AcceptedTerm(f, m);
      }
    } else {
      AppendRefused(n, m, now);
    }
  }
}
