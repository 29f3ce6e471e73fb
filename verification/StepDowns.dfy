/** What ends a leadership or a candidacy, and what a restart leaves. */
module StepDowns {
  import opened Types
  import opened Rules
  import opened Interpreter
  import opened Reactions
  import opened Effects
  import opened Voting

  /** A living leader leaves office if and only if it gets an append request, a vote request or
      an append reply of a later term. */
  lemma LeadershipEndsIff(n: NodeState, ev: Event, now: int)
    requires !n.halted && n.role.Leader? && !ev.StateChanged?
    ensures !React(n, ev, now).node.role.Leader? <==>
              || (ev.AppendEntries? && ev.append.term > n.currentTerm)
              || (ev.RequestVote? && ev.vote.term > n.currentTerm)
              || (ev.AppendReply? && ev.ack.term > n.currentTerm)
  {
    hide React, Implement, AdvanceList, NewCommit, AppendCrashes, Accepts, Rewind, CommitActions, Stored,
         Receiver, StepOut, GrantsVote, RecentlyHeard, MayChange, Changed, FeedPeers;
    match ev
    case Timeout => LeaderTimeout(n, now);
    case AppendEntries(m) => AppendRole(n, m, now);
    case RequestVote(m) =>
      var b := VoteGrantedIff(n, m, now);
      VoterAfter(n, m, now, b);
    case AppendReply(r) =>
      AppendReplyOutcome(n, r, now);
      AcknowledgedRun(n, r, Acknowledged(n, r), now);
    case VoteReply(r) => VoteCounted(n, r, now);
    case Command(p) => CommandOutcome(n, p, now);
    case Probe(i, t) => ProbeOutcome(n, i, t, now);
    case _ =>
      ChangeOutcome(n, ev, now);
      ChangedKeeps(n, ev);
  }

  /** A living candidate ceases to be one if and only if it times out, gets an append request
      of no earlier term, gets a vote request or vote answer of a later term, or wins. */
  lemma CandidacyEndsIff(n: NodeState, ev: Event, now: int)
    requires !n.halted && n.role.Candidate? && !ev.StateChanged?
    ensures !React(n, ev, now).node.role.Candidate? <==>
              || ev.Timeout?
              || (ev.AppendEntries? && ev.append.term >= n.currentTerm)
              || (ev.RequestVote? && ev.vote.term > n.currentTerm)
              || (ev.VoteReply? && ev.ballot.term > n.currentTerm)
              || (ev.VoteReply? && ev.ballot.granted && 2 * (n.voteCount + 1) > |n.peers|)
    ensures React(n, ev, now).node.role.Leader? <==>
              ev.VoteReply? && ev.ballot.term <= n.currentTerm && ev.ballot.granted && 2 * (n.voteCount + 1) > |n.peers|
  {
    hide React, Implement, AppendCrashes, Accepts, Rewind, CommitActions, Stored, Receiver, StepOut, GrantsVote,
         RecentlyHeard;
    match ev
    case Timeout => CandidateTimeout(n, now);
    case AppendEntries(m) => AppendRole(n, m, now);
    case RequestVote(m) =>
      var b := VoteGrantedIff(n, m, now);
      VoterAfter(n, m, now, b);
    case AppendReply(r) => AppendReplyOutcome(n, r, now);
    case VoteReply(r) => VoteCounted(n, r, now);
    case _ => ClientRefused(n, ev, now);
  }

  /** A living follower stays one unless it times out. */
  lemma FollowerRunsIff(n: NodeState, ev: Event, now: int)
    requires !n.halted && n.role.Follower? && !ev.StateChanged?
    ensures !React(n, ev, now).node.role.Follower? <==> ev.Timeout?
    ensures ev.Timeout? ==> React(n, ev, now).node.role.Candidate?
  {
    hide React, Implement, AppendCrashes, Accepts, Rewind, CommitActions, Stored, Receiver, StepOut, GrantsVote,
         RecentlyHeard;
    match ev
    case Timeout => CandidacyStarts(n, now);
    case AppendEntries(m) => AppendRole(n, m, now);
    case RequestVote(m) =>
      var b := VoteGrantedIff(n, m, now);
      VoterAfter(n, m, now, b);
    case AppendReply(r) => AppendReplyOutcome(n, r, now);
    case VoteReply(r) => VoteCounted(n, r, now);
    case _ => ClientRefused(n, ev, now);
  }

  lemma AppendRole(n: NodeState, m: AppendRequest, now: int)
    requires !n.halted
    ensures var k := React(n, AppendEntries(m), now).node;
            k.role == if m.term > n.currentTerm || (n.role.Candidate? && m.term == n.currentTerm) then Follower else n.role
  {
    hide React, Implement, AppendCrashes, Accepts, Rewind, CommitActions, Stored, Receiver, LastChange;
    if Reaches(n, m) {
      AppendOutcome(n, m, now);
      var f := Receiver(n, m.term);
      ReceiverKeeps(n, m.term);
      if Accepts(f, m) && !AppendCrashes(f, m) {
        AcceptsInRange(f, m);
        NoStuck(f, m);
        StoredKeeps(f, m, now);
        CommitRun(f, m, AppendEntries(m), Stored(f, m, now), now);
      }
    } else {
      AppendRefused(n, m, now);
    }
  }

  /** A restart, of a node in whatever state: what is kept, and what starts afresh. The vote is
      kept by the storage and yet forgotten, since every follower begins with none. */
  lemma RestartLeaves(n: NodeState, lastHeard: int, now: int)
    ensures var o := Restart(n, lastHeard, now); var k := o.node;
            && k == n.(role := Follower, votedFor := "", voteCount := 0, commitIndex := -1, lastApplied := -1,
                       leaderLastHeard := lastHeard, database := map[], halted := false,
                       nextIndex := k.nextIndex, matchIndex := k.matchIndex)
            && (forall x :: x in k.nextIndex <==> x in n.peers) && (forall x :: x in k.nextIndex ==> k.nextIndex[x] == 0)
            && (forall x :: x in k.matchIndex <==> x in n.peers) && (forall x :: x in k.matchIndex ==> k.matchIndex[x] == -1)
            && o.out == [Timer(false)]
  {
    hide Restart;
    RestartOutcome(n, lastHeard, now);
  }
}
