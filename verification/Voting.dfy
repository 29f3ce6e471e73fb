/** Elections as an observer sees them: when a vote is granted, what asking for votes looks
    like, and when an election is won - each from the fields of the node, the message and the
    clock alone. */
module Voting {
  import opened Types
  import opened Rules
  import opened Interpreter
  import opened Reactions

  // ----- granting a vote -----

  /** The answer to a vote request, which is the last thing that leaves the node. */
  ghost predicate Votes(out: seq<Output>, b: VoteAnswer) {
    |out| > 0 && out[|out| - 1] == Answer(VoteResult(b))
  }

  /** A vote is granted if and only if no leader was heard from for the minimum election
      timeout, the request is not of an old term, the vote is free or already the
      candidate's, and the candidate's last entry is of a later term than the voter's, or of
      the same term at no smaller index, or the voter holds nothing. A candidate or leader
      votes only in a later term, and its vote is then free. */
  lemma VoteGrantedIff(n: NodeState, m: VoteRequest, now: int) returns (b: VoteAnswer)
    requires !n.halted
    ensures React(n, RequestVote(m), now).out
         == (if !n.role.Follower? && m.term > n.currentTerm then [Timer(false)] else []) + [Answer(VoteResult(b))]
    ensures b.granted <==>
              && now - n.leaderLastHeard >= n.minElectionTimeout
              && (if n.role.Follower? then m.term >= n.currentTerm && (n.votedFor == "" || n.votedFor == m.candidate)
                  else m.term > n.currentTerm)
              && (|n.log| == 0 || m.lastTerm > n.log[|n.log| - 1].term
                  || (m.lastTerm == n.log[|n.log| - 1].term && m.lastIndex >= |n.log| - 1))
    ensures b.term == if n.role.Candidate? && m.term > n.currentTerm then m.term else n.currentTerm
    ensures b.address == if (n.role.Follower? && m.term < n.currentTerm)
                            || ((n.role.Follower? || m.term > n.currentTerm) && now - n.leaderLastHeard < n.minElectionTimeout)
                         then "" else n.address
  {
    hide React, Implement;
    VoteOutcome(n, m, now);
    b := if VoteReaches(n, m) then Ballot(Receiver(n, m.term), m, now) else VoteAnswer(n.address, false, n.currentTerm);
  }

  /** The voter afterwards. It takes over a later term, except that a follower or leader that
      has heard from a leader lately does not; a candidate or leader steps down for a later
      term, and forgets its vote; the vote goes to the candidate exactly when it is granted;
      and nothing else changes. */
  lemma VoterAfter(n: NodeState, m: VoteRequest, now: int, b: VoteAnswer)
    requires !n.halted && Votes(React(n, RequestVote(m), now).out, b)
    ensures var k := React(n, RequestVote(m), now).node; var later := m.term > n.currentTerm;
            && k.role == (if later then Follower else n.role)
            && k.currentTerm == (if later && (n.role.Candidate? || now - n.leaderLastHeard >= n.minElectionTimeout) then m.term
                                 else n.currentTerm)
            && k.votedFor == (if b.granted then m.candidate else if later && !n.role.Follower? then "" else n.votedFor)
            && k.voteCount == (if later && !n.role.Follower? then 0 else n.voteCount)
            && k == n.(role := k.role, currentTerm := k.currentTerm, votedFor := k.votedFor, voteCount := k.voteCount)
  {
    hide React, Implement, UpToDate;
    VoteOutcome(n, m, now);
  }

  /** Of any two logs one at least is good enough for the other's vote; both are, when
      neither is empty, exactly when they end at the same index in the same term. */
  lemma OneOfTwoGrants(a: NodeState, b: NodeState, term: int, now: int) returns (x: VoteAnswer, y: VoteAnswer)
    requires !a.halted && !b.halted && a.role.Follower? && b.role.Follower? && a.votedFor == b.votedFor == ""
    requires now - a.leaderLastHeard >= a.minElectionTimeout && now - b.leaderLastHeard >= b.minElectionTimeout
    requires term >= a.currentTerm && term >= b.currentTerm
    ensures var p := VoteRequest(term, a.address, |a.log| - 1, if |a.log| > 0 then a.log[|a.log| - 1].term else -1);
            Votes(React(b, RequestVote(p), now).out, y)
    ensures var q := VoteRequest(term, b.address, |b.log| - 1, if |b.log| > 0 then b.log[|b.log| - 1].term else -1);
            Votes(React(a, RequestVote(q), now).out, x)
    ensures x.granted || y.granted
    ensures |a.log| > 0 && |b.log| > 0 ==>
              (x.granted && y.granted <==> |a.log| == |b.log| && a.log[|a.log| - 1].term == b.log[|b.log| - 1].term)
  {
    hide React;
    var p := VoteRequest(term, a.address, |a.log| - 1, if |a.log| > 0 then a.log[|a.log| - 1].term else -1);
    var q := VoteRequest(term, b.address, |b.log| - 1, if |b.log| > 0 then b.log[|b.log| - 1].term else -1);
    x := VoteGrantedIff(a, q, now);
    y := VoteGrantedIff(b, p, now);
  }

  // ----- running for office -----

  /** A follower that times out runs for the next term, votes for itself, and asks every peer,
      in order, quoting its last entry. */
  lemma CandidacyStarts(n: NodeState, now: int)
    requires !n.halted && n.role.Follower?
    ensures var o := React(n, Timeout, now);
            && o.node == n.(role := Candidate, currentTerm := n.currentTerm + 1, votedFor := n.address, voteCount := 1)
            && |o.out| == |n.peers| + 1 && o.out[0] == Timer(false)
            && forall i :: 0 <= i < |n.peers| ==>
                 o.out[i + 1] == VoteRpc(n.peers[i], VoteRequest(n.currentTerm + 1, n.address, |n.log| - 1,
                                                                 if |n.log| > 0 then n.log[|n.log| - 1].term else -1))
  {
    hide React, AskPeers;
    FollowerTimeout(n, now);
    AskPeersSent(n.peers, VoteRequestOf(n));
  }

  /** A candidate that times out gives up, in the same term and with its vote forgotten. */
  lemma CandidacyGivenUp(n: NodeState, now: int)
    requires !n.halted && n.role.Candidate?
    ensures React(n, Timeout, now) == Outcome(n.(role := Follower, votedFor := "", voteCount := 0), [Timer(false)])
  {
    hide React;
    CandidateTimeout(n, now);
  }

  // ----- counting votes -----

  /** A vote answer means something to a candidate only: a later term makes it step down, a
      grant of no later term counts as one more vote, whichever term it was given in, and
      twice the votes above the number of peers win. */
  lemma VoteCounted(n: NodeState, r: VoteAnswer, now: int)
    requires !n.halted
    ensures var o := React(n, VoteReply(r), now);
            if n.role.Candidate? && r.term > n.currentTerm then
              o == Outcome(n.(role := Follower, currentTerm := r.term, votedFor := "", voteCount := 0), [Timer(false)])
            else if n.role.Candidate? && r.granted then
              if 2 * (n.voteCount + 1) > |n.peers| then o.node.role.Leader?
              else o == Outcome(n.(voteCount := n.voteCount + 1), [])
            else o == Outcome(n, [])
  {
    hide React, Implement, Crowned, GreetPeers, Sent;
    VoteReplyOutcome(n, r, now);
    CrownedLeads(n.(voteCount := n.voteCount + 1));
  }

  lemma CrownedLeads(n: NodeState)
    ensures Crowned(n).role.Leader?
  {
    hide Marked;
  }

  /** The winner appends a no-operation entry of its term, expects every peer to need that
      entry next, takes entry 0 as held by all, and greets every peer, in order, with an empty
      request that dates the entry before in its own term. */
  lemma ElectionWon(n: NodeState, r: VoteAnswer, now: int)
    requires !n.halted && n.role.Candidate? && r.term <= n.currentTerm && r.granted && 2 * (n.voteCount + 1) > |n.peers|
    ensures var o := React(n, VoteReply(r), now); var k := o.node;
            && k == n.(role := Leader, voteCount := n.voteCount + 1, nextIndex := k.nextIndex, matchIndex := k.matchIndex,
                       log := n.log + [LogEntry(n.currentTerm, NoOpEntry, Opaque, "")])
            && (forall x :: x in k.nextIndex <==> x in n.nextIndex || x in n.peers)
            && (forall x :: x in k.nextIndex ==> k.nextIndex[x] == if x in n.peers then |n.log| else n.nextIndex[x])
            && (forall x :: x in k.matchIndex <==> x in n.matchIndex || x in n.peers)
            && (forall x :: x in k.matchIndex ==> k.matchIndex[x] == if x in n.peers then 0 else n.matchIndex[x])
            && |o.out| == |n.peers| + 1 && o.out[|n.peers|] == Timer(true)
            && forall i :: 0 <= i < |n.peers| ==>
                 o.out[i] == AppendRpc(n.peers[i], AppendRequest(n.currentTerm, n.address, |n.log| - 1, n.currentTerm, [], n.commitIndex))
  {
    hide React, GreetPeers, Implement, Crowned, OpeningHeartbeat, Elected;
    VoteReplyOutcome(n, r, now);
    ElectedMeans(n.voteCount + 1, |n.peers|);
    CrownedIs(n.(voteCount := n.voteCount + 1));
    GreetPeersSent(n, n.peers);
    HeartbeatIs(n);
  }

  lemma ElectedMeans(votes: int, peerCount: int)
    ensures Elected(votes, peerCount) <==> 2 * votes > peerCount
  {
  }

  lemma HeartbeatIs(n: NodeState)
    ensures OpeningHeartbeat(n) == AppendRequest(n.currentTerm, n.address, |n.log| - 1, n.currentTerm, [], n.commitIndex)
  {
  }

  lemma CrownedIs(n: NodeState)
    ensures var k := Crowned(n);
            && k == n.(role := Leader, nextIndex := k.nextIndex, matchIndex := k.matchIndex,
                       log := n.log + [LogEntry(n.currentTerm, NoOpEntry, Opaque, "")])
            && (forall x :: x in k.nextIndex <==> x in n.nextIndex || x in n.peers)
            && (forall x :: x in k.nextIndex ==> k.nextIndex[x] == if x in n.peers then |n.log| else n.nextIndex[x])
            && (forall x :: x in k.matchIndex <==> x in n.matchIndex || x in n.peers)
            && (forall x :: x in k.matchIndex ==> k.matchIndex[x] == if x in n.peers then 0 else n.matchIndex[x])
  {
    hide Marked;
  }
}
