/** Single steps of a system, spelled out: the building blocks of concrete runs. */
module Steps {
  import opened Types
  import opened Rules
  import opened Interpreter
  import opened Reactions
  import opened Effects
  import opened Outcomes
  import opened Network

  /** A follower runs for office. */
  lemma FollowerTicks(s: System, a: Address, now: int)
    requires a in s.nodes && s.nodes[a].role.Follower? && !s.nodes[a].halted
    ensures var n := s.nodes[a]; var s' := Next(s, Tick(a, now));
            && s'.nodes == s.nodes[a := BecomeCandidate(n)] && s.net <= s'.net
            && s'.hist == s.hist.(grants := s.hist.grants + {(n.address, n.currentTerm + 1, n.address)})
            && forall i :: 0 <= i < |n.peers| ==> VotePacket(n.peers[i], VoteRequestOf(n), n.log) in s'.net
  {
    hide React;
    var n := s.nodes[a];
    StepOf(s, Tick(a, now));
    FollowerTimeout(n, now);
    AskPeersSent(n.peers, VoteRequestOf(n));
    var out := React(n, Timeout, now).out;
    forall i | 0 <= i < |n.peers| ensures VotePacket(n.peers[i], VoteRequestOf(n), n.log) in Next(s, Tick(a, now)).net {
      assert out[i + 1] == VoteRpc(n.peers[i], VoteRequestOf(n));
      assert Packed(out[i + 1], Timeout, BecomeCandidate(n), None) == Some(VotePacket(n.peers[i], VoteRequestOf(n), n.log));
    }
  }

  /** A candidate gives up. */
  lemma CandidateTicks(s: System, a: Address, now: int)
    requires a in s.nodes && s.nodes[a].role.Candidate? && !s.nodes[a].halted
    ensures var s' := Next(s, Tick(a, now));
            s'.nodes == s.nodes[a := BecomeFollower(s.nodes[a])] && s.net <= s'.net && s'.hist == s.hist
  {
    hide React, PacketsOf;
    StepOf(s, Tick(a, now));
    CandidateTimeout(s.nodes[a], now);
  }

  /** A follower grants its vote. */
  lemma FollowerGrants(s: System, p: Packet, now: int)
    requires p.VotePacket? && p in s.net && p.dest in s.nodes
    requires s.nodes[p.dest].role.Follower? && !s.nodes[p.dest].halted && GrantsVote(s.nodes[p.dest], p.vote, now)
    ensures var n := s.nodes[p.dest]; var s' := Next(s, Deliver(p, now));
            && s'.nodes == s.nodes[p.dest := Voted(n, p.vote, now)] && s.net <= s'.net
            && s'.hist == s.hist.(grants := s.hist.grants + {(n.address, p.vote.term, p.vote.candidate)})
            && VoteAnswerPacket(p.vote.candidate, VoteAnswer(n.address, true, n.currentTerm), p.vote, n.address) in s'.net
  {
    hide React, GrantsVote;
    var n := s.nodes[p.dest];
    StepOf(s, Deliver(p, now));
    VoteOutcome(n, p.vote, now);
    var out := React(n, RequestVote(p.vote), now).out;
    GrantMeans(n, p.vote, now);
    assert out[0] == Answer(VoteResult(VoteAnswer(n.address, true, n.currentTerm)));
    assert Packed(out[0], RequestVote(p.vote), Voted(n, p.vote, now), Some(p)).Some?;
  }

  lemma GrantMeans(n: NodeState, m: VoteRequest, now: int)
    requires GrantsVote(n, m, now)
    ensures Ballot(n, m, now) == VoteAnswer(n.address, true, n.currentTerm)
  {
  }

  /** A counted grant decides the election. */
  lemma CandidateWins(s: System, p: Packet, now: int)
    requires p.VoteAnswerPacket? && p in s.net && p.dest in s.nodes && Wins(s.nodes[p.dest], p.ballot)
    ensures var n := s.nodes[p.dest]; var s' := Next(s, Deliver(p, now)); var k := Crowned(n.(voteCount := n.voteCount + 1));
            && s'.nodes == s.nodes[p.dest := k] && s.net <= s'.net
            && s'.hist == History(s.hist.leaders + {(n.currentTerm, n.address)}, s.hist.leaderLog[n.currentTerm := k.log],
                                  s.hist.grants,
                                  s.hist.counted[(n.address, n.currentTerm) :=
                                    Tally(s.hist, n.address, n.currentTerm) + [(p.from, p.vote.term)]])
            && forall i :: 0 <= i < |n.peers| ==> AppendPacket(n.peers[i], OpeningHeartbeat(n), k.log, false) in s'.net
  {
    hide React, GreetPeers, OpeningHeartbeat, Marked, Tally;
    var n := s.nodes[p.dest];
    var k := Crowned(n.(voteCount := n.voteCount + 1));
    var ev := VoteReply(p.ballot);
    StepOf(s, Deliver(p, now));
    VoteReplyOutcome(n, p.ballot, now);
    GreetPeersSent(n, n.peers);
    var out := React(n, ev, now).out;
    forall i | 0 <= i < |n.peers| ensures AppendPacket(n.peers[i], OpeningHeartbeat(n), k.log, false) in Next(s, Deliver(p, now)).net {
      assert out[i] == AppendRpc(n.peers[i], OpeningHeartbeat(n));
      assert Packed(out[i], ev, k, Some(p)) == Some(AppendPacket(n.peers[i], OpeningHeartbeat(n), k.log, false));
    }
  }

  /** A leader takes a command. */
  lemma LeaderAsked(s: System, a: Address, p: Payload, now: int)
    requires a in s.nodes && s.nodes[a].role.Leader? && !s.nodes[a].halted
    ensures var n := s.nodes[a]; var k := n.(log := n.log + [CommandEntryOf(n, p)]); var s' := Next(s, Ask(a, Command(p), now));
            && s'.nodes == s.nodes[a := k] && s.net <= s'.net
            && s'.hist == s.hist.(leaders := s.hist.leaders + {(n.currentTerm, n.address)},
                                  leaderLog := s.hist.leaderLog[n.currentTerm := k.log])
  {
    hide React, PacketsOf;
    StepOf(s, Ask(a, Command(p), now));
    CommandOutcome(s.nodes[a], p, now);
  }

  /** A leader takes a membership change. */
  lemma LeaderChanges(s: System, a: Address, ev: Event, now: int)
    requires a in s.nodes && ChangesCluster(s.nodes[a], ev)
    ensures var n := s.nodes[a]; var k := Changed(n, ev).0.(log := n.log + [Changed(n, ev).1]); var s' := Next(s, Ask(a, ev, now));
            && React(n, ev, now) == Outcome(k, [Answer(Ticket(n))])
            && s'.nodes == s.nodes[a := k] && s.net <= s'.net
            && s'.hist == s.hist.(leaders := s.hist.leaders + {(n.currentTerm, n.address)},
                                  leaderLog := s.hist.leaderLog[n.currentTerm := k.log])
  {
    hide React, PacketsOf, Changed;
    StepOf(s, Ask(a, ev, now));
    ChangeOutcome(s.nodes[a], ev, now);
    ChangedKeeps(s.nodes[a], ev);
  }

  /** A leader feeds its peers. */
  lemma LeaderTicks(s: System, a: Address, now: int)
    requires a in s.nodes && s.nodes[a].role.Leader? && !s.nodes[a].halted && !TimeoutCrashes(s.nodes[a])
    ensures var n := s.nodes[a]; var s' := Next(s, Tick(a, now));
            && s'.nodes == s.nodes && s.net <= s'.net
            && s'.hist == s.hist.(leaders := s.hist.leaders + {(n.currentTerm, n.address)},
                                  leaderLog := s.hist.leaderLog[n.currentTerm := n.log])
            && forall i :: 0 <= i < |n.peers| ==>
                 AppendPacket(n.peers[i], RequestFor(n, Lookup(n.nextIndex, n.peers[i])), n.log, true) in s'.net
  {
    hide React, RequestFor;
    var n := s.nodes[a];
    StepOf(s, Tick(a, now));
    LeaderTimeout(n, now);
    FeedPeersSent(n, n.peers);
    var out := React(n, Timeout, now).out;
    forall i | 0 <= i < |n.peers|
      ensures AppendPacket(n.peers[i], RequestFor(n, Lookup(n.nextIndex, n.peers[i])), n.log, true) in Next(s, Tick(a, now)).net
    {
      var m := RequestFor(n, Lookup(n.nextIndex, n.peers[i]));
      assert out[i + 1] == AppendRpc(n.peers[i], m);
      assert Packed(out[i + 1], Timeout, n, None) == Some(AppendPacket(n.peers[i], m, n.log, true));
    }
  }

  /** A request that announces at most one more committed entry is stored and answered. */
  lemma RequestStored(s: System, p: Packet, now: int)
    requires p.AppendPacket? && p in s.net && p.dest in s.nodes && Takes(s.nodes[p.dest], p.append)
    requires p.append.commit <= s.nodes[p.dest].commitIndex + 1 && s.nodes[p.dest].commitIndex >= -1
    ensures -1 <= p.append.prevIndex < |s.nodes[p.dest].log|
    ensures var f := Receiver(s.nodes[p.dest], p.append.term);
            |p.append.entries| > 0 ==> Rewind(f.log, p.append.prevIndex, Recorded(f)).Rewound?
    ensures var n := s.nodes[p.dest]; var m := p.append; var f := Receiver(n, m.term);
            var s' := Next(s, Deliver(p, now)); var st := Stored(f, m, now);
            var k := if m.commit <= n.commitIndex then st else st.(commitIndex := Min(m.commit, m.prevIndex + |m.entries|));
            && s'.nodes == s.nodes[p.dest := k] && s.net <= s'.net && s'.hist == s.hist
            && AppendAnswerPacket(m.leader, AppendAnswer(f.address, true, f.currentTerm), m, p.view, p.routine, k.log) in s'.net
  {
    hide React, Implement, Accepts, AppendCrashes, Stored, Rewind, Receiver, Reaches;
    var n := s.nodes[p.dest];
    var m := p.append;
    var f := Receiver(n, m.term);
    var ev := AppendEntries(m);
    ReceiverKeeps(n, m.term);
    StepOf(s, Deliver(p, now));
    AppendOutcome(n, m, now);
    FollowerApplies(n, m, now);
    var o := React(n, ev, now);
    StoredKeeps(f, m, now);
    var i := |StepOut(n)| + 1;
    assert o.out[i] == Answer(AppendResult(AppendAnswer(f.address, true, f.currentTerm)));
    assert Packed(o.out[i], ev, o.node, Some(p)).Some?;
  }

  /** Any request that is taken is answered. */
  lemma RequestTaken(s: System, p: Packet, now: int)
    requires p.AppendPacket? && p in s.net && p.dest in s.nodes && Takes(s.nodes[p.dest], p.append)
    ensures var n := s.nodes[p.dest]; var m := p.append; var f := Receiver(n, m.term); var s' := Next(s, Deliver(p, now));
            var k := React(n, AppendEntries(m), now).node;
            && s'.nodes == s.nodes[p.dest := k] && s.net <= s'.net && s'.hist == s.hist
            && AppendAnswerPacket(m.leader, AppendAnswer(f.address, true, f.currentTerm), m, p.view, p.routine, k.log) in s'.net
  {
    hide React, Implement, Accepts, AppendCrashes, Stored, Rewind, Receiver, Reaches;
    var n := s.nodes[p.dest];
    var m := p.append;
    var f := Receiver(n, m.term);
    var ev := AppendEntries(m);
    ReceiverKeeps(n, m.term);
    StepOf(s, Deliver(p, now));
    AppendOutcome(n, m, now);
    AppendTaken(n, m, now);
    var o := React(n, ev, now);
    var i := |StepOut(n)| + 1;
    assert o.out[i] == Answer(AppendResult(AppendAnswer(f.address, true, f.currentTerm)));
    assert Packed(o.out[i], ev, o.node, Some(p)).Some?;
  }

  /** A success reply reaches the leader. */
  lemma ReplyReceived(s: System, p: Packet, now: int)
    requires p.AppendAnswerPacket? && p in s.net && p.dest in s.nodes
    requires var n := s.nodes[p.dest]; !n.halted && n.role.Leader? && p.ack.term <= n.currentTerm && p.ack.success
    ensures var n := s.nodes[p.dest]; var s' := Next(s, Deliver(p, now)); var k := React(n, AppendReply(p.ack), now).node;
            && s'.nodes == s.nodes[p.dest := k] && s.net <= s'.net
            && s'.hist == s.hist.(leaders := s.hist.leaders + {(n.currentTerm, n.address)},
                                  leaderLog := s.hist.leaderLog[n.currentTerm := k.log])
            && k == Acknowledged(n, p.ack).(commitIndex := k.commitIndex, lastApplied := k.lastApplied,
                                            database := k.database, log := k.log, halted := k.halted)
            && SameLog(n.log, k.log)
  {
    hide React, PacketsOf, NewCommit, Implement, AdvanceList;
    StepOf(s, Deliver(p, now));
    AppendReplyOutcome(s.nodes[p.dest], p.ack, now);
    AcknowledgedRun(s.nodes[p.dest], p.ack, Acknowledged(s.nodes[p.dest], p.ack), now);
  }

  lemma Rebooted(s: System, a: Address, lastHeard: int, now: int)
    requires a in s.nodes
    ensures var s' := Next(s, Reboot(a, lastHeard, now));
            s'.nodes == s.nodes[a := BecomeFollower(Recovered(s.nodes[a], lastHeard))] && s'.net == s.net && s'.hist == s.hist
  {
    hide Restart;
    RestartOutcome(s.nodes[a], lastHeard, now);
  }
}
