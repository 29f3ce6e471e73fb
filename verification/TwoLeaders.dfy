/** A run in which two nodes of a three-node cluster lead the same term and their logs part
    at an index with equal terms: why Log Matching needs its hypothesis, and why Election
    Safety needs its. Clearing the vote on every entry to the follower state and counting
    grants of an earlier term are what makes it possible. */
module TwoLeaders {
  import opened Types
  import opened Rules
  import opened Interpreter
  import opened Reactions
  import opened Effects
  import opened Network
  import opened Leadership
  import opened LogMatching
  import opened Steps

  // ----- the run -----

  const NOW: int := 5000

  function Member(a: Address, peers: seq<Address>): NodeState {
    Blank(a, peers, 4000)
  }

  function Start(): System {
    System(map["a" := Member("a", ["b", "c"]), "b" := Member("b", ["a", "c"]), "c" := Member("c", ["a", "b"])],
           {}, History({}, map[], {}, map[]))
  }

  const ASK_A: VoteRequest := VoteRequest(1, "a", -1, -1)
  const ASK_B: VoteRequest := VoteRequest(1, "b", -1, -1)

  /** Both run for term 1 and give up; each then grants the other's old request; both run
      for term 2, where the old grants arrive. */
  function TheRun(): seq<Choice> {
    [Tick("a", NOW), Tick("b", NOW), Tick("a", NOW), Tick("b", NOW),
     Deliver(VotePacket("b", ASK_A, []), NOW), Deliver(VotePacket("a", ASK_B, []), NOW),
     Tick("a", NOW), Tick("b", NOW),
     Deliver(VoteAnswerPacket("a", VoteAnswer("b", true, 1), ASK_A, "b"), NOW),
     Deliver(VoteAnswerPacket("b", VoteAnswer("a", true, 1), ASK_B, "a"), NOW),
     Ask("a", Command(Machine(MachineCommand("write", "x", "1"))), NOW),
     Ask("b", Command(Machine(MachineCommand("write", "x", "2"))), NOW)]
  }

  lemma Prefix(run: seq<Choice>, i: nat)
    requires i < |run|
    ensures After(Start(), run[..i + 1]) == Next(After(Start(), run[..i]), run[i])
  {
    hide Next;
    assert run[..i + 1][..i] == run[..i];
  }

  lemma StartIsInitial()
    ensures Initial(Start())
  {
    hide Implement, Indices;
    forall a | a in Start().nodes
      ensures var n := Start().nodes[a];
              n == Restart(Blank(a, n.peers, n.minElectionTimeout), n.leaderLastHeard, 0).node
    {
      RestartOutcome(Start().nodes[a], 0, 0);
    }
  }

  /** A member that ran for term `t` and fell back to follower. */
  function Beaten(a: Address, peers: seq<Address>, t: int, vote: Address): NodeState {
    Member(a, peers).(currentTerm := t, votedFor := vote)
  }

  lemma FirstTwo() returns (s: System)
    ensures s == After(Start(), TheRun()[..2])
    ensures "a" in s.nodes && s.nodes["a"] == BecomeCandidate(Member("a", ["b", "c"]))
    ensures "b" in s.nodes && s.nodes["b"] == BecomeCandidate(Member("b", ["a", "c"]))
    ensures VotePacket("b", ASK_A, []) in s.net && VotePacket("a", ASK_B, []) in s.net
  {
    hide Next, After, BecomeCandidate, Indices;
    var run := TheRun();
    s := Start();
    Zero(run);
    assert VoteRequestOf(s.nodes["a"]) == ASK_A && VoteRequestOf(s.nodes["b"]) == ASK_B;
    FollowerTicks(s, "a", NOW); Prefix(run, 0); s := Next(s, run[0]);
    FollowerTicks(s, "b", NOW); Prefix(run, 1); s := Next(s, run[1]);
    assert Member("a", ["b", "c"]).peers[0] == "b" && Member("b", ["a", "c"]).peers[0] == "a";
  }

  lemma FirstFour() returns (s: System)
    ensures s == After(Start(), TheRun()[..4])
    ensures "a" in s.nodes && s.nodes["a"] == Beaten("a", ["b", "c"], 1, "")
    ensures "b" in s.nodes && s.nodes["b"] == Beaten("b", ["a", "c"], 1, "")
    ensures VotePacket("b", ASK_A, []) in s.net && VotePacket("a", ASK_B, []) in s.net
  {
    hide Next, After, Indices;
    var run := TheRun();
    s := FirstTwo();
    CandidateTicks(s, "a", NOW); Prefix(run, 2); s := Next(s, run[2]);
    CandidateTicks(s, "b", NOW); Prefix(run, 3); s := Next(s, run[3]);
  }

  lemma FirstSix() returns (s: System)
    ensures s == After(Start(), TheRun()[..6])
    ensures "a" in s.nodes && s.nodes["a"] == Beaten("a", ["b", "c"], 1, "b")
    ensures "b" in s.nodes && s.nodes["b"] == Beaten("b", ["a", "c"], 1, "a")
    ensures VoteAnswerPacket("a", VoteAnswer("b", true, 1), ASK_A, "b") in s.net
    ensures VoteAnswerPacket("b", VoteAnswer("a", true, 1), ASK_B, "a") in s.net
  {
    hide Next, After, Indices;
    var run := TheRun();
    s := FirstFour();
    FollowerGrants(s, VotePacket("b", ASK_A, []), NOW); Prefix(run, 4); s := Next(s, run[4]);
    FollowerGrants(s, VotePacket("a", ASK_B, []), NOW); Prefix(run, 5); s := Next(s, run[5]);
  }

  lemma Zero(run: seq<Choice>)
    ensures After(Start(), run[..0]) == Start()
  {
  }

  lemma FirstEight() returns (s: System)
    ensures s == After(Start(), TheRun()[..8])
    ensures "a" in s.nodes && s.nodes["a"] == BecomeCandidate(Beaten("a", ["b", "c"], 1, "b"))
    ensures "b" in s.nodes && s.nodes["b"] == BecomeCandidate(Beaten("b", ["a", "c"], 1, "a"))
    ensures VoteAnswerPacket("a", VoteAnswer("b", true, 1), ASK_A, "b") in s.net
    ensures VoteAnswerPacket("b", VoteAnswer("a", true, 1), ASK_B, "a") in s.net
  {
    hide Next, After, Indices, BecomeCandidate;
    var run := TheRun();
    s := FirstSix();
    FollowerTicks(s, "a", NOW); Prefix(run, 6); s := Next(s, run[6]);
    FollowerTicks(s, "b", NOW); Prefix(run, 7); s := Next(s, run[7]);
  }

  /** A leader of term 2 by one old grant. */
  function Twice(a: Address, peers: seq<Address>, vote: Address): NodeState {
    Crowned(BecomeCandidate(Beaten(a, peers, 1, vote)).(voteCount := 2))
  }

  lemma TwiceFacts(a: Address, peers: seq<Address>, vote: Address)
    requires |peers| == 2
    ensures var n := BecomeCandidate(Beaten(a, peers, 1, vote)); var k := Twice(a, peers, vote);
            && Wins(n, VoteAnswer(vote, true, 1)) && n.address == a && n.currentTerm == 2
            && Crowned(n.(voteCount := n.voteCount + 1)) == k
            && k.role.Leader? && !k.halted && k.address == a && k.currentTerm == 2 && k.log == [NoOp(2)]
  {
    hide Indices, Marked;
  }

  lemma RunEnds()
    ensures var run := TheRun();
            && |run| == 12
            && run[8] == Deliver(VoteAnswerPacket("a", VoteAnswer("b", true, 1), ASK_A, "b"), NOW)
            && run[9] == Deliver(VoteAnswerPacket("b", VoteAnswer("a", true, 1), ASK_B, "a"), NOW)
            && run[10].Ask? && run[10].request.Command? && run[10] == Ask("a", Command(run[10].request.payload), NOW)
            && run[11].Ask? && run[11].request.Command? && run[11] == Ask("b", Command(run[11].request.payload), NOW)
  {
  }

  lemma FirstTen() returns (s: System)
    ensures s == After(Start(), TheRun()[..10])
    ensures "a" in s.nodes && s.nodes["a"] == Twice("a", ["b", "c"], "b")
    ensures "b" in s.nodes && s.nodes["b"] == Twice("b", ["a", "c"], "a")
  {
    hide *;
    var run := TheRun();
    s := FirstEight();
    RunEnds();
    TwiceFacts("a", ["b", "c"], "b");
    TwiceFacts("b", ["a", "c"], "a");
    CandidateWins(s, run[8].packet, NOW); Prefix(run, 8); s := Next(s, run[8]);
    CandidateWins(s, run[9].packet, NOW); Prefix(run, 9); s := Next(s, run[9]);
  }

  /** Election Safety and Log Matching both fail without their hypotheses: in this run of a
      three-node cluster two nodes lead term 2, and their logs hold different commands at
      the same index with the same term. */
  lemma SameTermTwice()
    ensures Initial(Start()) && !OneLeader(After(Start(), TheRun()).hist)
    ensures var s := After(Start(), TheRun());
            "a" in s.nodes && "b" in s.nodes && !Matching(s.nodes["a"].log, s.nodes["b"].log)
  {
    hide *;
    StartIsInitial();
    RunEnds();
    var run := TheRun();
    var s := FirstTen();
    TwiceFacts("a", ["b", "c"], "b");
    TwiceFacts("b", ["a", "c"], "a");
    LeaderAsked(s, "a", run[10].request.payload, NOW); Prefix(run, 10); s := Next(s, run[10]);
    LeaderAsked(s, "b", run[11].request.payload, NOW); Prefix(run, 11); s := Next(s, run[11]);
    assert run[..12] == run;
    BothLed(s.hist);
    DifferentCommands();
    NotMatching(s.nodes["a"].log, s.nodes["b"].log);
  }

  lemma BothLed(h: History)
    requires (2, "a") in h.leaders && (2, "b") in h.leaders
    ensures !OneLeader(h)
  {
  }

  lemma DifferentCommands()
    ensures var run := TheRun(); |run| == 12 && run[10].Ask? && run[10].request.Command? && run[11].Ask? && run[11].request.Command?
    ensures var run := TheRun(); forall n, k: NodeState ::
              !Same(CommandEntryOf(n, run[10].request.payload), CommandEntryOf(k, run[11].request.payload))
    ensures forall n: NodeState, p :: CommandEntryOf(n, p).term == n.currentTerm
  {
  }

  lemma NotMatching(x: seq<LogEntry>, y: seq<LogEntry>)
    requires |x| == |y| == 2 && x[1].term == y[1].term && !Same(x[1], y[1])
    ensures !Matching(x, y)
  {
    assert !AgreeUpTo(x, y, 2);
  }
}
