/** A run in which committed and applied commands are lost and a client is then told that a
    command completed which was never run - although no term has two leaders, nobody votes
    twice in a term, and every counted grant is what it claims. Taking any success reply for
    the leader's whole log, including the reply to an opening heartbeat, is what makes it
    possible. */
module LostCommit {
  import opened Types
  import opened Rules
  import opened Interpreter
  import opened Reactions
  import opened Effects
  import opened Outcomes
  import opened Network
  import opened Leadership
  import opened LogMatching
  import opened Elections
  import opened Ticket
  import opened Completeness
  import opened Commitment
  import opened Delivery
  import opened Config
  import opened Repair
  import opened Steps
  import opened TwoLeaders

  const X: Payload := Machine(MachineCommand("write", "x", "1"))
  const Y: Payload := Machine(MachineCommand("write", "y", "2"))
  const Z: Payload := Machine(MachineCommand("write", "z", "3"))

  const ASK_1: VoteRequest := VoteRequest(1, "a", -1, -1)
  const ASK_2: VoteRequest := VoteRequest(2, "b", -1, -1)
  const ASK_3: VoteRequest := VoteRequest(3, "a", 0, 2)
  const HELLO: AppendRequest := AppendRequest(1, "a", -1, 1, [], -1)
  const FEED: AppendRequest := AppendRequest(2, "b", -1, -1, [NoOp(2)], -1)

  // ----- the run, in parts -----

  /** "a" wins term 1 on the vote of "b". */
  function Win(): seq<Choice> {
    [Tick("a", NOW), Deliver(VotePacket("b", ASK_1, []), NOW),
     Deliver(VoteAnswerPacket("a", VoteAnswer("b", true, 0), ASK_1, "b"), NOW)]
  }

  /** It takes three commands, and "b" takes its opening heartbeat. */
  function Load(): seq<Choice> {
    [Ask("a", Command(X), NOW), Ask("a", Command(Y), NOW), Ask("a", Command(Z), NOW),
     Deliver(AppendPacket("b", HELLO, [NoOp(1)], false), NOW)]
  }

  /** The answer to that commits all of them. */
  function Acknowledge(): seq<Choice> {
    [Deliver(AppendAnswerPacket("a", AppendAnswer("b", true, 1), HELLO, [NoOp(1)], false, []), NOW)]
  }

  /** "b" wins term 2 on the vote of "c", with nothing in its log, and feeds its peers. */
  function Overtake(): seq<Choice> {
    [Tick("b", NOW), Deliver(VotePacket("c", ASK_2, []), NOW),
     Deliver(VoteAnswerPacket("b", VoteAnswer("c", true, 0), ASK_2, "c"), NOW), Tick("b", NOW)]
  }

  /** That cuts "a" off. */
  function Lose(): seq<Choice> {
    [Deliver(AppendPacket("a", FEED, [NoOp(2)], true), NOW)]
  }

  /** "c" restarts, and "a" wins term 3 on its vote. */
  function WinAgain(): seq<Choice> {
    [Reboot("c", 0, NOW), Tick("a", NOW), Deliver(VotePacket("c", ASK_3, [NoOp(2)]), NOW),
     Deliver(VoteAnswerPacket("a", VoteAnswer("c", true, 2), ASK_3, "c"), NOW)]
  }

  function BeforeCommit(): seq<Choice> {
    Win() + Load()
  }

  function FirstHalf(): seq<Choice> {
    BeforeCommit() + Acknowledge()
  }

  function UpToLoss(): seq<Choice> {
    FirstHalf() + Overtake()
  }

  function LosingRun(): seq<Choice> {
    UpToLoss() + Lose() + WinAgain()
  }

  lemma {:induction false} AfterConcat(s: System, a: seq<Choice>, b: seq<Choice>)
    ensures After(s, a + b) == After(After(s, a), b)
    decreases |b|
  {
    hide Next;
    if |b| == 0 {
      assert a + b == a;
    } else {
      assert (a + b)[..|a + b| - 1] == a + b[..|b| - 1];
      AfterConcat(s, a, b[..|b| - 1]);
    }
  }

  lemma AfterOne(s: System, a: Choice)
    ensures After(s, [a]) == Next(s, a)
  {
    hide Next;
    assert [a][..0] == [];
  }

  lemma AfterTwo(s: System, a: Choice, b: Choice)
    ensures After(s, [a, b]) == Next(Next(s, a), b)
  {
    hide Next, After;
    assert [a, b] == [a] + [b];
    AfterConcat(s, [a], [b]);
    AfterOne(s, a);
    AfterOne(Next(s, a), b);
  }

  lemma AfterThree(s: System, a: Choice, b: Choice, c: Choice)
    ensures After(s, [a, b, c]) == Next(Next(Next(s, a), b), c)
  {
    hide Next, After;
    assert [a, b, c] == [a, b] + [c];
    AfterConcat(s, [a, b], [c]);
    AfterTwo(s, a, b);
    AfterOne(Next(Next(s, a), b), c);
  }

  // ----- the nodes along the run -----

  function Asked(t: int, p: Payload): LogEntry {
    LogEntry(t, CommandEntry, p, "")
  }

  function Runner(): NodeState { BecomeCandidate(Member("a", ["b", "c"])) }

  function FirstLeader(): NodeState { Crowned(Runner().(voteCount := 2)) }

  function Three(): seq<LogEntry> {
    [NoOp(1), Asked(1, X), Asked(1, Y), Asked(1, Z)]
  }

  function Loaded(): NodeState { FirstLeader().(log := Three()) }

  function FirmLeader(): NodeState { React(Loaded(), AppendReply(AppendAnswer("b", true, 1)), NOW).node }

  function Voter(): NodeState { Member("b", ["a", "c"]).(currentTerm := 1, votedFor := "a") }

  function Greeted(): NodeState { Voter().(leaderLastHeard := NOW) }

  function SecondLeader(): NodeState { Crowned(BecomeCandidate(Greeted()).(voteCount := 2)) }

  function Third(): NodeState { Member("c", ["a", "b"]).(currentTerm := 2, votedFor := "b") }

  function Back(): NodeState { BecomeFollower(Recovered(Third(), 0)) }

  // ----- winning term 1 -----

  lemma Candidacy()
    ensures var n := Member("a", ["b", "c"]);
            && n.role.Follower? && !n.halted && n.address == "a" && n.currentTerm == 0 && n.peers == ["b", "c"] && n.log == []
            && VoteRequestOf(n) == ASK_1 && Runner() == BecomeCandidate(n)
  {
    hide Indices;
  }

  lemma FirstGrant()
    ensures var n := Member("b", ["a", "c"]);
            && n.role.Follower? && !n.halted && n.address == "b" && n.currentTerm == 0
            && GrantsVote(n, ASK_1, NOW) && Voted(n, ASK_1, NOW) == Voter()
  {
    hide Indices;
  }

  lemma FirstWin()
    ensures var n := Runner();
            && Wins(n, VoteAnswer("b", true, 0)) && n.address == "a" && n.currentTerm == 1 && n.peers == ["b", "c"]
            && OpeningHeartbeat(n) == HELLO && Crowned(n.(voteCount := n.voteCount + 1)) == FirstLeader()
            && FirstLeader().log == [NoOp(1)]
  {
    hide Indices, Marked;
  }

  lemma Won(s: System)
    requires s == Start()
    ensures var t := After(s, Win());
            && t.nodes == s.nodes["a" := FirstLeader()]["b" := Voter()]
            && AppendPacket("b", HELLO, [NoOp(1)], false) in t.net && AppendPacket("c", HELLO, [NoOp(1)], false) in t.net
            && t.hist.leaders == {(1, "a")} && t.hist.grants == {("a", 1, "a"), ("b", 1, "a")}
            && t.hist.counted == map[("a", 1) := [("b", 1)]]
  {
    hide Next, After, Member, VoteRequestOf, Runner, FirstLeader, Voter, Crowned, GrantsVote, Voted, Wins,
         BecomeCandidate, OpeningHeartbeat;
    var c := Win();
    AfterThree(s, c[0], c[1], c[2]);
    Candidacy();
    FirstGrant();
    FirstWin();
    FollowerTicks(s, "a", NOW);
    var t1 := Next(s, c[0]);
    assert s.nodes["a"].peers[0] == "b";
    FollowerGrants(t1, c[1].packet, NOW);
    var t2 := Next(t1, c[1]);
    CandidateWins(t2, c[2].packet, NOW);
    assert Runner().peers[0] == "b" && Runner().peers[1] == "c";
    assert Tally(t2.hist, "a", 1) + [("b", 1)] == [("b", 1)];
  }

  // ----- committing -----

  lemma FirstLeads()
    ensures var n := FirstLeader();
            && n.role.Leader? && !n.halted && n.address == "a" && n.currentTerm == 1
  {
    hide Indices, Marked;
  }

  lemma HelloTaken()
    ensures var n := Voter();
            && Takes(n, HELLO) && n.address == "b" && n.currentTerm == 1 && n.commitIndex == -1 && n.log == []
            && Receiver(n, 1) == n && Stored(n, HELLO, NOW) == Greeted() && Greeted().log == []
  {
    hide Indices;
  }

  lemma LoadedFacts()
    ensures var n := Loaded();
            && n.role.Leader? && !n.halted && n.address == "a" && n.currentTerm == 1 && n.peers == ["b", "c"]
            && n.commitIndex == -1 && n.lastApplied == -1 && n.changeIndex == -1 && n.changeTerm == -1
            && n.minElectionTimeout == 4000 && n.log == Three()
  {
    hide Indices, Marked;
  }

  lemma CommitsAll(n: NodeState)
    requires n.peers == ["b", "c"] && n.currentTerm == 1 && n.commitIndex == -1 && n.log == Three()
    ensures NewCommit(n, "b") == 3
  {
    assert Committable(n, "b", 3);
    assert Scan(n, "b", 4, 3) == 3;
    assert forall best :: Scan(n, "b", 3, best) == 3;
    assert forall best :: Scan(n, "b", 2, best) == 3;
    assert forall best :: Scan(n, "b", 1, best) == 3;
    assert Scan(n, "b", 0, -1) == Scan(n, "b", 1, if Committable(n, "b", 0) then 0 else -1);
  }

  /** The leader once it has counted the answer: all commands committed and applied. */
  lemma CommittedFacts()
    ensures var k := FirmLeader();
            && k.role.Leader? && !k.halted && k.address == "a" && k.currentTerm == 1 && k.peers == ["b", "c"]
            && k.commitIndex == 3 && k.lastApplied == 3 && k.changeIndex == -1 && k.changeTerm == -1
            && SameLog(Three(), k.log)
  {
    hide Loaded, React, NewCommit;
    var n := Loaded();
    var r := AppendAnswer("b", true, 1);
    LoadedFacts();
    CommitsAll(n);
    LeaderApplies(n, r, NOW);
  }

  lemma Loads(s: System)
    requires "a" in s.nodes && "b" in s.nodes && s.nodes["a"] == FirstLeader() && s.nodes["b"] == Voter()
    requires AppendPacket("b", HELLO, [NoOp(1)], false) in s.net && s.hist.leaders == {(1, "a")}
    ensures var t := After(s, Load());
            && t.nodes == s.nodes["a" := Loaded()]["b" := Greeted()]
            && AppendAnswerPacket("a", AppendAnswer("b", true, 1), HELLO, [NoOp(1)], false, []) in t.net
            && t.hist.leaders == s.hist.leaders && t.hist.grants == s.hist.grants && t.hist.counted == s.hist.counted
  {
    hide Next, After, FirstLeader, Loaded, Voter, Greeted, CommandEntryOf, Takes, Stored, Receiver, Rewind;
    var c := Load();
    assert c == [c[0], c[1]] + [c[2], c[3]];
    AfterConcat(s, [c[0], c[1]], [c[2], c[3]]);
    AfterTwo(s, c[0], c[1]);
    FirstLeads();
    HelloTaken();
    LoadedFacts();
    LeaderAsked(s, "a", X, NOW);
    var t1 := Next(s, c[0]);
    MoreCommands(t1.nodes["a"]);
    LeaderAsked(t1, "a", Y, NOW);
    var t2 := Next(t1, c[1]);
    AfterTwo(t2, c[2], c[3]);
    LeaderAsked(t2, "a", Z, NOW);
    RequestStored(Next(t2, c[2]), c[3].packet, NOW);
  }

  lemma Confirms(s: System)
    requires "a" in s.nodes && s.nodes["a"] == Loaded() && s.hist.leaders == {(1, "a")}
    requires AppendAnswerPacket("a", AppendAnswer("b", true, 1), HELLO, [NoOp(1)], false, []) in s.net
    ensures var t := After(s, Acknowledge());
            && t.nodes == s.nodes["a" := FirmLeader()]
            && t.hist.leaders == s.hist.leaders && t.hist.grants == s.hist.grants && t.hist.counted == s.hist.counted
  {
    hide Next, After, Loaded, Acknowledged, React, SameLog;
    var c := Acknowledge();
    AfterOne(s, c[0]);
    LoadedFacts();
    ReplyReceived(s, c[0].packet, NOW);
  }

  lemma MoreCommands(n: NodeState)
    requires n == FirstLeader().(log := FirstLeader().log + [CommandEntryOf(FirstLeader(), X)])
    ensures n.role.Leader? && !n.halted && n.currentTerm == 1 && n.address == "a"
    ensures var k := n.(log := n.log + [CommandEntryOf(n, Y)]);
            && k.role.Leader? && !k.halted && k.currentTerm == 1 && k.address == "a"
            && k.(log := k.log + [CommandEntryOf(k, Z)]) == Loaded()
  {
    hide Indices, Marked;
  }

  // ----- losing it all -----

  lemma SecondCandidacy()
    ensures var n := Greeted();
            && n.role.Follower? && !n.halted && n.address == "b" && n.currentTerm == 1 && n.peers == ["a", "c"] && n.log == []
            && VoteRequestOf(n) == ASK_2
  {
    hide Indices;
  }

  lemma SecondGrant()
    ensures var n := Member("c", ["a", "b"]);
            && n.role.Follower? && !n.halted && n.address == "c" && n.currentTerm == 0
            && GrantsVote(n, ASK_2, NOW) && Voted(n, ASK_2, NOW) == Third()
  {
    hide Indices;
  }

  lemma SecondWin()
    ensures var n := BecomeCandidate(Greeted()); var k := SecondLeader();
            && Wins(n, VoteAnswer("c", true, 0)) && n.address == "b" && n.currentTerm == 2
            && Crowned(n.(voteCount := n.voteCount + 1)) == k
            && k.role.Leader? && !k.halted && k.address == "b" && k.currentTerm == 2 && k.log == [NoOp(2)] && k.peers == ["a", "c"]
            && !TimeoutCrashes(k) && Lookup(k.nextIndex, "a") == 0 && RequestFor(k, 0) == FEED
  {
    hide Indices, Marked;
  }

  /** The old leader steps down and stores what the new one sent: its log is cut, its commit
      index and last-applied index are not. */
  ghost predicate CutOff(n: NodeState) {
    && n.role.Follower? && !n.halted && n.address == "a" && n.currentTerm == 2 && n.peers == ["b", "c"]
    && n.commitIndex == 3 && n.lastApplied == 3 && n.log == [NoOp(2)]
  }

  lemma FeedTaken(n: NodeState)
    requires n.role.Leader? && !n.halted && n.address == "a" && n.currentTerm == 1 && n.peers == ["b", "c"]
    requires n.commitIndex == 3 && n.lastApplied == 3 && n.changeIndex == -1
    ensures Takes(n, FEED) && Rewind(Receiver(n, 2).log, -1, Recorded(Receiver(n, 2))).Rewound?
    ensures CutOff(Stored(Receiver(n, 2), FEED, NOW))
  {
  }

  lemma Overtaken(s: System)
    requires s.nodes == map["a" := FirmLeader(), "b" := Greeted(), "c" := Member("c", ["a", "b"])]
    ensures var t := After(s, Overtake());
            && t.nodes == map["a" := FirmLeader(), "b" := SecondLeader(), "c" := Third()]
            && AppendPacket("a", FEED, [NoOp(2)], true) in t.net
            && t.hist.leaders == s.hist.leaders + {(2, "b")}
            && t.hist.grants == s.hist.grants + {("b", 2, "b"), ("c", 2, "b")}
            && t.hist.counted == s.hist.counted[("b", 2) := Tally(s.hist, "b", 2) + [("c", 2)]]
  {
    hide Next, After, Member, VoteRequestOf, FirmLeader, Greeted, Third, SecondLeader, Crowned, GrantsVote,
         Voted, Wins, BecomeCandidate, RequestFor, TimeoutCrashes;
    var c := Overtake();
    assert c == [c[0], c[1], c[2]] + [c[3]];
    AfterConcat(s, [c[0], c[1], c[2]], [c[3]]);
    AfterThree(s, c[0], c[1], c[2]);
    SecondCandidacy();
    SecondGrant();
    SecondWin();
    FollowerTicks(s, "b", NOW);
    var t1 := Next(s, c[0]);
    assert s.nodes["b"].peers[1] == "c";
    FollowerGrants(t1, c[1].packet, NOW);
    var t2 := Next(t1, c[1]);
    CandidateWins(t2, c[2].packet, NOW);
    var t3 := Next(t2, c[2]);
    AfterOne(t3, c[3]);
    LeaderTicks(t3, "b", NOW);
    assert SecondLeader().peers[0] == "a";
  }

  lemma Lost(s: System)
    requires s.nodes == map["a" := FirmLeader(), "b" := SecondLeader(), "c" := Third()]
    requires AppendPacket("a", FEED, [NoOp(2)], true) in s.net
    ensures var t := After(s, Lose());
            && t.nodes.Keys == {"a", "b", "c"} && CutOff(t.nodes["a"]) && t.nodes["b"] == SecondLeader() && t.nodes["c"] == Third()
            && t.hist == s.hist
  {
    hide Next, After, FirmLeader, Third, SecondLeader, Takes, Stored, Receiver, Rewind, CutOff;
    var c := Lose();
    AfterOne(s, c[0]);
    CommittedFacts();
    FeedTaken(FirmLeader());
    RequestStored(s, c[0].packet, NOW);
  }

  // ----- winning again -----

  lemma ThirdCandidacy(n: NodeState)
    requires CutOff(n)
    ensures VoteRequestOf(n) == ASK_3
    ensures var c := BecomeCandidate(n);
            && Wins(c, VoteAnswer("c", true, 2)) && c.address == "a" && c.currentTerm == 3
            && LeadsShort(Crowned(c.(voteCount := c.voteCount + 1)))
  {
    hide Marked;
  }

  lemma ThirdGrant()
    ensures var n := Back();
            && n.role.Follower? && !n.halted && n.address == "c" && n.currentTerm == 2
            && GrantsVote(n, ASK_3, NOW) && HoldsNothing(Voted(n, ASK_3, NOW))
  {
    hide Indices;
  }

  /** The voter that made it leader holds nothing. */
  ghost predicate HoldsNothing(n: NodeState) {
    n.role.Follower? && !n.halted && n.address == "c" && n.currentTerm == 3 && n.commitIndex == -1 && n.log == []
  }

  /** A leader that has committed and applied more than it holds. */
  ghost predicate LeadsShort(n: NodeState) {
    && n.role.Leader? && !n.halted && n.address == "a" && n.currentTerm == 3
    && n.commitIndex == 3 && n.lastApplied == 3 && n.log == [NoOp(2), NoOp(3)]
    && n.peers == ["b", "c"] && !TimeoutCrashes(n) && Lookup(n.nextIndex, "c") == 1
  }

  lemma WonAgain(s: System)
    requires s.nodes.Keys == {"a", "b", "c"} && CutOff(s.nodes["a"]) && s.nodes["b"] == SecondLeader()
    requires s.nodes["c"] == Third()
    ensures var t := After(s, WinAgain());
            && t.nodes.Keys == {"a", "b", "c"} && LeadsShort(t.nodes["a"]) && t.nodes["b"] == SecondLeader() && HoldsNothing(t.nodes["c"])
            && t.hist.leaders == s.hist.leaders + {(3, "a")}
            && t.hist.grants == s.hist.grants + {("a", 3, "a"), ("c", 3, "a")}
            && t.hist.counted == s.hist.counted[("a", 3) := Tally(s.hist, "a", 3) + [("c", 3)]]
  {
    hide Next, After, VoteRequestOf, Third, Back, SecondLeader, Crowned, GrantsVote, Voted, Wins,
         BecomeCandidate, LeadsShort, Tally, BecomeFollower, Recovered;
    var c := WinAgain();
    assert c == [c[0]] + [c[1], c[2], c[3]];
    AfterConcat(s, [c[0]], [c[1], c[2], c[3]]);
    AfterOne(s, c[0]);
    Rebooted(s, "c", 0, NOW);
    var t0 := Next(s, c[0]);
    assert t0.nodes["c"] == Back() by { BackIs(); }
    AfterThree(t0, c[1], c[2], c[3]);
    ThirdCandidacy(s.nodes["a"]);
    ThirdGrant();
    FollowerTicks(t0, "a", NOW);
    var t1 := Next(t0, c[1]);
    assert s.nodes["a"].peers[1] == "c";
    FollowerGrants(t1, c[2].packet, NOW);
    var t2 := Next(t1, c[2]);
    CandidateWins(t2, c[3].packet, NOW);
    SameTally(s.hist, t2.hist, "a", 3);
  }

  lemma BackIs()
    ensures Back() == BecomeFollower(Recovered(Third(), 0))
  {
  }

  lemma SameTally(h: History, k: History, a: Address, t: int)
    requires h.counted == k.counted
    ensures Tally(h, a, t) == Tally(k, a, t)
  {
  }

  // ----- what the run shows -----

  const CLUSTER: set<Address> := {"a", "b", "c"}

  lemma CleanHistory(h: History, k: History)
    requires h.leaders == {(1, "a"), (2, "b")} && h.grants == {("a", 1, "a"), ("b", 1, "a"), ("b", 2, "b"), ("c", 2, "b")}
    requires h.counted == map[("a", 1) := [("b", 1)], ("b", 2) := [("c", 2)]]
    requires k.leaders == h.leaders + {(3, "a")} && k.grants == h.grants + {("a", 3, "a"), ("c", 3, "a")}
    requires k.counted == h.counted[("a", 3) := Tally(h, "a", 3) + [("c", 3)]]
    ensures OneLeader(k) && OneVote(k) && CleanCounts(k, CLUSTER)
  {
    assert Tally(h, "a", 3) + [("c", 3)] == [("c", 3)];
  }

  lemma InParts()
    ensures After(Start(), BeforeCommit()) == After(After(Start(), Win()), Load())
    ensures After(Start(), FirstHalf()) == After(After(Start(), BeforeCommit()), Acknowledge())
    ensures After(Start(), UpToLoss()) == After(After(Start(), FirstHalf()), Overtake())
    ensures After(Start(), LosingRun()) == After(After(After(Start(), UpToLoss()), Lose()), WinAgain())
  {
    hide After, Win, Load, Acknowledge, Overtake, Lose, WinAgain;
    AfterConcat(Start(), Win(), Load());
    AfterConcat(Start(), BeforeCommit(), Acknowledge());
    AfterConcat(Start(), FirstHalf(), Overtake());
    AfterConcat(Start(), UpToLoss(), Lose());
    AfterConcat(Start(), UpToLoss() + Lose(), WinAgain());
  }

  lemma Lengths()
    ensures |BeforeCommit()| == 7 && |FirstHalf()| == 8 && |UpToLoss()| == 12 && |LosingRun()| == 17
    ensures LosingRun()[..7] == BeforeCommit() && LosingRun()[..8] == FirstHalf() && LosingRun()[..12] == UpToLoss()
    ensures LosingRun()[7] == Acknowledge()[0] && LosingRun()[12] == Lose()[0]
  {
    PartLengths();
    hide Win, Load, Acknowledge, Overtake, Lose, WinAgain;
    assert LosingRun() == UpToLoss() + (Lose() + WinAgain());
    assert LosingRun() == BeforeCommit() + (Acknowledge() + Overtake() + Lose() + WinAgain());
  }

  lemma PartLengths()
    ensures |Win()| == 3 && |Load()| == 4 && |Acknowledge()| == 1 && |Overtake()| == 4 && |Lose()| == 1 && |WinAgain()| == 4
  {
  }

  lemma AboutToCommit() returns (s: System)
    ensures s == After(Start(), BeforeCommit())
    ensures s.nodes == map["a" := Loaded(), "b" := Greeted(), "c" := Member("c", ["a", "b"])]
    ensures AppendAnswerPacket("a", AppendAnswer("b", true, 1), HELLO, [NoOp(1)], false, []) in s.net
    ensures s.hist.leaders == {(1, "a")} && s.hist.grants == {("a", 1, "a"), ("b", 1, "a")}
    ensures s.hist.counted == map[("a", 1) := [("b", 1)]]
  {
    hide After, Win, Load, BeforeCommit, FirstHalf, UpToLoss, LosingRun, Loaded, Greeted, Member, FirstLeader, Voter;
    InParts();
    var t := After(Start(), Win());
    Won(Start());
    Loads(t);
    s := After(t, Load());
  }

  lemma HalfWay() returns (s: System)
    ensures s == After(Start(), FirstHalf())
    ensures s.nodes == map["a" := FirmLeader(), "b" := Greeted(), "c" := Member("c", ["a", "b"])]
    ensures s.hist.leaders == {(1, "a")} && s.hist.grants == {("a", 1, "a"), ("b", 1, "a")}
    ensures s.hist.counted == map[("a", 1) := [("b", 1)]]
  {
    hide After, Acknowledge, BeforeCommit, FirstHalf, UpToLoss, LosingRun, Loaded, FirmLeader, Greeted, Member;
    InParts();
    var t := AboutToCommit();
    Confirms(t);
    s := After(t, Acknowledge());
  }

  lemma BeforeTheLoss() returns (s: System)
    ensures s == After(Start(), UpToLoss())
    ensures s.nodes == map["a" := FirmLeader(), "b" := SecondLeader(), "c" := Third()]
    ensures AppendPacket("a", FEED, [NoOp(2)], true) in s.net
    ensures s.hist.leaders == {(1, "a"), (2, "b")}
    ensures s.hist.grants == {("a", 1, "a"), ("b", 1, "a"), ("b", 2, "b"), ("c", 2, "b")}
    ensures s.hist.counted == map[("a", 1) := [("b", 1)], ("b", 2) := [("c", 2)]]
  {
    hide After, Overtake, FirstHalf, UpToLoss, LosingRun, FirmLeader, Greeted, Member, SecondLeader, Third;
    InParts();
    var t := HalfWay();
    Overtaken(t);
    assert Tally(t.hist, "b", 2) + [("c", 2)] == [("c", 2)];
    s := After(t, Overtake());
  }

  lemma InTheEnd() returns (t: System)
    ensures t == After(Start(), LosingRun())
    ensures t.nodes.Keys == {"a", "b", "c"} && LeadsShort(t.nodes["a"]) && t.nodes["b"] == SecondLeader()
    ensures HoldsNothing(t.nodes["c"])
    ensures OneLeader(t.hist) && OneVote(t.hist) && CleanCounts(t.hist, CLUSTER)
  {
    hide After, Lose, WinAgain, FirstHalf, UpToLoss, LosingRun, FirmLeader, SecondLeader, Third, CutOff,
         LeadsShort, OneLeader, OneVote, CleanCounts;
    InParts();
    var s := BeforeTheLoss();
    var u := After(s, Lose());
    Lost(s);
    WonAgain(u);
    t := After(u, WinAgain());
    CleanHistory(s.hist, t.hist);
  }

  /** Committed entries are lost under every hypothesis of Election Safety: half way "a" has
      committed and applied three commands as leader; in the end it leads again, and nobody's
      log holds any command. */
  lemma CommittedCommandsLost()
    ensures Initial(Start()) && NoReconfiguration(LosingRun())
    ensures forall x :: x in Start().nodes ==> x in CLUSTER && |Start().nodes[x].peers| == |CLUSTER| - 1
    ensures var s := After(Start(), LosingRun()[..8]);
            "a" in s.nodes && var n := s.nodes["a"];
            && n.role.Leader? && n.commitIndex == 3 && n.lastApplied == 3 && SameLog(Three(), n.log)
    ensures var t := After(Start(), LosingRun());
            && OneLeader(t.hist) && OneVote(t.hist) && CleanCounts(t.hist, CLUSTER)
            && "a" in t.nodes && LeadsShort(t.nodes["a"])
            && forall x, i :: x in t.nodes && 0 <= i < |t.nodes[x].log| ==> t.nodes[x].log[i].kind != CommandEntry
  {
    hide *;
    StartIsInitial();
    Lengths();
    NoChangesAsked();
    StartFits();
    var s := HalfWay();
    CommittedFacts();
    var t := InTheEnd();
    NoCommands(t);
  }

  lemma StartFits()
    ensures forall x :: x in Start().nodes ==> x in CLUSTER && |Start().nodes[x].peers| == |CLUSTER| - 1
  {
    assert |CLUSTER| == 3;
  }

  lemma NoCommands(t: System)
    requires t.nodes.Keys == {"a", "b", "c"} && LeadsShort(t.nodes["a"]) && t.nodes["b"] == SecondLeader()
    requires HoldsNothing(t.nodes["c"])
    ensures forall x, i :: x in t.nodes && 0 <= i < |t.nodes[x].log| ==> t.nodes[x].log[i].kind != CommandEntry
  {
    hide SecondLeader, TimeoutCrashes;
    SecondWin();
  }

  lemma NoChangesAsked()
    ensures NoReconfiguration(LosingRun())
  {
    assert forall c :: c in Win() || c in Load() || c in Acknowledge() || c in Overtake() || c in Lose() || c in WinAgain() ==>
      (c.Ask? ==> c.request.Command?);
  }

  /** And then a client is lied to: the ticket it gets for its command reads as completed at
      once, with nothing to show. */
  lemma TicketLies(p: Payload, now: int)
    ensures var t := After(Start(), LosingRun());
            "a" in t.nodes
            && var o := React(t.nodes["a"], Command(p), now);
            && o.out == [Answer(CheckLater(2, 3))]
            && React(o.node, Probe(2, 3), now).out == [Answer(Completed(""))]
  {
    hide After, React, LosingRun, Initial, OneLeader, OneVote, CleanCounts;
    CommittedCommandsLost();
    var n := After(Start(), LosingRun()).nodes["a"];
    TicketNamesPlace(n, p, now);
    EarlyCompletionIff(n, p, now);
  }

  /** And its own log repair kills: the leader's commit index is out of its reach and of its
      voter's, and feeding that voter kills it in the second round. */
  lemma RepairKills(now: int, later: int)
    ensures var t := After(Start(), LosingRun());
            && "a" in t.nodes && "c" in t.nodes && OneLeader(t.hist)
            && var l, f := t.nodes["a"], t.nodes["c"];
            && l.role.Leader? && !l.halted && !f.halted && "c" in l.peers && f.currentTerm <= l.currentTerm
            && !Announceable(l, f) && Accepts(f, RequestFor(l, 0)) && AppendCrashes(f, RequestFor(l, 0))
            && var p := Rounds(Pair(l, f, false), [Turn([], now), Turn([], later)]);
               !p.done && p.follower.halted
  {
    hide After, Initial, LosingRun, OneLeader, OneVote, CleanCounts, SecondLeader, Start, Rounds, Rewindable, CalmTurns;
    StartIsInitial();
    var t := InTheEnd();
    var l, f := t.nodes["a"], t.nodes["c"];
    var turns := [Turn([], now), Turn([], later)];
    assert l.peers[1] == "c";
    OutOfReach(l, f);
    NothingMeanwhile(Pair(l, f, false), turns);
    RepairedInRuns(Start(), LosingRun(), "a", "c", turns);
  }

  lemma OutOfReach(l: NodeState, f: NodeState)
    requires LeadsShort(l) && HoldsNothing(f)
    ensures Accepts(f, RequestFor(l, 0)) && AppendCrashes(f, RequestFor(l, 0))
  {
    assert EntryFor(f, RequestFor(l, 0), 2).None?;
  }

  lemma {:induction false} NothingMeanwhile(p: Pair, turns: seq<Turn>)
    requires forall i :: 0 <= i < |turns| ==> turns[i].meanwhile == []
    ensures CalmTurns(p, turns)
    decreases |turns|
  {
    hide Played;
    if |turns| > 0 { NothingMeanwhile(Played(p, turns[0]), turns[1..]); }
  }

  // ----- which hypothesis of Leader Completeness it breaks -----

  lemma RunIsClean()
    ensures CleanRun(Start(), LosingRun(), CLUSTER)
  {
    hide After, Initial, LosingRun, OneLeader, OneVote, CleanCounts, LeadsShort, SecondLeader, Start, NoReconfiguration;
    StartIsInitial();
    NoChangesAsked();
    StartFits();
    StartKnows();
    assert |CLUSTER| == 3;
    var t := InTheEnd();
  }

  lemma StartKnows()
    ensures forall a, x :: a in Start().nodes && x in Start().nodes[a].peers ==> x in CLUSTER - {a}
    ensures forall a, i, j :: a in Start().nodes && 0 <= i < j < |Start().nodes[a].peers| ==>
              Start().nodes[a].peers[i] != Start().nodes[a].peers[j]
  {
    hide Member;
    StartPeers();
  }

  lemma StartPeers()
    ensures Member("a", ["b", "c"]).peers == ["b", "c"] && Member("b", ["a", "c"]).peers == ["a", "c"]
    ensures Member("c", ["a", "b"]).peers == ["a", "b"]
  {
    hide Indices;
  }

  /** Only one request with entries is delivered. */
  lemma OneFeed(j: nat)
    requires j < |LosingRun()| && Feeds(LosingRun()[j])
    ensures j == 12
  {
  }

  lemma NothingStale()
    ensures InOrder(Start(), LosingRun()) && NoneStale(Start(), LosingRun())
  {
    hide After, LosingRun, Start, Feeds, CleanRun;
    forall j | 0 <= j < |LosingRun()| && Feeds(LosingRun()[j]) ensures j == 12 { OneFeed(j); }
    SoleFeedInOrder(Start(), LosingRun(), 12);
    RunIsClean();
    OrderedRunsFresh(Start(), LosingRun(), CLUSTER);
  }

  lemma CommitsThree(s: System)
    requires "a" in s.nodes && s.nodes["a"] == Loaded()
    requires AppendAnswerPacket("a", AppendAnswer("b", true, 1), HELLO, [NoOp(1)], false, []) in s.net
    ensures LeaderCommits(s, Acknowledge()[0]) && |Commitment.Committed(s, Acknowledge()[0])| == 4
  {
    hide React, Loaded, SameLog;
    LoadedFacts();
    CommittedFacts();
  }

  /** Honest counting is what Leader Completeness cannot do without: this run meets all other
      hypotheses, and no winning set ever holds the three commands it commits and loses. */
  lemma HonestyNeeded()
    ensures CleanRun(Start(), LosingRun(), CLUSTER) && InOrder(Start(), LosingRun()) && NoneStale(Start(), LosingRun())
    ensures 7 < |LosingRun()| && CommitsMore(After(Start(), LosingRun()[..7]), LosingRun()[7])
    ensures Enabled(After(Start(), LosingRun()[..7]), LosingRun()[7]) && !LosingRun()[7].Reboot?
    ensures !HonestlyCounted(Start(), LosingRun(), 7, CLUSTER)
  {
    hide *;
    RunIsClean();
    NothingStale();
    Lengths();
    var s := AboutToCommit();
    CommitsThree(s);
    CommitStep(s, LosingRun()[7]);
    MoreThanOne(s, LosingRun()[7]);
    LedFirst(s);
    SecondLogShort();
    TooShort(After(Start(), LosingRun()).hist.leaderLog[2], Commitment.Committed(s, LosingRun()[7]));
    LostMeansDishonest(Start(), LosingRun(), 7, 2, CLUSTER);
  }

  lemma MoreThanOne(s: System, c: Choice)
    requires LeaderCommits(s, c) && |Commitment.Committed(s, c)| == 4
    ensures CommitsMore(s, c)
  {
    hide LeaderCommits, Commitment.Committed;
  }

  lemma TooShort(log: seq<LogEntry>, p: seq<LogEntry>)
    requires |log| < |p|
    ensures !Contains(log, p)
  {
  }

  lemma LedFirst(s: System)
    requires "a" in s.nodes && s.nodes["a"] == Loaded()
    ensures Target(Acknowledge()[0]) == "a" && s.nodes["a"].currentTerm == 1
  {
    hide Loaded;
    LoadedFacts();
  }

  lemma SecondLogShort()
    ensures 2 in After(Start(), LosingRun()).hist.leaderLog && |After(Start(), LosingRun()).hist.leaderLog[2]| == 1
  {
    hide *;
    var t := InTheEnd();
    StartIsInitial();
    MatchedAlways(Start(), LosingRun());
    SecondWin();
    LedLog(t, "b");
  }

  lemma LedLog(s: System, a: Address)
    requires Matched(s) && a in s.nodes && s.nodes[a].role.Leader?
    ensures s.nodes[a].currentTerm in s.hist.leaderLog && |s.hist.leaderLog[s.nodes[a].currentTerm]| == |s.nodes[a].log|
  {
    hide Rooted, PacketMatched;
  }
}
