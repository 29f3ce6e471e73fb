/** A first leader that commits entry 0 on the answer to its opening heartbeat, as every fresh
    cluster can, although nobody else holds it. What comes of that: another leader may commit
    another entry 0, and the first may take two membership changes at once. */
module FirstCommit {
  import opened Types
  import opened Rules
  import opened Interpreter
  import opened Reactions
  import opened Effects
  import opened Applying
  import opened Outcomes
  import opened Network
  import opened NodeRuns
  import opened Leadership
  import opened Config
  import opened Elections
  import opened Completeness
  import opened Commitment
  import opened MachineSafety
  import opened Delivery
  import opened Reconfiguration
  import opened Acknowledgement
  import opened Steps
  import opened TwoLeaders
  import opened LostCommit

  const LATER: int := 9000

  const HELLO_2: AppendRequest := AppendRequest(2, "b", -1, 2, [], -1)

  function Short(): seq<LogEntry> {
    [NoOp(1)]
  }

  /** What "b" asks for when it holds `log`. */
  function Bid(log: seq<LogEntry>): VoteRequest {
    VoteRequest(2, "b", |log| - 1, if |log| > 0 then 1 else -1)
  }

  // ----- the runs, in parts -----

  /** "c" hears the opening heartbeat of the leader of term 1, and its answer is counted. */
  function Hello(): Choice { Deliver(AppendPacket("c", HELLO, Short(), false), NOW) }

  function HelloBack(): Choice {
    Deliver(AppendAnswerPacket("a", AppendAnswer("c", true, 0), HELLO, Short(), false, []), NOW)
  }

  function Greet(): seq<Choice> {
    [Hello(), HelloBack()]
  }

  /** "b", holding `log`, wins term 2 on the vote of "c". */
  function Succeed(log: seq<LogEntry>): seq<Choice> {
    [Tick("b", NOW), Deliver(VotePacket("c", Bid(log), log), LATER),
     Deliver(VoteAnswerPacket("b", VoteAnswer("c", true, 1), Bid(log), "c"), NOW)]
  }

  /** The same with the leader of term 2. */
  function HelloAgain(): Choice { Deliver(AppendPacket("c", HELLO_2, [NoOp(2)], false), NOW) }

  function HelloBackAgain(): Choice {
    Deliver(AppendAnswerPacket("b", AppendAnswer("c", true, 2), HELLO_2, [NoOp(2)], false, []), NOW)
  }

  function GreetAgain(): seq<Choice> {
    [HelloAgain(), HelloBackAgain()]
  }

  /** The leader is asked for two more servers. */
  function Grow(): seq<Choice> {
    [Ask("a", AddServer("d"), NOW), Ask("a", AddServer("e"), NOW)]
  }

  function GreetedRun(): seq<Choice> {
    Win() + Greet()
  }

  function GrowingRun(): seq<Choice> {
    GreetedRun() + Grow()
  }

  function TwiceRun(): seq<Choice> {
    GreetedRun() + Succeed([]) + GreetAgain()
  }

  // ----- the first commit -----

  /** The only entry of a leader's log is committed by any success reply. */
  lemma CommitsFirst(n: NodeState, p: Address)
    requires n.peers == [p, "c"] && n.commitIndex == -1 && n.log == [NoOp(n.currentTerm)] && Lookup(n.matchIndex, p) == 0
    ensures NewCommit(n, "c") == 0
  {
    assert Committable(n, "c", 0);
    assert Scan(n, "c", 1, 0) == 0;
    assert Scan(n, "c", 0, -1) == Scan(n, "c", 1, if Committable(n, "c", 0) then 0 else -1);
  }

  lemma NoneToRun(t: int)
    ensures |[NoOp(t)]| == 1 && Decodable([NoOp(t)], 0, 1) && Before(map[], [NoOp(t)], 0, 1) == map[]
  {
    assert Commands([NoOp(t)], 1, 1) == [];
  }

  lemma OpenOutcome(n: NodeState, p: Address, term: int)
    requires n.role.Leader? && !n.halted && n.peers == [p, "c"] && n.log == [NoOp(n.currentTerm)] && term <= n.currentTerm
    requires n.commitIndex == -1 && n.lastApplied == -1 && n.database == map[] && Lookup(n.matchIndex, p) == 0
    ensures var k := React(n, AppendReply(AppendAnswer("c", true, term)), NOW).node;
            k == n.(commitIndex := 0, lastApplied := 0, nextIndex := n.nextIndex["c" := 1], matchIndex := n.matchIndex["c" := 0])
  {
    hide React, NewCommit, SameLog, Before, Decodable;
    var r := AppendAnswer("c", true, term);
    NoneToRun(n.currentTerm);
    CommitsFirst(n, p);
    LeaderApplies(n, r, NOW);
    var k := React(n, AppendReply(r), NOW).node;
    assert k.log == n.log;
  }

  /** The first leader once "c" has answered. */
  function Opened(): NodeState {
    FirstLeader().(commitIndex := 0, lastApplied := 0, nextIndex := FirstLeader().nextIndex["c" := 1],
                   matchIndex := FirstLeader().matchIndex["c" := 0])
  }

  lemma OpenerFacts()
    ensures var n := FirstLeader();
            && n.role.Leader? && !n.halted && n.address == "a" && n.currentTerm == 1 && n.peers == ["b", "c"] && n.log == Short()
            && n.commitIndex == -1 && n.lastApplied == -1 && n.changeIndex == -1 && n.changeTerm == -1 && n.database == map[]
            && Lookup(n.matchIndex, "b") == 0 && Lookup(n.nextIndex, "b") == 0
  {
    hide Indices, Marked;
  }

  lemma OpenedFacts()
    ensures var k := Opened();
            && k.role.Leader? && !k.halted && k.address == "a" && k.currentTerm == 1 && k.peers == ["b", "c"] && k.log == Short()
            && k.commitIndex == 0 && k.lastApplied == 0 && k.changeIndex == -1 && k.database == map[]
            && Lookup(k.matchIndex, "b") == 0 && Lookup(k.matchIndex, "c") == 0 && Lookup(k.nextIndex, "b") == 0
            && Lookup(k.nextIndex, "c") == 1
    ensures React(FirstLeader(), AppendReply(AppendAnswer("c", true, 0)), NOW).node == Opened()
  {
    hide FirstLeader, React;
    OpenerFacts();
    OpenOutcome(FirstLeader(), "b", 0);
  }

  /** "c" after the heartbeat. */
  function Listener(): NodeState { Member("c", ["a", "b"]).(currentTerm := 1, leaderLastHeard := NOW) }

  lemma HelloHeard()
    ensures var n := Member("c", ["a", "b"]);
            && Takes(n, HELLO) && n.address == "c" && n.currentTerm == 0 && n.commitIndex == -1 && n.log == []
            && Receiver(n, 1) == n && Stored(n, HELLO, NOW) == Listener() && Listener().log == []
  {
    hide Indices;
  }

  lemma Greets(s: System)
    requires "a" in s.nodes && "c" in s.nodes && s.nodes["a"] == FirstLeader() && s.nodes["c"] == Member("c", ["a", "b"])
    requires AppendPacket("c", HELLO, Short(), false) in s.net && s.hist.leaders == {(1, "a")}
    ensures var t := After(s, Greet()); var u := After(s, [Hello()]);
            && u.nodes == s.nodes["c" := Listener()] && HelloBack().packet in u.net
            && t.nodes == s.nodes["a" := Opened()]["c" := Listener()] && s.net <= t.net
            && t.hist.leaders == s.hist.leaders && t.hist.grants == s.hist.grants && t.hist.counted == s.hist.counted
  {
    hide Next, After, FirstLeader, Opened, Listener, Member, Takes, Stored, Receiver, Rewind, React,
         Acknowledged, SameLog;
    var c := Greet();
    AfterOne(s, c[0]);
    AfterTwo(s, c[0], c[1]);
    HelloHeard();
    OpenerFacts();
    OpenedFacts();
    RequestStored(s, c[0].packet, NOW);
    ReplyReceived(Next(s, c[0]), c[1].packet, NOW);
  }

  /** The cluster once entry 0 is committed, and just before. */
  lemma OnceGreeted() returns (s: System)
    ensures s == After(Start(), GreetedRun())
    ensures s.nodes == map["a" := Opened(), "b" := Voter(), "c" := Listener()]
    ensures s.hist.leaders == {(1, "a")} && s.hist.grants == {("a", 1, "a"), ("b", 1, "a")}
    ensures s.hist.counted == map[("a", 1) := [("b", 1)]]
  {
    hide After, Win, Greet, Opened, Listener, Member, FirstLeader, Voter;
    AfterConcat(Start(), Win(), Greet());
    Won(Start());
    Greets(After(Start(), Win()));
    s := After(After(Start(), Win()), Greet());
  }

  lemma AboutToOpen() returns (s: System)
    ensures s == After(Start(), Win() + [Hello()])
    ensures s.nodes == map["a" := FirstLeader(), "b" := Voter(), "c" := Listener()] && HelloBack().packet in s.net
  {
    hide After, Win, Opened, Listener, Member, FirstLeader, Voter;
    AfterConcat(Start(), Win(), [Hello()]);
    Won(Start());
    Greets(After(Start(), Win()));
    s := After(After(Start(), Win()), [Hello()]);
  }

  // ----- the next leader -----

  /** "b" as a follower of term 1 that holds `log`. */
  ghost predicate Fed(n: NodeState, log: seq<LogEntry>, commit: int) {
    && n.role.Follower? && !n.halted && n.address == "b" && n.currentTerm == 1 && n.peers == ["a", "c"] && n.commitIndex == commit
    && n.lastApplied == -1 && n.database == map[] && n.changeIndex == -1 && n.log == log
  }

  lemma FedVoter()
    ensures Fed(Voter(), [], -1)
  {
    hide Indices;
  }

  lemma FedIs(n: NodeState, log: seq<LogEntry>, commit: int)
    requires Fed(n, log, commit)
    ensures n.role.Follower? && !n.halted && n.address == "b" && n.currentTerm == 1 && n.peers == ["a", "c"] && n.log == log
    ensures n.commitIndex == commit
  {
  }

  function Successor(n: NodeState): NodeState { Crowned(BecomeCandidate(n).(voteCount := 2)) }

  lemma BidMade(n: NodeState, log: seq<LogEntry>, commit: int)
    requires Fed(n, log, commit) && (|log| > 0 ==> log[|log| - 1].term == 1)
    ensures VoteRequestOf(n) == Bid(log)
    ensures var c := BecomeCandidate(n);
            && Wins(c, VoteAnswer("c", true, 1)) && c.address == "b" && c.currentTerm == 2 && c.peers == ["a", "c"]
            && Crowned(c.(voteCount := c.voteCount + 1)) == Successor(n) && Successor(n).log == log + [NoOp(2)]
  {
    hide Marked;
  }

  lemma BidGranted(log: seq<LogEntry>)
    ensures var n := Listener();
            && n.role.Follower? && !n.halted && n.address == "c" && n.currentTerm == 1
            && GrantsVote(n, Bid(log), LATER) && Voted(n, Bid(log), LATER) == n.(currentTerm := 2, votedFor := "b")
    ensures Bid(log).term == 2 && Bid(log).candidate == "b"
  {
    hide Indices;
  }

  lemma Succeeds(s: System, log: seq<LogEntry>, commit: int)
    requires "b" in s.nodes && "c" in s.nodes && Fed(s.nodes["b"], log, commit) && s.nodes["c"] == Listener()
    requires |log| > 0 ==> log[|log| - 1].term == 1
    ensures var t := After(s, Succeed(log)); var k := Successor(s.nodes["b"]);
            && t.nodes == s.nodes["b" := k]["c" := Listener().(currentTerm := 2, votedFor := "b")]
            && AppendPacket("c", OpeningHeartbeat(BecomeCandidate(s.nodes["b"])), k.log, false) in t.net
            && t.hist.leaders == s.hist.leaders + {(2, "b")} && t.hist.grants == s.hist.grants + {("b", 2, "b"), ("c", 2, "b")}
            && t.hist.counted == s.hist.counted[("b", 2) := Tally(s.hist, "b", 2) + [("c", 2)]]
            && 2 in t.hist.leaderLog && t.hist.leaderLog[2] == log + [NoOp(2)]
  {
    hide Next, After, Listener, VoteRequestOf, Crowned, GrantsVote, Voted, Wins, BecomeCandidate, Fed, Bid,
         Tally, Successor, OpeningHeartbeat;
    var c := Succeed(log);
    AfterThree(s, c[0], c[1], c[2]);
    BidMade(s.nodes["b"], log, commit);
    BidGranted(log);
    FedIs(s.nodes["b"], log, commit);
    FollowerTicks(s, "b", NOW);
    var t1 := Next(s, c[0]);
    assert s.nodes["b"].peers[1] == "c";
    FollowerGrants(t1, c[1].packet, LATER);
    var t2 := Next(t1, c[1]);
    CandidateWins(t2, c[2].packet, NOW);
    assert BecomeCandidate(s.nodes["b"]).peers[1] == "c";
    SameTally(s.hist, t2.hist, "b", 2);
  }

  lemma TwoCandidacies(h: History, k: History)
    requires h.grants == {("a", 1, "a"), ("b", 1, "a")} && h.counted == map[("a", 1) := [("b", 1)]]
    requires k.grants == h.grants + {("b", 2, "b"), ("c", 2, "b")}
    requires k.counted == h.counted[("b", 2) := Tally(h, "b", 2) + [("c", 2)]]
    ensures OneVote(k) && CleanCounts(k, CLUSTER)
  {
    assert Tally(h, "b", 2) + [("c", 2)] == [("c", 2)];
  }

  // ----- what the runs do not do -----

  predicate Replies(c: Choice) {
    !c.Reboot? && EventFor(c).AppendReply?
  }

  predicate Harmless(c: Choice) {
    c.Ask? ==> c.request.Command?
  }

  /** No reply, no request with entries, no membership change. */
  predicate Plain(c: Choice) {
    !Replies(c) && !Feeds(c) && Harmless(c)
  }

  lemma WinShape()
    ensures |Win()| == 3 && forall j :: 0 <= j < 3 ==> Plain(Win()[j])
  {
  }

  lemma GreetShape()
    ensures Plain(Hello()) && !Feeds(HelloBack()) && Harmless(HelloBack())
  {
    hide Short;
  }

  lemma SucceedShape(log: seq<LogEntry>)
    ensures |Succeed(log)| == 3 && forall j :: 0 <= j < 3 ==> Plain(Succeed(log)[j])
  {
    hide Bid;
  }

  lemma CleanIfVotes(run: seq<Choice>)
    requires OneVote(After(Start(), run).hist) && CleanCounts(After(Start(), run).hist, CLUSTER)
    requires forall j :: 0 <= j < |run| ==> Harmless(run[j])
    ensures CleanRun(Start(), run, CLUSTER)
  {
    hide After, Initial, OneVote, CleanCounts, Start;
    StartIsInitial();
    StartFits();
    StartKnows();
    assert |CLUSTER| == 3;
    assert forall j :: 0 <= j < |run| ==> Harmless(run[j]);
  }

  lemma NoReplyTimely(s: System, c: Choice)
    requires !Replies(c)
    ensures Timely(s, c)
  {
  }

  /** A reply to a leader that holds entry 0 alone. */
  lemma FirstTimely(s: System, c: Choice)
    requires Target(c) in s.nodes && |s.nodes[Target(c)].log| == 1
    ensures Timely(s, c)
  {
  }

  lemma GreetTimely(run: seq<Choice>)
    requires |run| > 4 && run[..4] == Win() + [Hello()] && run[4] == HelloBack()
    ensures Timely(After(Start(), run[..4]), run[4])
  {
    hide After, Win, FirstLeader, Timely, Voter, Listener, Start;
    var s := AboutToOpen();
    OpenerFacts();
    FirstTimely(s, run[4]);
  }

  // ----- entry 0 twice -----

  lemma SecondHello()
    ensures var n := Listener().(currentTerm := 2, votedFor := "b");
            && Takes(n, HELLO_2) && n.address == "c" && n.currentTerm == 2 && n.commitIndex == -1 && n.log == []
            && Receiver(n, 2) == n && Stored(n, HELLO_2, NOW).log == []
  {
    hide Indices;
  }

  lemma SecondOpening()
    ensures OpeningHeartbeat(BecomeCandidate(Voter())) == HELLO_2
    ensures var k := Successor(Voter());
            && k.role.Leader? && !k.halted && k.address == "b" && k.currentTerm == 2 && k.peers == ["a", "c"] && k.log == [NoOp(2)]
            && k.commitIndex == -1 && k.lastApplied == -1 && k.database == map[] && Lookup(k.matchIndex, "a") == 0
  {
    hide Indices, Marked;
  }

  /** The leader of term 2 that has committed its own entry 0. */
  ghost predicate LeadsOwn(n: NodeState) {
    n.role.Leader? && !n.halted && n.address == "b" && n.currentTerm == 2 && n.commitIndex == 0 && n.log == [NoOp(2)]
  }

  lemma GreetsAgain(s: System)
    requires "b" in s.nodes && "c" in s.nodes && s.nodes["b"] == Successor(Voter())
    requires s.nodes["c"] == Listener().(currentTerm := 2, votedFor := "b")
    requires AppendPacket("c", HELLO_2, [NoOp(2)], false) in s.net && 2 in s.hist.leaderLog && (2, "b") in s.hist.leaders
    ensures var t := After(s, GreetAgain()); var u := After(s, [HelloAgain()]);
            && "b" in u.nodes && u.nodes["b"] == Successor(Voter())
            && t.nodes.Keys == s.nodes.Keys && LeadsOwn(t.nodes["b"]) && ("a" in s.nodes ==> t.nodes["a"] == s.nodes["a"])
            && t.hist == s.hist.(leaderLog := s.hist.leaderLog[2 := [NoOp(2)]])
  {
    hide Next, After, Voter, Successor, Listener, Takes, Stored, Receiver, Rewind, React, Acknowledged, SameLog;
    var c := GreetAgain();
    AfterOne(s, c[0]);
    AfterTwo(s, c[0], c[1]);
    SecondHello();
    SecondOpening();
    RequestStored(s, c[0].packet, NOW);
    OpenOutcome(Successor(Voter()), "a", 2);
    ReplyReceived(Next(s, c[0]), c[1].packet, NOW);
  }

  lemma AgainShape()
    ensures Plain(HelloAgain()) && !Feeds(HelloBackAgain()) && Harmless(HelloBackAgain())
  {
  }

  lemma TwiceParts()
    ensures After(Start(), TwiceRun()) == After(After(After(Start(), GreetedRun()), Succeed([])), GreetAgain())
    ensures After(Start(), GreetedRun() + Succeed([]) + [HelloAgain()])
         == After(After(After(Start(), GreetedRun()), Succeed([])), [HelloAgain()])
  {
    hide After, GreetedRun, Succeed, GreetAgain, Start, HelloAgain;
    AfterConcat(Start(), GreetedRun(), Succeed([]));
    AfterConcat(Start(), GreetedRun() + Succeed([]), GreetAgain());
    AfterConcat(Start(), GreetedRun() + Succeed([]), [HelloAgain()]);
  }

  lemma TwiceShape()
    ensures var run := TwiceRun();
            && |run| == 10 && run[..4] == Win() + [Hello()] && run[4] == HelloBack()
            && run[..9] == GreetedRun() + Succeed([]) + [HelloAgain()] && run[9] == HelloBackAgain()
            && forall j :: 0 <= j < 10 ==> Harmless(run[j]) && !Feeds(run[j]) && (j != 4 && j != 9 ==> !Replies(run[j]))
  {
    WinShape();
    GreetShape();
    SucceedShape([]);
    AgainShape();
    hide Win, Hello, HelloBack, Succeed, HelloAgain, HelloBackAgain, Replies, Feeds, Harmless;
  }

  lemma TwiceLed() returns (u: System, t: System)
    ensures u == After(Start(), TwiceRun()[..9]) && t == After(Start(), TwiceRun())
    ensures "b" in u.nodes && u.nodes["b"] == Successor(Voter())
    ensures t.nodes.Keys == {"a", "b", "c"} && t.nodes["a"] == Opened() && LeadsOwn(t.nodes["b"])
    ensures 2 in t.hist.leaderLog && t.hist.leaderLog[2] == [NoOp(2)]
    ensures OneVote(t.hist) && CleanCounts(t.hist, CLUSTER)
  {
    hide *;
    TwiceParts();
    TwiceShape();
    var s := OnceGreeted();
    FedVoter();
    SecondOpening();
    Succeeds(s, [], -1);
    var v := After(s, Succeed([]));
    GreetsAgain(v);
    u := After(v, [HelloAgain()]);
    t := After(v, GreetAgain());
    TwoCandidacies(s.hist, t.hist);
  }

  lemma TwiceGood()
    ensures GoodRun(Start(), TwiceRun(), CLUSTER) && AllTimely(Start(), TwiceRun()) && InOrder(Start(), TwiceRun())
  {
    hide After, TwiceRun, GreetedRun, Start, CleanRun, NoneStale, AllHonest, Timely, Voter, Opened, Successor,
         LeadsOwn, OneVote, CleanCounts, Replies, Feeds, InOrder, Win, Greet, Harmless;
    TwiceShape();
    var u, t := TwiceLed();
    var run := TwiceRun();
    CleanIfVotes(run);
    SecondOpening();
    GreetTimely(run);
    forall j | 0 <= j < |run| ensures Timely(After(Start(), run[..j]), run[j]) {
      if j == 9 {
        FirstTimely(u, run[9]);
      } else if j != 4 {
        NoReplyTimely(After(Start(), run[..j]), run[j]);
      }
    }
    TimelyRunsHonest(Start(), run, CLUSTER);
    SoleFeedInOrder(Start(), run, 0);
    OrderedRunsFresh(Start(), run, CLUSTER);
  }

  /** The commit of entry 0 in any run that starts this way. */
  lemma OpeningCommits(run: seq<Choice>)
    requires |run| > 4 && run[..4] == Win() + [Hello()] && run[4] == HelloBack()
    ensures LeaderCommits(After(Start(), run[..4]), run[4]) && Enabled(After(Start(), run[..4]), run[4]) && !run[4].Reboot?
    ensures Commitment.Committed(After(Start(), run[..4]), run[4]) == Short()
    ensures Target(run[4]) == "a" && After(Start(), run[..4]).nodes["a"].currentTerm == 1
  {
    hide After, Win, FirstLeader, Opened, Voter, Listener, Start, React;
    var s := AboutToOpen();
    OpenerFacts();
    OpenedFacts();
  }

  lemma OtherFirst()
    ensures !Contains([NoOp(2)], Short())
  {
    assert !Same(Short()[0], [NoOp(2)][0]);
  }

  /** Entry 0 is an exception: in this run, which meets every hypothesis of State Machine
      Safety, a leader commits it with nobody else holding it, the next leader does not hold
      it and commits another in its place, and both are in office with it at the end. */
  lemma EntryZeroDiffers()
    ensures GoodRun(Start(), TwiceRun(), CLUSTER) && AllTimely(Start(), TwiceRun()) && InOrder(Start(), TwiceRun())
    ensures |TwiceRun()| > 4 && LeaderCommits(After(Start(), TwiceRun()[..4]), TwiceRun()[4])
    ensures Enabled(After(Start(), TwiceRun()[..4]), TwiceRun()[4]) && !TwiceRun()[4].Reboot?
    ensures !HonestlyCounted(Start(), TwiceRun(), 4, CLUSTER)
    ensures var t := After(Start(), TwiceRun());
            && 2 in t.hist.leaderLog
            && !Contains(t.hist.leaderLog[2], Commitment.Committed(After(Start(), TwiceRun()[..4]), TwiceRun()[4]))
            && "a" in t.nodes && "b" in t.nodes && var n, k := t.nodes["a"], t.nodes["b"];
               && n.role.Leader? && !n.halted && n.commitIndex == 0 && n.log == [NoOp(1)]
               && k.role.Leader? && !k.halted && k.commitIndex == 0 && k.log == [NoOp(2)]
  {
    hide After, TwiceRun, GreetedRun, Start, GoodRun, CleanRun, NoneStale, AllTimely, InOrder, Voter, Opened,
         Successor, OneVote, CleanCounts, Replies, Feeds, Win, Greet, Harmless, LeaderCommits,
         Commitment.Committed, HonestlyCounted, React;
    TwiceGood();
    TwiceShape();
    var u, t := TwiceLed();
    OpeningCommits(TwiceRun());
    OpenedFacts();
    OtherFirst();
    GoodMeans(TwiceRun());
    LostMeansDishonest(Start(), TwiceRun(), 4, 2, CLUSTER);
  }

  lemma GoodMeans(run: seq<Choice>)
    requires GoodRun(Start(), run, CLUSTER)
    ensures CleanRun(Start(), run, CLUSTER) && NoneStale(Start(), run)
  {
    hide CleanRun, NoneStale, AllHonest;
  }

  // ----- two changes at once -----

  /** The leader of `log` whose own entry 0 is committed, with these peers. */
  ghost predicate Opens(n: NodeState, peers: seq<Address>, count: nat) {
    && n.role.Leader? && !n.halted && n.address == "a" && n.currentTerm == 1 && n.commitIndex == 0 && n.changeIndex == -1
    && n.peers == peers && |n.log| == count > 0 && n.log[0].term == 1
  }

  lemma OneMore(n: NodeState, peers: seq<Address>, count: nat, x: Address)
    requires Opens(n, peers, count) && x !in peers
    ensures ChangesCluster(n, AddServer(x)) && Rules.Ticket(n) == CheckLater(count, 1)
    ensures var (k, e) := Changed(n, AddServer(x));
            IsClusterChange(e) && Opens(k.(log := n.log + [e]), peers + [x], count + 1) && (k.(log := n.log + [e])).log == n.log + [e]
  {
    hide Indices;
  }

  lemma Grows(s: System)
    requires "a" in s.nodes && Opens(s.nodes["a"], ["b", "c"], 1)
    ensures var n := s.nodes["a"]; var k := React(n, AddServer("d"), NOW).node; var t := After(s, Grow());
            && ChangesCluster(n, AddServer("d")) && React(n, AddServer("d"), NOW).out == [Answer(CheckLater(1, 1))]
            && Opens(k, ["b", "c", "d"], 2)
            && ChangesCluster(k, AddServer("e")) && React(k, AddServer("e"), NOW).out == [Answer(CheckLater(2, 1))]
            && t.nodes == s.nodes["a" := React(k, AddServer("e"), NOW).node] && Opens(t.nodes["a"], ["b", "c", "d", "e"], 3)
            && IsClusterChange(t.nodes["a"].log[1]) && IsClusterChange(t.nodes["a"].log[2])
            && t.hist.leaders == s.hist.leaders + {(1, "a")}
  {
    hide Next, After, React, Changed, ChangesCluster;
    var c := Grow();
    AfterTwo(s, c[0], c[1]);
    var n := s.nodes["a"];
    OneMore(n, ["b", "c"], 1, "d");
    LeaderChanges(s, "a", AddServer("d"), NOW);
    var t1 := Next(s, c[0]);
    var k := t1.nodes["a"];
    assert ["b", "c"] + ["d"] == ["b", "c", "d"];
    OneMore(k, ["b", "c", "d"], 2, "e");
    LeaderChanges(t1, "a", AddServer("e"), NOW);
    assert ["b", "c", "d"] + ["e"] == ["b", "c", "d", "e"];
  }

  lemma OpenedOpens()
    ensures Opens(Opened(), ["b", "c"], 1)
  {
    hide Opened, React;
    OpenedFacts();
  }

  /** The two changes, as the steps of one node. */
  function Changing(): seq<NodeStep> {
    [Happens(AddServer("d"), NOW), Happens(AddServer("e"), NOW)]
  }

  lemma Misrecords(n: NodeState, z: NodeState, base: set<Address>)
    requires !n.halted && n.role.Leader? && ChangesCluster(n, AddServer("d"))
    requires var k := React(n, AddServer("d"), NOW).node;
             && !k.halted && k.role.Leader? && ChangesCluster(k, AddServer("e")) && z == React(k, AddServer("e"), NOW).node
    requires !z.halted && z.role.Leader?
    ensures !Chained(z.log, base)
  {
    hide React, ChangesCluster, Chained;
    var steps := Changing();
    assert At(n, steps, 0) == n && At(n, steps, 1) == React(n, AddServer("d"), NOW).node && At(n, steps, 2) == z;
    SecondChangeMisrecorded(n, steps, 0, 1, 2, base);
  }

  /** A leader with one entry committed takes two changes, one after the other, and neither is
      committed; both are in its log, and the second is misrecorded. The five servers it now
      counts and the three its peers still count have winning sets that do not meet. */
  lemma TwoChangesTaken()
    ensures Initial(Start()) && OneLeader(After(Start(), GrowingRun()).hist)
    ensures var s := After(Start(), GreetedRun()); var t := After(Start(), GrowingRun());
            && "a" in s.nodes && "a" in t.nodes && "b" in t.nodes && "c" in t.nodes
            && var n := s.nodes["a"]; var k := React(n, AddServer("d"), NOW).node; var z := t.nodes["a"];
               && React(n, AddServer("d"), NOW).out == [Answer(CheckLater(1, 1))]
               && React(k, AddServer("e"), NOW).out == [Answer(CheckLater(2, 1))]
               && z.commitIndex == 0 && |z.log| == 3 && IsClusterChange(z.log[1]) && IsClusterChange(z.log[2])
               && (forall base :: !Chained(z.log, base))
               && Quorum({"a", "d", "e"}, {"a"} + SetOf(z.peers))
               && Quorum({"b", "c"}, {"b"} + SetOf(t.nodes["b"].peers)) && Quorum({"b", "c"}, {"c"} + SetOf(t.nodes["c"].peers))
  {
    hide After, Initial, GreetedRun, Grow, Opened, Voter, Listener, React, ChangesCluster, Changed, Chained,
         SetOf, Quorum, OneLeader;
    StartIsInitial();
    var s := OnceGreeted();
    OpenedOpens();
    AfterConcat(Start(), GreetedRun(), Grow());
    Grows(s);
    var t := After(s, Grow());
    forall base ensures !Chained(t.nodes["a"].log, base) { Misrecords(s.nodes["a"], t.nodes["a"], base); }
    FollowersPeers();
    Apart();
    AloneInTerm(t.hist);
  }

  lemma FollowersPeers()
    ensures Voter().peers == ["a", "c"] && Listener().peers == ["a", "b"]
  {
    hide Indices;
  }

  lemma AloneInTerm(h: History)
    requires h.leaders == {(1, "a")} + {(1, "a")}
    ensures OneLeader(h)
  {
  }

  lemma Apart()
    ensures Quorum({"a", "d", "e"}, {"a"} + SetOf(["b", "c", "d", "e"]))
    ensures Quorum({"b", "c"}, {"b"} + SetOf(["a", "c"])) && Quorum({"b", "c"}, {"c"} + SetOf(["a", "b"]))
  {
    hide SetOf, Quorum;
    SetOfTwo("a", "c");
    SetOfTwo("a", "b");
    SetOfTwo("b", "c");
    SetOfTwo("d", "e");
    assert ["b", "c", "d", "e"] == ["b", "c"] + ["d", "e"];
    SetOfConcat(["b", "c"], ["d", "e"]);
    assert {"a"} + ({"b", "c"} + {"d", "e"}) == {"a", "b", "c", "d", "e"};
    assert {"b"} + {"a", "c"} == {"a", "b", "c"} && {"c"} + {"a", "b"} == {"a", "b", "c"};
    FiveServers();
    ThreeServers();
  }

  lemma FiveServers()
    ensures Quorum({"a", "d", "e"}, {"a", "b", "c", "d", "e"})
  {
    assert |{"a", "d", "e"}| == 3 && |{"a", "b", "c", "d", "e"}| == 5;
  }

  lemma ThreeServers()
    ensures Quorum({"b", "c"}, {"a", "b", "c"})
  {
    assert |{"b", "c"}| == 2 && |{"a", "b", "c"}| == 3;
  }

  lemma SetOfTwo(x: Address, y: Address)
    ensures SetOf([x, y]) == {x, y}
  {
    assert [x, y] == [x] + [y];
    SetOfConcat([x], [y]);
    SetOfOne(x);
    SetOfOne(y);
  }
}
