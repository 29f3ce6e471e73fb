/** Two runs in which the opening heartbeat is answered, a command is committed and a new
    leader is elected. The first meets every hypothesis of State Machine Safety, and the new
    leader holds the command. In the second a request arrives late and cuts the command off
    again, which is the one hypothesis it does not meet, and the new leader does not hold the
    command. */
module HonestCommit {
  import opened Types
  import opened Rules
  import opened Interpreter
  import opened Reactions
  import opened Effects
  import opened Applying
  import opened Outcomes
  import opened KeyValue
  import opened Network
  import opened Elections
  import opened Completeness
  import opened Commitment
  import opened MachineSafety
  import opened Delivery
  import opened Acknowledgement
  import opened Steps
  import opened TwoLeaders
  import opened LostCommit
  import opened FirstCommit

  function Full(): seq<LogEntry> {
    [NoOp(1), Asked(1, X)]
  }

  /** What the leader of term 1 sends to "b" when it holds `log`. */
  function Feed(log: seq<LogEntry>): AppendRequest {
    AppendRequest(1, "a", -1, -1, log, 0)
  }

  // ----- the runs, in parts -----

  /** The leader feeds "b", takes a command, and feeds "b" again; the second request arrives. */
  function Serve(): seq<Choice> {
    [Tick("a", NOW), Ask("a", Command(X), NOW), Tick("a", NOW), Deliver(AppendPacket("b", Feed(Full()), Full(), true), NOW)]
  }

  /** The answer commits the command. */
  function Count(): Choice {
    Deliver(AppendAnswerPacket("a", AppendAnswer("b", true, 1), Feed(Full()), Full(), true, Full()), NOW)
  }

  /** The first request arrives after all. */
  function Lag(): Choice { Deliver(AppendPacket("b", Feed(Short()), Short(), true), NOW) }

  function BeforeCount(): seq<Choice> {
    GreetedRun() + Serve()
  }

  function Served(): seq<Choice> {
    BeforeCount() + [Count()]
  }

  function ServingRun(): seq<Choice> {
    Served() + Succeed(Full())
  }

  function LaggingRun(): seq<Choice> {
    Served() + [Lag()] + Succeed(Short())
  }

  // ----- serving -----

  function Server(): NodeState { Opened().(log := Full()) }

  lemma ServerFacts()
    ensures var n := Opened();
            && n.role.Leader? && !n.halted && n.address == "a" && n.currentTerm == 1 && n.peers == ["b", "c"] && n.log == Short()
            && !TimeoutCrashes(n) && Lookup(n.nextIndex, "b") == 0 && RequestFor(n, 0) == Feed(Short())
            && n.(log := n.log + [CommandEntryOf(n, X)]) == Server()
    ensures var k := Server();
            && k.role.Leader? && !k.halted && k.address == "a" && k.currentTerm == 1 && k.peers == ["b", "c"] && k.log == Full()
            && k.commitIndex == 0 && k.lastApplied == 0 && k.database == map[] && Lookup(k.matchIndex, "c") == 0
            && !TimeoutCrashes(k) && Lookup(k.nextIndex, "b") == 0 && RequestFor(k, 0) == Feed(Full())
  {
    hide Opened, React, Marked, FirstLeader;
    OpenedFacts();
    assert forall i :: 0 <= i < 2 ==> ["b", "c"][i] == "b" || ["b", "c"][i] == "c";
  }

  lemma FeedStored(n: NodeState, had: seq<LogEntry>, commit: int, log: seq<LogEntry>)
    requires Fed(n, had, commit) && (log == Short() || log == Full()) && -1 <= commit <= 0
    ensures Takes(n, Feed(log)) && Receiver(n, 1) == n && Rewind(n.log, -1, Recorded(n)).Rewound?
    ensures var st := Stored(n, Feed(log), NOW);
            Fed(if 0 <= commit then st else st.(commitIndex := Min(0, -1 + |log|)), log, 0)
  {
    hide Indices;
    assert LastChange(log) == -1;
  }

  lemma FeedIs(log: seq<LogEntry>)
    ensures var m := Feed(log); m.term == 1 && m.commit == 0 && m.prevIndex == -1 && m.leader == "a" && m.entries == log
  {
  }

  /** Up to where "b" has taken nothing yet. */
  lemma Sends(s: System)
    requires "a" in s.nodes && s.nodes["a"] == Opened() && s.hist.leaders == {(1, "a")}
    ensures var t := After(s, Serve()[..3]);
            && t.nodes == s.nodes["a" := Server()]
            && AppendPacket("b", Feed(Short()), Short(), true) in t.net && AppendPacket("b", Feed(Full()), Full(), true) in t.net
            && t.hist.leaders == s.hist.leaders && t.hist.grants == s.hist.grants && t.hist.counted == s.hist.counted
  {
    hide Next, After, Opened, Server, CommandEntryOf, Feed, Full, Short, RequestFor, TimeoutCrashes;
    var c := Serve();
    assert c[..3] == [c[0], c[1], c[2]];
    AfterThree(s, c[0], c[1], c[2]);
    ServerFacts();
    LeaderTicks(s, "a", NOW);
    assert Opened().peers[0] == "b";
    var t1 := Next(s, c[0]);
    LeaderAsked(t1, "a", X, NOW);
    LeaderTicks(Next(t1, c[1]), "a", NOW);
    assert Server().peers[0] == "b";
  }

  lemma Serves(s: System)
    requires "a" in s.nodes && "b" in s.nodes && s.nodes["a"] == Opened() && s.nodes["b"] == Voter()
    requires s.hist.leaders == {(1, "a")}
    ensures var t := After(s, Serve());
            && "a" in t.nodes && "b" in t.nodes && t.nodes == s.nodes["a" := Server()]["b" := t.nodes["b"]] && Fed(t.nodes["b"], Full(), 0)
            && Count().packet in t.net && AppendPacket("b", Feed(Short()), Short(), true) in t.net
            && t.hist.leaders == s.hist.leaders && t.hist.grants == s.hist.grants && t.hist.counted == s.hist.counted
  {
    hide Next, After, Opened, Server, Voter, Takes, Stored, Receiver, Rewind, Fed, Feed, Full, Short;
    var c := Serve();
    assert c == c[..3] + [c[3]];
    AfterConcat(s, c[..3], [c[3]]);
    Sends(s);
    var t := After(s, c[..3]);
    AfterOne(t, c[3]);
    FedVoter();
    FedIs(Voter(), [], -1);
    FeedIs(Full());
    FeedStored(Voter(), [], -1, Full());
    RequestStored(t, c[3].packet, NOW);
    FedIs(Next(t, c[3]).nodes["b"], Full(), 0);
  }

  // ----- committing -----

  lemma CommitsBoth(n: NodeState)
    requires n.peers == ["b", "c"] && n.currentTerm == 1 && n.commitIndex == 0 && n.log == Full()
    ensures NewCommit(n, "b") == 1
  {
    assert Committable(n, "b", 1);
    assert Scan(n, "b", 2, 1) == 1;
    assert Scan(n, "b", 1, 0) == 1;
  }

  /** What the answer of "b" does to the leader. */
  lemma CountOutcome(n: NodeState)
    requires n.role.Leader? && !n.halted && n.peers == ["b", "c"] && n.currentTerm == 1 && n.log == Full()
    requires n.commitIndex == 0 && n.lastApplied == 0 && n.database == map[]
    ensures var k := React(n, AppendReply(AppendAnswer("b", true, 1)), NOW).node;
            && k.role.Leader? && !k.halted && k.commitIndex == 1 && SameLog(Full(), k.log) && k.database == map["x" := "1"]
  {
    hide React, SameLog, NewCommit, Before, Decodable, ResultsIn;
    CommitsBoth(n);
    FullRun();
    LeaderApplies(n, AppendAnswer("b", true, 1), NOW);
    AcknowledgedRun(n, AppendAnswer("b", true, 1), Acknowledged(n, AppendAnswer("b", true, 1)), NOW);
    AppendReplyOutcome(n, AppendAnswer("b", true, 1), NOW);
  }

  lemma FullRun()
    ensures Decodable(Full(), 1, 2) && Before(map[], Full(), 1, 2) == map["x" := "1"]
  {
    assert Commands(Full(), 2, 2) == [];
    assert Commands(Full(), 1, 2) == [MachineCommand("write", "x", "1")];
    assert Fold(map["x" := "1"], []) == map["x" := "1"];
  }

  lemma CountEvent()
    ensures Target(Count()) == "a" && EventFor(Count()) == AppendReply(AppendAnswer("b", true, 1))
    ensures !Count().Reboot? && Count().Deliver? && Count().now == NOW && Count().packet.AppendAnswerPacket?
    ensures Count().packet.dest == "a" && Count().packet.ack == AppendAnswer("b", true, 1)
  {
    hide Feed, Full;
  }

  /** The leader commits the command, on the word of "b" alone. */
  lemma CountCommits(s: System)
    requires "a" in s.nodes && s.nodes["a"] == Server() && Count().packet in s.net
    ensures LeaderCommits(s, Count()) && Commitment.Committed(s, Count()) == Full()
    ensures React(s.nodes["a"], EventFor(Count()), NOW).node.commitIndex == 1
  {
    hide React, Server, SameLog, Feed, Count, Full, Short, Opened, NewCommit;
    CountEvent();
    ServerFacts();
    CountOutcome(Server());
    FullIsTwo();
  }

  lemma CountRun(s: System)
    requires "a" in s.nodes && s.nodes["a"] == Server() && s.hist.leaders == {(1, "a")} && Count().packet in s.net
    ensures var t := After(s, [Count()]);
            && t.nodes == s.nodes["a" := React(Server(), AppendReply(AppendAnswer("b", true, 1)), NOW).node] && s.net <= t.net
            && t.hist.leaders == s.hist.leaders && t.hist.grants == s.hist.grants && t.hist.counted == s.hist.counted
  {
    hide *;
    AfterOne(s, Count());
    CountEvent();
    ServerFacts();
    ReplyReceived(s, Count().packet, NOW);
  }

  // ----- the stages -----

  lemma Parts()
    ensures After(Start(), BeforeCount()) == After(After(Start(), GreetedRun()), Serve())
    ensures After(Start(), Served()) == After(After(Start(), BeforeCount()), [Count()])
    ensures After(Start(), ServingRun()) == After(After(Start(), Served()), Succeed(Full()))
    ensures After(Start(), LaggingRun()) == After(After(After(Start(), Served()), [Lag()]), Succeed(Short()))
  {
    hide After, GreetedRun, Serve, Count, Lag, Succeed, Full, Short;
    AfterConcat(Start(), GreetedRun(), Serve());
    AfterConcat(Start(), BeforeCount(), [Count()]);
    AfterConcat(Start(), Served(), Succeed(Full()));
    AfterConcat(Start(), Served(), [Lag()]);
    AfterConcat(Start(), Served() + [Lag()], Succeed(Short()));
  }

  lemma OtherShapes()
    ensures |Serve()| == 4 && forall j :: 0 <= j < 4 ==> !Replies(Serve()[j]) && Harmless(Serve()[j]) && (j < 3 ==> !Feeds(Serve()[j]))
    ensures Harmless(Count()) && !Feeds(Count())
    ensures Harmless(Lag()) && !Replies(Lag())
  {
    hide Full, Short, Feed;
  }

  /** A run that starts by serving and counting. */
  predicate Serving(run: seq<Choice>) {
    && |run| > 9 && run[..4] == Win() + [Hello()] && run[4] == HelloBack()
    && run[..9] == BeforeCount() && run[9] == Count()
  }

  /** What the two runs share, and what sets the first apart. */
  lemma Shapes()
    ensures Serving(ServingRun()) && Serving(LaggingRun()) && |ServingRun()| == 13 && |LaggingRun()| == 14
    ensures forall j :: 0 <= j < 13 ==> Harmless(ServingRun()[j]) && (j != 4 && j != 9 ==> !Replies(ServingRun()[j]))
                                        && (Feeds(ServingRun()[j]) ==> j == 8)
    ensures forall j :: 0 <= j < 14 ==> Harmless(LaggingRun()[j]) && (j != 4 && j != 9 ==> !Replies(LaggingRun()[j]))
  {
    WinShape();
    GreetShape();
    OtherShapes();
    SucceedShape(Full());
    SucceedShape(Short());
    hide Win, Hello, HelloBack, Serve, Count, Lag, Succeed, Full, Short, Harmless, Replies, Feeds;
    assert ServingRun() == Win() + (Greet() + Serve() + [Count()] + Succeed(Full()));
    assert ServingRun() == BeforeCount() + ([Count()] + Succeed(Full()));
    assert LaggingRun() == Win() + (Greet() + Serve() + [Count()] + [Lag()] + Succeed(Short()));
    assert LaggingRun() == BeforeCount() + ([Count()] + [Lag()] + Succeed(Short()));
  }

  lemma AboutToCount() returns (s: System)
    ensures s == After(Start(), BeforeCount())
    ensures s.nodes.Keys == {"a", "b", "c"} && s.nodes["a"] == Server() && Fed(s.nodes["b"], Full(), 0)
    ensures s.nodes["c"] == Listener()
    ensures Count().packet in s.net && AppendPacket("b", Feed(Short()), Short(), true) in s.net
    ensures s.hist.leaders == {(1, "a")} && s.hist.grants == {("a", 1, "a"), ("b", 1, "a")}
    ensures s.hist.counted == map[("a", 1) := [("b", 1)]]
  {
    hide *;
    Parts();
    CountEvent();
    var t := OnceGreeted();
    Serves(t);
    s := After(t, Serve());
  }

  /** The command is committed: the leader's state and everybody else's. */
  lemma JustCommitted() returns (s: System)
    ensures s == After(Start(), Served())
    ensures s.nodes.Keys == {"a", "b", "c"} && Fed(s.nodes["b"], Full(), 0) && s.nodes["c"] == Listener()
    ensures s.nodes["a"] == React(Server(), AppendReply(AppendAnswer("b", true, 1)), NOW).node
    ensures AppendPacket("b", Feed(Short()), Short(), true) in s.net
    ensures s.hist.leaders == {(1, "a")} && s.hist.grants == {("a", 1, "a"), ("b", 1, "a")}
    ensures s.hist.counted == map[("a", 1) := [("b", 1)]]
  {
    hide *;
    Parts();
    var t := AboutToCount();
    CountRun(t);
    s := After(t, [Count()]);
  }

  /** The end of the first run. */
  lemma Succeeded() returns (t: System)
    ensures t == After(Start(), ServingRun()) && OneVote(t.hist) && CleanCounts(t.hist, CLUSTER)
    ensures 2 in t.hist.leaderLog && t.hist.leaderLog[2] == Full() + [NoOp(2)]
    ensures "a" in t.nodes && t.nodes["a"] == React(Server(), AppendReply(AppendAnswer("b", true, 1)), NOW).node
  {
    hide *;
    Parts();
    var s := JustCommitted();
    FullEnds();
    Succeeds(s, Full(), 0);
    t := After(s, Succeed(Full()));
    TwoCandidacies(s.hist, t.hist);
  }

  lemma FullEnds()
    ensures Full()[|Full()| - 1].term == 1 && |Full()| > 0 && Short()[|Short()| - 1].term == 1 && |Short()| > 0
  {
  }

  lemma Lags(s: System)
    requires "b" in s.nodes && Fed(s.nodes["b"], Full(), 0) && AppendPacket("b", Feed(Short()), Short(), true) in s.net
    ensures var t := After(s, [Lag()]);
            "b" in t.nodes && t.nodes == s.nodes["b" := t.nodes["b"]] && Fed(t.nodes["b"], Short(), 0) && t.hist == s.hist
  {
    hide Next, After, Fed, Feed, Full, Short, Takes, Stored, Receiver, Rewind;
    var c := Lag();
    AfterOne(s, c);
    FedIs(s.nodes["b"], Full(), 0);
    FeedIs(Short());
    FeedStored(s.nodes["b"], Full(), 0, Short());
    RequestStored(s, c.packet, NOW);
  }

  lemma Lagged() returns (s: System)
    ensures s == After(After(Start(), Served()), [Lag()])
    ensures s.nodes.Keys == {"a", "b", "c"} && Fed(s.nodes["b"], Short(), 0) && s.nodes["c"] == Listener()
    ensures s.hist.grants == {("a", 1, "a"), ("b", 1, "a")} && s.hist.counted == map[("a", 1) := [("b", 1)]]
  {
    hide *;
    var t := JustCommitted();
    Lags(t);
    s := After(t, [Lag()]);
  }

  /** The end of the second run. */
  lemma Usurped() returns (t: System)
    ensures t == After(Start(), LaggingRun()) && OneVote(t.hist) && CleanCounts(t.hist, CLUSTER)
    ensures 2 in t.hist.leaderLog && t.hist.leaderLog[2] == Short() + [NoOp(2)]
  {
    hide *;
    Parts();
    var s := Lagged();
    FullEnds();
    Succeeds(s, Short(), 0);
    t := After(s, Succeed(Short()));
    TwoCandidacies(s.hist, t.hist);
  }

  // ----- the hypotheses -----

  lemma ServingMeans(run: seq<Choice>)
    requires Serving(run)
    ensures |run| > 9 && run[..4] == Win() + [Hello()] && run[4] == HelloBack()
    ensures run[..9] == BeforeCount() && run[9] == Count()
  {
    GreetShape();
  }

  /** The commit at step 9. */
  lemma CountStands(run: seq<Choice>)
    requires Serving(run)
    ensures LeaderCommits(After(Start(), run[..9]), run[9]) && Target(run[9]) == "a"
    ensures Enabled(After(Start(), run[..9]), run[9]) && !run[9].Reboot?
    ensures Commitment.Committed(After(Start(), run[..9]), run[9]) == Full()
    ensures After(Start(), run[..9]).nodes["a"].currentTerm == 1
  {
    hide *;
    ServingMeans(run);
    var s := AboutToCount();
    CountEvent();
    CountCommits(s);
    ServerFacts();
    CommitStep(s, run[9]);
  }

  /** Any run that commits this way, and otherwise hears no answers, counts only timely
      replies, and so counts honestly. */
  lemma TimelyIfServed(run: seq<Choice>)
    requires CleanRun(Start(), run, CLUSTER) && Serving(run)
    requires forall j :: 0 <= j < |run| && j != 4 && j != 9 ==> !Replies(run[j])
    ensures AllTimely(Start(), run) && AllHonest(Start(), run, CLUSTER)
  {
    hide After, BeforeCount, Start, Win, Greet, Count, Timely, Replies, CleanRun, Serving, AllHonest;
    ServingMeans(run);
    GreetTimely(run);
    CountTimely(run);
    forall j | 0 <= j < |run| ensures Timely(After(Start(), run[..j]), run[j]) {
      if j != 4 && j != 9 { NoReplyTimely(After(Start(), run[..j]), run[j]); }
    }
    TimelyRunsHonest(Start(), run, CLUSTER);
  }

  lemma CountTimely(run: seq<Choice>)
    requires Serving(run)
    ensures Timely(After(Start(), run[..9]), run[9])
  {
    hide *;
    ServingMeans(run);
    var s := AboutToCount();
    CountEvent();
    CountInTime(s);
  }

  lemma CountInTime(s: System)
    requires "a" in s.nodes && s.nodes["a"] == Server() && Target(Count()) == "a"
    ensures Timely(s, Count())
  {
    hide React, Server, Full;
    ServerFacts();
    assert Server().log == Full();
  }

  // ----- the results -----

  ghost predicate CommitsAt(s: System, run: seq<Choice>, j: nat) {
    j < |run| && LeaderCommits(After(s, run[..j]), run[j])
  }

  /** All hypotheses of State Machine Safety are met by a run whose leader commits entry 0 on
      the answer to its opening heartbeat, then commits a command, and is followed by another
      leader, which holds the command. */
  lemma GoodRunCommits()
    ensures GoodRun(Start(), ServingRun(), CLUSTER) && AllTimely(Start(), ServingRun()) && InOrder(Start(), ServingRun())
    ensures CommitsAt(Start(), ServingRun(), 4) && CommitsAt(Start(), ServingRun(), 9)
    ensures var t := After(Start(), ServingRun());
            && 2 in t.hist.leaderLog && Contains(t.hist.leaderLog[2], Full())
            && "a" in t.nodes && var n := t.nodes["a"];
               n.role.Leader? && !n.halted && n.commitIndex == 1 && SameLog(Full(), n.log) && n.database == map["x" := "1"]
  {
    hide After, CleanRun, NoneStale, AllHonest, AllTimely, InOrder, ServingRun, LaggingRun, Serving, Start,
         OneVote, CleanCounts, React, Server, Full, Feed, BeforeCount, Win, Greet, Count, SameLog, Feeds,
         Replies, Harmless, LeaderCommits, Commitment.Committed;
    Shapes();
    var t := Succeeded();
    CleanIfVotes(ServingRun());
    SoleFeedInOrder(Start(), ServingRun(), 8);
    OrderedRunsFresh(Start(), ServingRun(), CLUSTER);
    TimelyIfServed(ServingRun());
    ServingMeans(ServingRun());
    OpeningCommits(ServingRun());
    CountStands(ServingRun());
    CommittedTheCommand();
    Extended(Full(), NoOp(2));
  }

  lemma CommittedTheCommand()
    ensures var n := React(Server(), AppendReply(AppendAnswer("b", true, 1)), NOW).node;
            n.role.Leader? && !n.halted && n.commitIndex == 1 && SameLog(Full(), n.log) && n.database == map["x" := "1"]
  {
    hide React, Server, Full, Feed, SameLog;
    ServerFacts();
    CountOutcome(Server());
  }

  lemma Extended(p: seq<LogEntry>, e: LogEntry)
    ensures Contains(p + [e], p)
  {
  }

  /** No stale truncation is what Leader Completeness cannot do without, either: this run meets
      all other hypotheses, and the honest commit it makes is not in the next leader's log. */
  lemma FreshnessNeeded()
    ensures CleanRun(Start(), LaggingRun(), CLUSTER) && !NoneStale(Start(), LaggingRun()) && !InOrder(Start(), LaggingRun())
    ensures AllTimely(Start(), LaggingRun()) && AllHonest(Start(), LaggingRun(), CLUSTER)
    ensures |LaggingRun()| > 9 && LeaderCommits(After(Start(), LaggingRun()[..9]), LaggingRun()[9])
    ensures var t := After(Start(), LaggingRun());
            && 2 in t.hist.leaderLog
            && !Contains(t.hist.leaderLog[2], Commitment.Committed(After(Start(), LaggingRun()[..9]), LaggingRun()[9]))
  {
    hide *;
    Shapes();
    ServingMeans(LaggingRun());
    var t := Usurped();
    CleanIfVotes(LaggingRun());
    TimelyIfServed(LaggingRun());
    CountStands(LaggingRun());
    CutOffAgain(t.hist.leaderLog[2]);
    if NoneStale(Start(), LaggingRun()) {
      KeptAnyway();
      assert false;
    }
    if InOrder(Start(), LaggingRun()) {
      OrderedRunsFresh(Start(), LaggingRun(), CLUSTER);
      assert false;
    }
  }

  lemma CutOffAgain(log: seq<LogEntry>)
    requires log == Short() + [NoOp(2)]
    ensures !Contains(log, Full())
  {
    assert !Same(Full()[1], log[1]);
  }

  /** Without the late request the commit would have been kept. */
  lemma KeptAnyway()
    requires NoneStale(Start(), LaggingRun())
    ensures var logs := After(Start(), LaggingRun()).hist.leaderLog; 2 in logs ==> Contains(logs[2], Full())
  {
    hide *;
    Shapes();
    ServingMeans(LaggingRun());
    var t := Usurped();
    CleanIfVotes(LaggingRun());
    TimelyIfServed(LaggingRun());
    CountStands(LaggingRun());
    FullIsTwo();
    HonestNine(LaggingRun());
    LeaderCompleteness(Start(), LaggingRun(), 9, CLUSTER);
  }

  lemma FullIsTwo()
    ensures |Full()| == 2 && Full()[..2] == Full()
  {
  }

  lemma HonestNine(run: seq<Choice>)
    requires AllHonest(Start(), run, CLUSTER) && |run| > 9 && LeaderCommits(After(Start(), run[..9]), run[9])
    requires Enabled(After(Start(), run[..9]), run[9]) && !run[9].Reboot?
    requires |Commitment.Committed(After(Start(), run[..9]), run[9])| == 2
    ensures HonestlyCounted(Start(), run, 9, CLUSTER)
  {
    hide HonestlyCounted, After, Start, LeaderCommits, Commitment.Committed;
    assert CommitsMore(After(Start(), run[..9]), run[9]);
  }
}
