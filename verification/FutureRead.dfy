/** A run that meets every hypothesis of State Machine Safety, and in which two leaders answer
    the same read differently: the second finds a write that comes after the read in the log,
    because it had applied that write as a follower, without keeping track. */
module FutureRead {
  import opened Types
  import opened Rules
  import opened Interpreter
  import opened Reactions
  import opened Effects
  import opened Applying
  import opened Outcomes
  import opened KeyValue
  import opened Network
  import opened Elections
  import opened Completeness
  import opened MachineSafety
  import opened Delivery
  import opened Acknowledgement
  import opened Steps
  import opened TwoLeaders
  import opened LostCommit
  import opened FirstCommit

  const R: Payload := Machine(MachineCommand("read", "x", ""))

  /** A read of "x", a write to it, and another command. */
  function Book(): seq<LogEntry> {
    [NoOp(1), Asked(1, R), Asked(1, X), Asked(1, Y)]
  }

  const FEED_1: AppendRequest := AppendRequest(1, "a", -1, -1, [NoOp(1), Asked(1, R), Asked(1, X), Asked(1, Y)], -1)
  const BEAT_1: AppendRequest := AppendRequest(1, "a", 3, 1, [], 3)
  const FEED_2: AppendRequest := AppendRequest(2, "b", 3, 1, [NoOp(2)], 3)

  // ----- the run, in parts -----

  /** The leader of term 1 takes the three commands and feeds both peers. */
  function Fill(): seq<Choice> {
    [Ask("a", Command(R), NOW), Ask("a", Command(X), NOW), Ask("a", Command(Y), NOW), Tick("a", NOW)]
  }

  function FeedB(): Choice { Deliver(AppendPacket("b", FEED_1, Book(), true), NOW) }

  function FeedC(): Choice { Deliver(AppendPacket("c", FEED_1, Book(), true), NOW) }

  function Confirm(): Choice {
    Deliver(AppendAnswerPacket("a", AppendAnswer("b", true, 1), FEED_1, Book(), true, Book()), NOW)
  }

  /** It tells "b" what is committed, and "b" applies the read and the write. */
  function Beat(): Choice { Deliver(AppendPacket("b", BEAT_1, Done(), true), NOW) }

  /** The log with the results of its first three entries. */
  function Walked(): seq<LogEntry> {
    [NoOp(1), Asked(1, R), Asked(1, X).(result := "1"), Asked(1, Y)]
  }

  /** And with all of them. */
  function Done(): seq<LogEntry> {
    [NoOp(1), Asked(1, R), Asked(1, X).(result := "1"), Asked(1, Y).(result := "2")]
  }

  /** "b" wins term 2 on the vote of "c", and feeds it. */
  function Usurp(): seq<Choice> {
    [Tick("b", NOW), Deliver(VotePacket("c", Bid(Walked()), Walked()), LATER),
     Deliver(VoteAnswerPacket("b", VoteAnswer("c", true, 1), Bid(Walked()), "c"), NOW)]
  }

  function HandOn(): Choice { Deliver(AppendPacket("c", FEED_2, Walked() + [NoOp(2)], true), NOW) }

  /** The answer makes "b" commit its no-operation entry, and apply everything. */
  function Finish(): Choice {
    Deliver(AppendAnswerPacket("b", AppendAnswer("c", true, 2), FEED_2, Walked() + [NoOp(2)], true, Walked() + [NoOp(2)]), NOW)
  }

  // ----- the first leader -----

  function Holder(): NodeState { FirstLeader().(log := Book()) }

  lemma HolderFacts()
    ensures var n := Holder();
            && n.role.Leader? && !n.halted && n.address == "a" && n.currentTerm == 1 && n.peers == ["b", "c"] && n.log == Book()
            && n.commitIndex == -1 && n.lastApplied == -1 && n.database == map[] && n.changeIndex == -1
            && Lookup(n.nextIndex, "b") == 0 && Lookup(n.nextIndex, "c") == 0
            && !TimeoutCrashes(n) && RequestFor(n, 0) == FEED_1
  {
    hide Indices, Marked;
  }

  lemma Filling()
    ensures var n := FirstLeader(); n.role.Leader? && !n.halted && n.address == "a" && n.currentTerm == 1
    ensures var n1 := FirstLeader().(log := FirstLeader().log + [CommandEntryOf(FirstLeader(), R)]);
            && n1.role.Leader? && !n1.halted && n1.address == "a" && n1.currentTerm == 1
            && var n2 := n1.(log := n1.log + [CommandEntryOf(n1, X)]);
               && n2.role.Leader? && !n2.halted && n2.address == "a" && n2.currentTerm == 1
               && n2.(log := n2.log + [CommandEntryOf(n2, Y)]) == Holder()
  {
    hide Indices, Marked;
  }

  lemma Fills(s: System)
    requires "a" in s.nodes && s.nodes["a"] == FirstLeader() && s.hist.leaders == {(1, "a")}
    ensures var t := After(s, Fill());
            && t.nodes == s.nodes["a" := Holder()] && FeedB().packet in t.net && FeedC().packet in t.net
            && t.hist.leaders == s.hist.leaders && t.hist.grants == s.hist.grants && t.hist.counted == s.hist.counted
  {
    hide Next, After, FirstLeader, Holder, CommandEntryOf, Book, RequestFor, TimeoutCrashes;
    var c := Fill();
    assert c == [c[0], c[1], c[2]] + [c[3]];
    AfterConcat(s, [c[0], c[1], c[2]], [c[3]]);
    AfterThree(s, c[0], c[1], c[2]);
    Filling();
    HolderFacts();
    LeaderAsked(s, "a", R, NOW);
    var t1 := Next(s, c[0]);
    LeaderAsked(t1, "a", X, NOW);
    var t2 := Next(t1, c[1]);
    LeaderAsked(t2, "a", Y, NOW);
    var t3 := Next(t2, c[2]);
    AfterOne(t3, c[3]);
    LeaderTicks(t3, "a", NOW);
    assert Holder().peers[0] == "b" && Holder().peers[1] == "c";
  }

  lemma CommitsBook(n: NodeState)
    requires n.peers == ["b", "c"] && n.currentTerm == 1 && n.commitIndex == -1 && n.log == Book()
    ensures NewCommit(n, "b") == 3
  {
    assert Committable(n, "b", 3);
    assert Scan(n, "b", 4, 3) == 3;
    assert forall best :: Scan(n, "b", 3, best) == 3;
    assert forall best :: Scan(n, "b", 2, best) == 3;
    assert forall best :: Scan(n, "b", 1, best) == 3;
    assert Scan(n, "b", 0, -1) == Scan(n, "b", 1, if Committable(n, "b", 0) then 0 else -1);
  }

  /** What the log makes of a database. */
  lemma BookRuns(log: seq<LogEntry>)
    requires log == Book()
    ensures Decodable(log, 0, 4) && Decodable(log, 0, 3)
    ensures forall db: Database :: Before(db, log, 0, 1) == db
    ensures Before(map[], log, 0, 3) == map["x" := "1"]
    ensures log[1].kind == CommandEntry && log[1].payload == R && log[1].term == 1 && log[3].term == 1 && |log| == 4
  {
    assert Commands(log, 1, 1) == [] && Commands(log, 0, 1) == [];
    assert Commands(log, 3, 3) == [];
    assert Commands(log, 2, 3) == [MachineCommand("write", "x", "1")];
    assert Commands(log, 1, 3) == [MachineCommand("read", "x", ""), MachineCommand("write", "x", "1")];
    assert Commands(log, 0, 3) == Commands(log, 1, 3);
    assert Fold(map[], [MachineCommand("read", "x", ""), MachineCommand("write", "x", "1")])
        == Fold(map[], [MachineCommand("write", "x", "1")]);
    assert Fold(map["x" := "1"], []) == map["x" := "1"];
  }

  /** The first leader in the end: the read has been answered with nothing. */
  ghost predicate AnsweredEmpty(n: NodeState) {
    && n.role.Leader? && !n.halted && n.address == "a" && n.currentTerm == 1 && n.peers == ["b", "c"]
    && n.commitIndex == 3 && n.lastApplied == 3 && n.log == Done()
    && Lookup(n.nextIndex, "b") == 4 && Lookup(n.nextIndex, "c") == 0
  }

  lemma ConfirmOutcome(n: NodeState)
    requires n.role.Leader? && !n.halted && n.address == "a" && n.peers == ["b", "c"] && n.currentTerm == 1 && n.log == Book()
    requires n.commitIndex == -1 && n.lastApplied == -1 && n.database == map[] && Lookup(n.nextIndex, "c") == 0
    ensures AnsweredEmpty(React(n, AppendReply(AppendAnswer("b", true, 1)), NOW).node)
  {
    hide React, NewCommit, Before, Decodable, Book, Done, SameLog;
    var r := AppendAnswer("b", true, 1);
    CommitsBook(n);
    BookRuns(Book());
    LeaderApplies(n, r, NOW);
    AppendReplyOutcome(n, r, NOW);
    AcknowledgedRun(n, r, Acknowledged(n, r), NOW);
    var k := React(n, AppendReply(r), NOW).node;
    AllRun(Acknowledged(n, r), k);
  }

  /** Applying all four entries. */
  lemma AllRun(n: NodeState, k: NodeState)
    requires n.log == Book() && n.database == map[] && AppliedRange(n, k, 0, 4)
    ensures k.log == Done()
  {
    hide Before, Book;
    BookRuns(n.log);
    BookIs();
    assert k.log[1] == n.log[1].(result := Result(Before(n.database, n.log, 0, 1), CommandOf(n.log[1].payload).value));
    EmptyRead(n.log[1]);
    OwnValues(map[], map["x" := "1"]);
  }

  lemma BookIs()
    ensures |Book()| == 4 && Book()[0] == NoOp(1) && Book()[1] == Asked(1, R) && Book()[2] == Asked(1, X)
    ensures Book()[3] == Asked(1, Y)
  {
  }

  lemma OwnValues(a: Database, b: Database)
    ensures forall db: Database :: Result(db, CommandOf(X).value) == "1" && Result(db, CommandOf(Y).value) == "2"
    ensures CommandOf(X).Some? && CommandOf(Y).Some?
  {
  }

  /** Applying the first three of `Book` and whatever follows it. */
  lemma ThreeRun(n: NodeState, k: NodeState, rest: seq<LogEntry>)
    requires n.log == Book() + rest && n.database == map[] && AppliedRange(n, k, 0, 3)
    ensures k.log == Walked() + rest && k.database == map["x" := "1"]
  {
    hide Before;
    BookRuns(Book());
    SameCommandsAhead(Book(), rest);
    BookIs();
    EmptyRead(n.log[1]);
    OwnValues(map[], map[]);
    assert n.log[1] == Book()[1] && n.log[2] == Book()[2] && n.log[0] == Book()[0] && n.log[3] == Book()[3];
    assert Before(n.database, n.log, 0, 1) == map[];
    forall x | 0 <= x < |n.log| ensures k.log[x] == (Walked() + rest)[x] {
      if x >= 4 { assert k.log[x] == n.log[x] == rest[x - 4]; }
    }
  }

  /** What follows does not change what the first entries do. */
  lemma SameCommandsAhead(log: seq<LogEntry>, rest: seq<LogEntry>)
    requires |log| == 4
    ensures forall db: Database :: Before(db, log + rest, 0, 1) == Before(db, log, 0, 1)
    ensures forall db: Database :: Before(db, log + rest, 0, 3) == Before(db, log, 0, 3)
    ensures Decodable(log + rest, 0, 3) <==> Decodable(log, 0, 3)
  {
    CommandsSame(log, log + rest, 0, 1);
    CommandsSame(log, log + rest, 0, 3);
    assert forall i :: 0 <= i < 4 ==> (log + rest)[i] == log[i];
  }

  lemma EmptyRead(e: LogEntry)
    requires e.payload == R
    ensures CommandOf(e.payload).Some? && Result(map[], CommandOf(e.payload).value) == ""
    ensures Result(map["x" := "1"], CommandOf(e.payload).value) == "1"
  {
  }

  lemma BeatFacts(n: NodeState)
    requires AnsweredEmpty(n)
    ensures !TimeoutCrashes(n) && RequestFor(n, 4) == BEAT_1 && n.peers[0] == "b"
  {
    assert forall i :: 0 <= i < 2 ==> ["b", "c"][i] == "b" || ["b", "c"][i] == "c";
  }

  // ----- the followers -----

  lemma FeedTakenB()
    ensures var n := Voter();
            && Takes(n, FEED_1) && Receiver(n, 1) == n && n.address == "b" && n.currentTerm == 1 && n.commitIndex == -1
            && Rewind(n.log, -1, Recorded(n)).Rewound? && |n.log| == 0
            && Fed(Stored(n, FEED_1, NOW), Book(), -1)
  {
    hide Indices;
    assert LastChange(Book()) == -1;
  }

  /** "c" holds the log, and has not voted. */
  ghost predicate Waits(n: NodeState) {
    && n.role.Follower? && !n.halted && n.address == "c" && n.currentTerm == 1 && n.votedFor == "" && n.leaderLastHeard == NOW
    && n.minElectionTimeout == 4000 && n.commitIndex == -1 && n.changeIndex == -1 && n.database == map[] && n.log == Book()
  }

  lemma FeedTakenC()
    ensures var n := Member("c", ["a", "b"]);
            && Takes(n, FEED_1) && Receiver(n, 1) == n && n.address == "c" && n.currentTerm == 0 && n.commitIndex == -1
            && Rewind(n.log, -1, Recorded(n)).Rewound? && |n.log| == 0
            && Waits(Stored(n, FEED_1, NOW))
  {
    hide Indices;
    assert LastChange(Book()) == -1;
  }

  /** "b" after it has applied the read and the write. */
  ghost predicate Ahead(n: NodeState) {
    && n.role.Follower? && !n.halted && n.address == "b" && n.currentTerm == 1 && n.peers == ["a", "c"]
    && n.commitIndex == 3 && n.lastApplied == -1 && n.database == map["x" := "1"] && n.log == Walked()
  }

  lemma BeatTaken(n: NodeState)
    requires Fed(n, Book(), -1)
    ensures Takes(n, BEAT_1) && Ahead(React(n, AppendEntries(BEAT_1), NOW).node)
  {
    hide React, Decodable, Before, Book, Walked;
    BookIs();
    BookRuns(Book());
    BeatAccepted(n);
    FollowerApplies(n, BEAT_1, NOW);
    var k := React(n, AppendEntries(BEAT_1), NOW).node;
    var c := Heard(n, BEAT_1, NOW).(commitIndex := 3);
    assert Book() + [] == Book() && Walked() + [] == Walked();
    assert AppliedRange(c, k, 0, 3);
    ThreeRun(c, k, []);
  }

  lemma BeatAccepted(n: NodeState)
    requires Fed(n, Book(), -1)
    ensures Takes(n, BEAT_1) && Receiver(n, 1) == n
  {
  }

  // ----- the second leader -----

  lemma Candidate2(n: NodeState)
    requires Ahead(n)
    ensures n.role.Follower? && !n.halted && n.address == "b" && n.currentTerm == 1 && n.peers == ["a", "c"]
    ensures n.log == Walked()
    ensures VoteRequestOf(n) == Bid(Walked()) && Bid(Walked()) == VoteRequest(2, "b", 3, 1)
    ensures var c := BecomeCandidate(n);
            && Wins(c, VoteAnswer("c", true, 1)) && c.address == "b" && c.currentTerm == 2 && c.peers == ["a", "c"]
            && Crowned(c.(voteCount := c.voteCount + 1)) == Successor(n)
  {
    hide Marked;
  }

  lemma VoteOfC(n: NodeState)
    requires Waits(n)
    ensures n.role.Follower? && !n.halted && n.address == "c" && n.currentTerm == 1
    ensures GrantsVote(n, VoteRequest(2, "b", 3, 1), LATER)
    ensures Voted(n, VoteRequest(2, "b", 3, 1), LATER) == n.(currentTerm := 2, votedFor := "b")
  {
  }

  /** "b" in term 2: everything is still to be applied once more. */
  ghost predicate Heads(n: NodeState) {
    && n.role.Leader? && !n.halted && n.address == "b" && n.currentTerm == 2 && n.peers == ["a", "c"]
    && n.commitIndex == 3 && n.lastApplied == -1 && n.database == map["x" := "1"] && n.log == Walked() + [NoOp(2)]
    && Lookup(n.nextIndex, "a") == 4 && Lookup(n.nextIndex, "c") == 4 && Lookup(n.matchIndex, "a") == 0
  }

  lemma SuccessorHeads(n: NodeState)
    requires Ahead(n)
    ensures Heads(Successor(n))
  {
    hide Marked, Walked;
    assert n.peers[0] == "a" && n.peers[1] == "c";
    assert |Walked()| == 4 by { WalkedIs(); }
  }

  lemma WalkedIs()
    ensures |Walked()| == 4 && Walked()[3].term == 1 && Walked()[0] == NoOp(1) && Walked()[1] == Asked(1, R)
    ensures SameLog(Book(), Walked()) && AgreeUpTo(Book(), Walked(), 4)
  {
  }

  lemma HeadsFeeds(n: NodeState)
    requires Heads(n)
    ensures !TimeoutCrashes(n) && RequestFor(n, 4) == FEED_2 && n.peers[1] == "c"
  {
    hide Walked;
    WalkedIs();
    assert forall i :: 0 <= i < 2 ==> ["a", "c"][i] == "a" || ["a", "c"][i] == "c";
    assert n.log[3] == Walked()[3];
    assert n.log[4..] == [NoOp(2)];
  }

  lemma Usurps(s: System)
    requires "b" in s.nodes && "c" in s.nodes && Ahead(s.nodes["b"]) && Waits(s.nodes["c"])
    ensures var t := After(s, Usurp());
            && t.nodes == s.nodes["b" := Successor(s.nodes["b"])]["c" := s.nodes["c"].(currentTerm := 2, votedFor := "b")]
            && t.hist.leaders == s.hist.leaders + {(2, "b")} && t.hist.grants == s.hist.grants + {("b", 2, "b"), ("c", 2, "b")}
            && t.hist.counted == s.hist.counted[("b", 2) := Tally(s.hist, "b", 2) + [("c", 2)]]
  {
    hide Next, After, VoteRequestOf, Crowned, GrantsVote, Voted, Wins, BecomeCandidate, Bid, Tally, Successor,
         Walked, Ahead, Waits;
    var c := Usurp();
    AfterThree(s, c[0], c[1], c[2]);
    Candidate2(s.nodes["b"]);
    VoteOfC(s.nodes["c"]);
    FollowerTicks(s, "b", NOW);
    var t1 := Next(s, c[0]);
    assert s.nodes["b"].peers[1] == "c";
    FollowerGrants(t1, c[1].packet, LATER);
    var t2 := Next(t1, c[1]);
    CandidateWins(t2, c[2].packet, NOW);
    SameTally(s.hist, t2.hist, "b", 2);
  }

  /** "c" takes the last entry, applies the read and the write as well, and answers. */
  lemma LastTaken(n: NodeState)
    requires Waits(n)
    ensures var v := n.(currentTerm := 2, votedFor := "b");
            && Takes(v, FEED_2) && Receiver(v, 2) == v && v.address == "c" && v.currentTerm == 2
            && React(v, AppendEntries(FEED_2), NOW).node.log == Walked() + [NoOp(2)]
  {
    hide React, Decodable, Before, Book, Walked;
    var v := n.(currentTerm := 2, votedFor := "b");
    BookIs();
    BookRuns(Book());
    LastAccepted(v);
    FollowerApplies(v, FEED_2, NOW);
    var k := React(v, AppendEntries(FEED_2), NOW).node;
    SameCommandsAhead(Book(), [NoOp(2)]);
    assert Book()[..4] == Book();
    var st := Stored(v, FEED_2, NOW);
    assert st.log == Book() + [NoOp(2)];
    ThreeRun(st.(commitIndex := 3), k, [NoOp(2)]);
  }

  lemma LastAccepted(v: NodeState)
    requires v.role.Follower? && !v.halted && v.currentTerm == 2 && v.changeIndex == -1 && v.commitIndex == -1
    requires v.log == Book()
    ensures Takes(v, FEED_2) && Receiver(v, 2) == v
  {
  }

  /** The second leader in the end: the read has been answered with the later write. */
  ghost predicate AnsweredLate(n: NodeState) {
    && n.role.Leader? && !n.halted && n.currentTerm == 2 && n.lastApplied == 4 && n.commitIndex == 4
    && |n.log| == 5 && n.log[1] == Asked(1, R).(result := "1")
  }

  lemma CommitsLast(n: NodeState)
    requires Heads(n)
    ensures NewCommit(n, "c") == 4
  {
    hide Walked;
    WalkedIs();
    assert n.log[4] == NoOp(2) && |n.log| == 5;
    assert n.peers[1..] == ["c"] && n.peers[1..][1..] == [];
    assert Holders(n, n.peers[1..], "c", 4) == 1;
    assert Committable(n, "c", 4);
    assert Scan(n, "c", 5, 4) == 4;
    assert Scan(n, "c", 4, 3) == 4;
  }

  lemma FinishOutcome(n: NodeState)
    requires Heads(n)
    ensures AnsweredLate(React(n, AppendReply(AppendAnswer("c", true, 2)), NOW).node)
  {
    hide React, NewCommit, Before, Decodable, Walked, SameLog;
    var r := AppendAnswer("c", true, 2);
    WalkedIs();
    CommitsLast(n);
    LastDecodes(n.log);
    LeaderApplies(n, r, NOW);
    AppendReplyOutcome(n, r, NOW);
    AcknowledgedRun(n, r, Acknowledged(n, r), NOW);
    var k := React(n, AppendReply(r), NOW).node;
    assert n.log[1] == Asked(1, R);
    NothingBefore(n.log);
    EmptyRead(n.log[1]);
    assert k.log[1] == n.log[1].(result := Result(Before(n.database, n.log, 0, 1), CommandOf(n.log[1].payload).value));
  }

  lemma LastDecodes(log: seq<LogEntry>)
    requires log == Walked() + [NoOp(2)]
    ensures Decodable(log, 0, 5) && |log| == 5
  {
  }

  lemma NothingBefore(log: seq<LogEntry>)
    requires |log| > 0 && log[0] == NoOp(1)
    ensures forall db: Database :: Before(db, log, 0, 1) == db
  {
    assert Commands(log, 1, 1) == [] && Commands(log, 0, 1) == [];
  }

  // ----- the whole run -----

  function Spread(): seq<Choice> {
    [FeedB(), FeedC(), Confirm()]
  }

  function Inform(): seq<Choice> {
    [Tick("a", NOW), Beat()]
  }

  function Close(): seq<Choice> {
    [Tick("b", NOW), HandOn(), Finish()]
  }

  function Early(): seq<Choice> {
    Win() + Fill() + [FeedB(), FeedC()]
  }

  function Late(): seq<Choice> {
    Win() + Fill() + Spread() + Inform() + Usurp() + [Tick("b", NOW), HandOn()]
  }

  function ReadingRun(): seq<Choice> {
    Win() + Fill() + Spread() + Inform() + Usurp() + Close()
  }

  lemma Spreads(s: System)
    requires s.nodes == map["a" := Holder(), "b" := Voter(), "c" := Member("c", ["a", "b"])] && s.hist.leaders == {(1, "a")}
    requires FeedB().packet in s.net && FeedC().packet in s.net
    ensures var u := After(s, [FeedB(), FeedC()]); var t := After(s, Spread());
            && u.nodes.Keys == {"a", "b", "c"} && u.nodes["a"] == Holder()
            && t.nodes.Keys == {"a", "b", "c"} && AnsweredEmpty(t.nodes["a"]) && Fed(t.nodes["b"], Book(), -1) && Waits(t.nodes["c"])
            && t.hist.leaders == s.hist.leaders && t.hist.grants == s.hist.grants && t.hist.counted == s.hist.counted
  {
    hide Next, After, Holder, Voter, Member, Takes, Stored, Receiver, Rewind, React, Acknowledged, SameLog, Fed,
         Waits, AnsweredEmpty, Book;
    var c := Spread();
    AfterTwo(s, c[0], c[1]);
    AfterThree(s, c[0], c[1], c[2]);
    HolderFacts();
    FeedTakenB();
    FeedTakenC();
    RequestStored(s, c[0].packet, NOW);
    FedIs(Stored(Voter(), FEED_1, NOW), Book(), -1);
    var t1 := Next(s, c[0]);
    RequestStored(t1, c[1].packet, NOW);
    ConfirmOutcome(Holder());
    ReplyReceived(Next(t1, c[1]), c[2].packet, NOW);
  }

  lemma AnsweredIs(n: NodeState)
    requires AnsweredEmpty(n)
    ensures n.role.Leader? && !n.halted && n.address == "a" && n.currentTerm == 1 && n.log == Done()
    ensures Lookup(n.nextIndex, "b") == 4
    ensures n.peers == ["b", "c"]
  {
  }

  lemma Informs(s: System)
    requires s.nodes.Keys == {"a", "b", "c"} && AnsweredEmpty(s.nodes["a"]) && Fed(s.nodes["b"], Book(), -1)
    requires s.hist.leaders == {(1, "a")}
    ensures var t := After(s, Inform());
            && t.nodes.Keys == s.nodes.Keys && t.nodes["a"] == s.nodes["a"] && Ahead(t.nodes["b"]) && t.nodes["c"] == s.nodes["c"]
            && t.hist.leaders == s.hist.leaders && t.hist.grants == s.hist.grants && t.hist.counted == s.hist.counted
  {
    hide Next, After, Takes, Receiver, React, RequestFor, TimeoutCrashes, AnsweredEmpty, Fed, Ahead, Book, Done;
    var c := Inform();
    AfterTwo(s, c[0], c[1]);
    AnsweredIs(s.nodes["a"]);
    BeatFacts(s.nodes["a"]);
    LeaderTicks(s, "a", NOW);
    var t1 := Next(s, c[0]);
    BeatTaken(s.nodes["b"]);
    RequestTaken(t1, c[1].packet, NOW);
  }

  lemma HeadsIs(n: NodeState)
    requires Heads(n)
    ensures n.role.Leader? && !n.halted && n.address == "b" && n.currentTerm == 2 && n.log == Walked() + [NoOp(2)]
    ensures Lookup(n.nextIndex, "c") == 4 && n.peers == ["a", "c"]
  {
  }

  lemma Closes(s: System, c0: NodeState)
    requires s.nodes.Keys == {"a", "b", "c"} && Heads(s.nodes["b"]) && Waits(c0)
    requires s.nodes["c"] == c0.(currentTerm := 2, votedFor := "b") && (2, "b") in s.hist.leaders
    ensures var u := After(s, [Tick("b", NOW), HandOn()]); var t := After(s, Close());
            && "b" in u.nodes && u.nodes["b"] == s.nodes["b"]
            && t.nodes.Keys == s.nodes.Keys && t.nodes["a"] == s.nodes["a"] && AnsweredLate(t.nodes["b"])
            && t.hist.leaders == s.hist.leaders && t.hist.grants == s.hist.grants && t.hist.counted == s.hist.counted
  {
    hide Next, After, Takes, Receiver, React, RequestFor, TimeoutCrashes, Heads, Waits, AnsweredLate, Walked,
         Acknowledged, SameLog;
    var c := Close();
    AfterTwo(s, c[0], c[1]);
    AfterThree(s, c[0], c[1], c[2]);
    HeadsIs(s.nodes["b"]);
    HeadsFeeds(s.nodes["b"]);
    LeaderTicks(s, "b", NOW);
    var t1 := Next(s, c[0]);
    LastTaken(c0);
    RequestTaken(t1, c[1].packet, NOW);
    var t2 := Next(t1, c[1]);
    FinishOutcome(s.nodes["b"]);
    ReplyReceived(t2, c[2].packet, NOW);
  }

  lemma ReadingParts()
    ensures var s1 := After(After(Start(), Win()), Fill()); var s2 := After(s1, Spread()); var s3 := After(s2, Inform());
            var s4 := After(s3, Usurp());
            && After(Start(), Early()) == After(s1, [FeedB(), FeedC()])
            && After(Start(), Late()) == After(s4, [Tick("b", NOW), HandOn()])
            && After(Start(), ReadingRun()) == After(s4, Close())
  {
    hide After, Start, Win, Fill, Spread, Inform, Usurp, Close, FeedB, FeedC, HandOn;
    AfterConcat(Start(), Win(), Fill());
    AfterConcat(Start(), Win() + Fill(), [FeedB(), FeedC()]);
    AfterConcat(Start(), Win() + Fill(), Spread());
    AfterConcat(Start(), Win() + Fill() + Spread(), Inform());
    AfterConcat(Start(), Win() + Fill() + Spread() + Inform(), Usurp());
    AfterConcat(Start(), Win() + Fill() + Spread() + Inform() + Usurp(), [Tick("b", NOW), HandOn()]);
    AfterConcat(Start(), Win() + Fill() + Spread() + Inform() + Usurp(), Close());
  }

  /** The state before either reply is counted, and in the end. */
  lemma Stages() returns (u: System, v: System, t: System)
    ensures u == After(Start(), Early()) && "a" in u.nodes && u.nodes["a"] == Holder()
    ensures v == After(Start(), Late()) && "b" in v.nodes && Heads(v.nodes["b"])
    ensures t == After(Start(), ReadingRun()) && t.nodes.Keys == {"a", "b", "c"}
    ensures AnsweredEmpty(t.nodes["a"]) && AnsweredLate(t.nodes["b"]) && OneVote(t.hist) && CleanCounts(t.hist, CLUSTER)
  {
    hide *;
    ReadingParts();
    Won(Start());
    var s0 := After(Start(), Win());
    StartNodes();
    OpenerFacts();
    Fills(s0);
    var s1 := After(s0, Fill());
    Spreads(s1);
    u := After(s1, [FeedB(), FeedC()]);
    var s2 := After(s1, Spread());
    Informs(s2);
    var s3 := After(s2, Inform());
    Usurps(s3);
    var s4 := After(s3, Usurp());
    SuccessorHeads(s3.nodes["b"]);
    Closes(s4, s3.nodes["c"]);
    v := After(s4, [Tick("b", NOW), HandOn()]);
    t := After(s4, Close());
    TwoCandidacies(s3.hist, t.hist);
  }

  lemma StartNodes()
    ensures Start().nodes == map["a" := Member("a", ["b", "c"]), "b" := Member("b", ["a", "c"]), "c" := Member("c", ["a", "b"])]
  {
  }

  lemma Shapes()
    ensures |Fill()| == 4 && forall j :: 0 <= j < 4 ==> Plain(Fill()[j])
    ensures !Replies(FeedB()) && !Replies(FeedC()) && Feeds(FeedB()) && Feeds(FeedC()) && !Feeds(Confirm())
    ensures FeedB().packet.dest != FeedC().packet.dest && FeedC().packet.append.term == 1
    ensures Plain(Beat()) && !Replies(HandOn()) && Feeds(HandOn()) && HandOn().packet.append.term == 2 && !Feeds(Finish())
    ensures FeedB().packet.dest == "b" && HandOn().packet.dest == "c"
    ensures |Usurp()| == 3 && forall j :: 0 <= j < 3 ==> Plain(Usurp()[j])
    ensures Harmless(FeedB()) && Harmless(FeedC()) && Harmless(Confirm()) && Harmless(HandOn()) && Harmless(Finish())
    ensures Plain(Tick("a", NOW)) && Plain(Tick("b", NOW))
  {
    hide Book, Walked, Done, Bid;
  }

  lemma RunShape()
    ensures var run := ReadingRun();
            && |run| == 18 && run[..9] == Early() && run[9] == Confirm() && run[..17] == Late() && run[17] == Finish()
            && run[7] == FeedB() && run[8] == FeedC() && run[16] == HandOn()
            && (forall j :: 0 <= j < 18 ==> Harmless(run[j]))
            && (forall j :: 0 <= j < 18 && j != 9 && j != 17 ==> !Replies(run[j]))
            && (forall j :: 0 <= j < 18 && j != 7 && j != 8 && j != 16 ==> !Feeds(run[j]))
  {
    WinShape();
    Shapes();
    hide Win, Fill, FeedB, FeedC, Confirm, Beat, Usurp, HandOn, Finish, Replies, Feeds, Harmless;
    assert ReadingRun() == Early() + ([Confirm()] + Inform() + Usurp() + Close());
    assert ReadingRun() == Late() + [Finish()];
  }

  /** The three requests with entries go to different nodes or come from different leaders. */
  lemma ReadsInOrder()
    ensures InOrder(Start(), ReadingRun())
  {
    RunShape();
    Shapes();
    hide ReadingRun, FeedB, FeedC, HandOn, Feeds, Replies, Harmless, Plain, SentBetween, Start, After;
  }

  lemma ReadsTimely(u: System, v: System)
    requires u == After(Start(), Early()) && "a" in u.nodes && u.nodes["a"] == Holder()
    requires v == After(Start(), Late()) && "b" in v.nodes && Heads(v.nodes["b"])
    ensures AllTimely(Start(), ReadingRun())
  {
    hide After, ReadingRun, Early, Late, Start, Timely, Holder, Heads, Replies, Feeds, Confirm, Finish, Harmless;
    RunShape();
    var run := ReadingRun();
    ConfirmTimely(u);
    FinishTimely(v);
    forall j | 0 <= j < |run| ensures Timely(After(Start(), run[..j]), run[j]) {
      if j != 9 && j != 17 { NoReplyTimely(After(Start(), run[..j]), run[j]); }
    }
  }

  lemma ConfirmTimely(u: System)
    requires "a" in u.nodes && u.nodes["a"] == Holder()
    ensures Timely(u, Confirm())
  {
    hide Holder;
    HolderFacts();
  }

  lemma FinishTimely(v: System)
    requires "b" in v.nodes && Heads(v.nodes["b"])
    ensures Timely(v, Finish())
  {
    hide Walked;
  }

  /** The same read, asked for with the same ticket of the two leaders that are in office in
      the end: nothing, says the one of term 1, which is right; "1", says the one of term 2,
      which the log writes only after it. */
  lemma ReadsDisagree(now: int)
    ensures GoodRun(Start(), ReadingRun(), CLUSTER) && AllTimely(Start(), ReadingRun()) && InOrder(Start(), ReadingRun())
    ensures var t := After(Start(), ReadingRun());
            && "a" in t.nodes && "b" in t.nodes
            && t.nodes["a"].role.Leader? && React(t.nodes["a"], Probe(1, 1), now).out == [Answer(Completed(""))]
            && t.nodes["b"].role.Leader? && React(t.nodes["b"], Probe(1, 1), now).out == [Answer(Completed("1"))]
  {
    hide *;
    var u, v, t := Stages();
    RunShape();
    CleanIfVotes(ReadingRun());
    ReadsTimely(u, v);
    ReadsInOrder();
    TimelyRunsHonest(Start(), ReadingRun(), CLUSTER);
    OrderedRunsFresh(Start(), ReadingRun(), CLUSTER);
    GoodIf(ReadingRun());
    BothAnswer(t.nodes["a"], t.nodes["b"], now);
  }

  lemma GoodIf(run: seq<Choice>)
    requires CleanRun(Start(), run, CLUSTER) && NoneStale(Start(), run) && AllHonest(Start(), run, CLUSTER)
    ensures GoodRun(Start(), run, CLUSTER)
  {
    hide CleanRun, NoneStale, AllHonest;
  }

  lemma BothAnswer(a: NodeState, b: NodeState, now: int)
    requires AnsweredEmpty(a) && AnsweredLate(b)
    ensures a.role.Leader? && React(a, Probe(1, 1), now).out == [Answer(Completed(""))]
    ensures b.role.Leader? && React(b, Probe(1, 1), now).out == [Answer(Completed("1"))]
  {
    hide React;
    ProbeOutcome(a, 1, 1, now);
    ProbeOutcome(b, 1, 1, now);
  }
}
