/** Each hypothesis of Election Safety by itself is needed: a run in which a node votes twice
    in a term and every count is clean, and one in which nobody does and a count is not, both
    with two leaders of one term in a cluster of three. */
module VotingNeeded {
  import opened Types
  import opened Rules
  import opened Interpreter
  import opened Reactions
  import opened Effects
  import opened Network
  import opened Leadership
  import opened Elections
  import opened Steps
  import opened TwoLeaders
  import opened LostCommit

  const ASK_C: VoteRequest := VoteRequest(1, "c", -1, -1)
  const ASK_C2: VoteRequest := VoteRequest(2, "c", -1, -1)

  function Novice(): NodeState { Member("c", ["a", "b"]) }

  /** "b" after it voted for "a" in term 1 and restarted. */
  function Forgetful(): NodeState { BecomeFollower(Recovered(Voter(), 0)) }

  function RunnerC(): NodeState { BecomeCandidate(Novice()) }

  lemma Forgets()
    ensures var n := Forgetful();
            && n.role.Follower? && !n.halted && n.address == "b" && n.currentTerm == 1 && n.log == []
            && GrantsVote(n, ASK_C, NOW) && GrantsVote(n, ASK_C2, NOW)
  {
    hide Indices;
  }

  lemma RunsC()
    ensures var n := Novice();
            && n.role.Follower? && !n.halted && n.address == "c" && n.currentTerm == 0 && n.peers == ["a", "b"] && n.log == []
            && VoteRequestOf(n) == ASK_C
    ensures var c := RunnerC();
            && Wins(c, VoteAnswer("b", true, 1)) && c.address == "c" && c.currentTerm == 1 && c.role.Candidate? && !c.halted
  {
    hide Indices;
  }

  // ----- voting twice -----

  /** "b" forgets its vote and gives it to "c". */
  function VoteAgain(): seq<Choice> {
    [Reboot("b", 0, NOW), Tick("c", NOW), Deliver(VotePacket("b", ASK_C, []), NOW)]
  }

  function WinC(): seq<Choice> {
    [Deliver(VoteAnswerPacket("c", VoteAnswer("b", true, 1), ASK_C, "b"), NOW)]
  }

  function TwoVotes(): seq<Choice> {
    Win() + VoteAgain() + WinC()
  }

  lemma VotesAgain(s: System)
    requires "b" in s.nodes && "c" in s.nodes && s.nodes["b"] == Voter() && s.nodes["c"] == Novice()
    ensures var t := After(s, VoteAgain());
            && "c" in t.nodes && t.nodes["c"] == RunnerC() && VoteAnswerPacket("c", VoteAnswer("b", true, 1), ASK_C, "b") in t.net
            && t.hist == s.hist.(grants := s.hist.grants + {("c", 1, "c"), ("b", 1, "c")})
  {
    hide Next, After, Novice, RunnerC, Voter, Forgetful, VoteRequestOf, GrantsVote, Voted, Wins,
         BecomeCandidate, BecomeFollower, Recovered;
    var c := VoteAgain();
    AfterThree(s, c[0], c[1], c[2]);
    Forgets();
    RunsC();
    Rebooted(s, "b", 0, NOW);
    var t0 := Next(s, c[0]);
    assert t0.nodes["b"] == Forgetful() && RunnerC() == BecomeCandidate(Novice()) by { Renamed(); }
    FollowerTicks(t0, "c", NOW);
    assert Novice().peers[1] == "b";
    FollowerGrants(Next(t0, c[1]), c[2].packet, NOW);
  }

  lemma Renamed()
    ensures Forgetful() == BecomeFollower(Recovered(Voter(), 0)) && RunnerC() == BecomeCandidate(Novice())
  {
    hide BecomeFollower, Recovered, BecomeCandidate;
  }

  lemma WinsC(s: System)
    requires "c" in s.nodes && s.nodes["c"] == RunnerC() && VoteAnswerPacket("c", VoteAnswer("b", true, 1), ASK_C, "b") in s.net
    ensures var t := After(s, WinC());
            && t.hist.leaders == s.hist.leaders + {(1, "c")} && t.hist.grants == s.hist.grants
            && t.hist.counted == s.hist.counted[("c", 1) := Tally(s.hist, "c", 1) + [("b", 1)]]
  {
    hide Next, After, RunnerC, Wins, Crowned, Tally;
    var c := WinC();
    AfterOne(s, c[0]);
    RunsC();
    CandidateWins(s, c[0].packet, NOW);
  }

  lemma FirstMembers()
    ensures "a" in Start().nodes && "b" in Start().nodes && "c" in Start().nodes && Start().nodes["c"] == Novice()
  {
    hide Member;
  }

  /** Two leaders of term 1 although every grant counted is from a different member, for the
      term it is counted in. */
  lemma OneVoteNeeded()
    ensures Initial(Start()) && NoReconfiguration(TwoVotes())
    ensures var h := After(Start(), TwoVotes()).hist; CleanCounts(h, CLUSTER) && !OneVote(h) && !OneLeader(h)
  {
    hide After, Initial, Start, Win, VoteAgain, WinC, Novice, Voter, RunnerC, FirstLeader, CleanCounts, OneVote,
         OneLeader;
    StartIsInitial();
    TwoVotesPlain();
    FirstMembers();
    AfterConcat(Start(), Win(), VoteAgain());
    AfterConcat(Start(), Win() + VoteAgain(), WinC());
    var s := After(Start(), Win());
    Won(Start());
    VotesAgain(s);
    var t := After(s, VoteAgain());
    WinsC(t);
    TwoClean(s.hist, t.hist, After(t, WinC()).hist);
  }

  lemma TwoVotesPlain()
    ensures NoReconfiguration(TwoVotes())
  {
  }

  lemma TwoClean(h: History, k: History, z: History)
    requires h.leaders == {(1, "a")} && h.grants == {("a", 1, "a"), ("b", 1, "a")} && h.counted == map[("a", 1) := [("b", 1)]]
    requires k == h.(grants := h.grants + {("c", 1, "c"), ("b", 1, "c")})
    requires z.leaders == k.leaders + {(1, "c")} && z.grants == k.grants
    requires z.counted == k.counted[("c", 1) := Tally(k, "c", 1) + [("b", 1)]]
    ensures CleanCounts(z, CLUSTER) && !OneVote(z) && !OneLeader(z)
  {
    assert Tally(k, "c", 1) + [("b", 1)] == [("b", 1)];
    assert (1, "a") in z.leaders && (1, "c") in z.leaders;
    assert ("b", 1, "a") in z.grants && ("b", 1, "c") in z.grants;
  }

  // ----- counting an old grant -----

  /** "a" runs for term 1, gets the vote of "b", but gives up before it hears of it. */
  function GiveUp(): seq<Choice> {
    [Tick("a", NOW), Deliver(VotePacket("b", ASK_1, []), NOW), Tick("a", NOW)]
  }

  /** It runs for term 2, and counts that grant. */
  function CountOld(): seq<Choice> {
    [Tick("a", NOW), Deliver(VoteAnswerPacket("a", VoteAnswer("b", true, 0), ASK_1, "b"), NOW)]
  }

  /** "c" gets to term 2, too. */
  function RunLate(): seq<Choice> {
    [Tick("c", NOW), Tick("c", NOW), Tick("c", NOW)]
  }

  /** "b" restarts and votes for it, for the first time in term 2. */
  function WinLate(): seq<Choice> {
    [Reboot("b", 0, NOW), Deliver(VotePacket("b", ASK_C2, []), NOW),
     Deliver(VoteAnswerPacket("c", VoteAnswer("b", true, 1), ASK_C2, "b"), NOW)]
  }

  function OldGrant(): seq<Choice> {
    GiveUp() + CountOld() + RunLate() + WinLate()
  }

  function Resting(): NodeState { BecomeFollower(Runner()) }

  function RunnerC2(): NodeState { BecomeCandidate(BecomeFollower(RunnerC())) }

  lemma Rests()
    ensures Runner().role.Candidate? && !Runner().halted && Runner() == BecomeCandidate(Member("a", ["b", "c"]))
    ensures var n := Resting(); n.role.Follower? && !n.halted && n.address == "a" && n.currentTerm == 1
    ensures var c := BecomeCandidate(Resting()); Wins(c, VoteAnswer("b", true, 0)) && c.address == "a" && c.currentTerm == 2
  {
    hide Indices;
  }

  lemma GivesUp(s: System)
    requires s == Start()
    ensures var t := After(s, GiveUp());
            && "a" in t.nodes && "b" in t.nodes && "c" in t.nodes
            && t.nodes["a"] == Resting() && t.nodes["b"] == Voter() && t.nodes["c"] == Novice()
            && VoteAnswerPacket("a", VoteAnswer("b", true, 0), ASK_1, "b") in t.net
            && t.hist == History({}, map[], {("a", 1, "a"), ("b", 1, "a")}, map[])
  {
    hide Next, After, Member, VoteRequestOf, Runner, Resting, Voter, GrantsVote, Voted, BecomeCandidate, BecomeFollower;
    var c := GiveUp();
    AfterThree(s, c[0], c[1], c[2]);
    Candidacy();
    FirstGrant();
    Rests();
    FollowerTicks(s, "a", NOW);
    assert s.nodes["a"].peers[0] == "b";
    var t1 := Next(s, c[0]);
    FollowerGrants(t1, c[1].packet, NOW);
    var t2 := Next(t1, c[1]);
    CandidateTicks(t2, "a", NOW);
    assert Resting() == BecomeFollower(Runner()) by { RestingIs(); }
  }

  lemma RestingIs()
    ensures Resting() == BecomeFollower(Runner())
  {
  }

  lemma CountsOld(s: System)
    requires "a" in s.nodes && s.nodes["a"] == Resting()
    requires VoteAnswerPacket("a", VoteAnswer("b", true, 0), ASK_1, "b") in s.net
    ensures var t := After(s, CountOld());
            && "a" in t.nodes && t.nodes == s.nodes["a" := t.nodes["a"]]
            && t.hist.leaders == s.hist.leaders + {(2, "a")} && t.hist.grants == s.hist.grants + {("a", 2, "a")}
            && t.hist.counted == s.hist.counted[("a", 2) := Tally(s.hist, "a", 2) + [("b", 1)]]
  {
    hide Next, After, Resting, BecomeCandidate, Wins, Crowned, Tally;
    var c := CountOld();
    AfterTwo(s, c[0], c[1]);
    Rests();
    FollowerTicks(s, "a", NOW);
    CandidateWins(Next(s, c[0]), c[1].packet, NOW);
    SameTally(s.hist, Next(s, c[0]).hist, "a", 2);
  }

  lemma RunsLate()
    ensures var n := BecomeFollower(RunnerC());
            && n.role.Follower? && !n.halted && n.address == "c" && n.currentTerm == 1 && n.peers == ["a", "b"] && n.log == []
            && VoteRequestOf(n) == ASK_C2
    ensures var c := RunnerC2();
            && c == BecomeCandidate(BecomeFollower(RunnerC()))
            && Wins(c, VoteAnswer("b", true, 1)) && c.address == "c" && c.currentTerm == 2
  {
    hide Indices;
  }

  lemma GetsLate(s: System)
    requires "c" in s.nodes && s.nodes["c"] == Novice()
    ensures var t := After(s, RunLate());
            && t.nodes == s.nodes["c" := RunnerC2()] && VotePacket("b", ASK_C2, []) in t.net
            && t.hist == s.hist.(grants := s.hist.grants + {("c", 1, "c")} + {("c", 2, "c")})
  {
    hide Next, After, Novice, RunnerC, RunnerC2, BecomeCandidate, BecomeFollower, VoteRequestOf, Wins;
    var c := RunLate();
    AfterThree(s, c[0], c[1], c[2]);
    RunsC();
    RunsLate();
    Renamed();
    FollowerTicks(s, "c", NOW);
    var t1 := Next(s, c[0]);
    CandidateTicks(t1, "c", NOW);
    var t2 := Next(t1, c[1]);
    FollowerTicks(t2, "c", NOW);
    assert BecomeFollower(RunnerC()).peers[1] == "b";
  }

  lemma WinsLate(s: System)
    requires "b" in s.nodes && "c" in s.nodes && s.nodes["b"] == Voter() && s.nodes["c"] == RunnerC2()
    requires VotePacket("b", ASK_C2, []) in s.net
    ensures var t := After(s, WinLate());
            && t.hist.leaders == s.hist.leaders + {(2, "c")} && t.hist.grants == s.hist.grants + {("b", 2, "c")}
            && t.hist.counted == s.hist.counted[("c", 2) := Tally(s.hist, "c", 2) + [("b", 2)]]
  {
    hide Next, After, RunnerC2, Voter, Forgetful, Recovered, BecomeFollower, GrantsVote, Voted, Wins, Crowned, Tally;
    var c := WinLate();
    AfterThree(s, c[0], c[1], c[2]);
    Forgets();
    RunsLate();
    Renamed();
    Rebooted(s, "b", 0, NOW);
    var t1 := Next(s, c[0]);
    FollowerGrants(t1, c[1].packet, NOW);
    var t2 := Next(t1, c[1]);
    CandidateWins(t2, c[2].packet, NOW);
    SameTally(s.hist, t2.hist, "c", 2);
  }

  lemma OldGrantPlain()
    ensures NoReconfiguration(OldGrant())
  {
  }

  /** Two leaders of term 2 although nobody votes for two candidates in one term. */
  lemma CleanCountsNeeded()
    ensures Initial(Start()) && NoReconfiguration(OldGrant())
    ensures var h := After(Start(), OldGrant()).hist; OneVote(h) && !CleanCounts(h, CLUSTER) && !OneLeader(h)
  {
    hide After, Initial, Start, GiveUp, CountOld, RunLate, WinLate, Novice, Voter, RunnerC2, Resting,
         CleanCounts, OneVote, OneLeader;
    StartIsInitial();
    OldGrantPlain();
    AfterConcat(Start(), GiveUp(), CountOld());
    AfterConcat(Start(), GiveUp() + CountOld(), RunLate());
    AfterConcat(Start(), GiveUp() + CountOld() + RunLate(), WinLate());
    var s := After(Start(), GiveUp());
    GivesUp(Start());
    CountsOld(s);
    var t := After(s, CountOld());
    GetsLate(t);
    var u := After(t, RunLate());
    WinsLate(u);
    OldDirty(s.hist, t.hist, u.hist, After(u, WinLate()).hist);
  }

  lemma OldDirty(h: History, k: History, l: History, z: History)
    requires h == History({}, map[], {("a", 1, "a"), ("b", 1, "a")}, map[])
    requires k.leaders == h.leaders + {(2, "a")} && k.grants == h.grants + {("a", 2, "a")}
    requires k.counted == h.counted[("a", 2) := Tally(h, "a", 2) + [("b", 1)]]
    requires l == k.(grants := k.grants + {("c", 1, "c")} + {("c", 2, "c")})
    requires z.leaders == l.leaders + {(2, "c")} && z.grants == l.grants + {("b", 2, "c")}
    requires z.counted == l.counted[("c", 2) := Tally(l, "c", 2) + [("b", 2)]]
    ensures OneVote(z) && !CleanCounts(z, CLUSTER) && !OneLeader(z)
  {
    assert Tally(h, "a", 2) + [("b", 1)] == [("b", 1)];
    assert Tally(z, "a", 2) == [("b", 1)];
    assert Tally(z, "a", 2)[0].1 != 2;
    assert (2, "a") in z.leaders && (2, "c") in z.leaders;
  }
}
