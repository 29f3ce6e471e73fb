/** Runs of a single node, restarts included, under any sequence of events whatever. */
module NodeRuns {
  import opened Types
  import opened Rules
  import opened Interpreter
  import opened Reactions
  import opened Effects
  import opened Network
  import opened Leadership

  datatype NodeStep = Happens(event: Event, now: int) | Restarts(lastHeard: int, now: int)

  /** State changes are internal: they never arrive from outside. */
  predicate External(steps: seq<NodeStep>) {
    forall i :: 0 <= i < |steps| && steps[i].Happens? ==> !steps[i].event.StateChanged?
  }

  function NodeNext(n: NodeState, st: NodeStep): NodeState {
    match st
    case Happens(ev, now) => React(n, ev, now).node
    case Restarts(lastHeard, now) => Restart(n, lastHeard, now).node
  }

  /** The node after the first `i` steps. */
  function At(n: NodeState, steps: seq<NodeStep>, i: nat): NodeState
    requires i <= |steps|
  {
    if i == 0 then n else NodeNext(At(n, steps, i - 1), steps[i - 1])
  }

  /** The node is a leader, alive, before and after every step. */
  ghost predicate StaysLeader(n: NodeState, steps: seq<NodeStep>) {
    && (forall i :: 0 <= i < |steps| ==> steps[i].Happens?)
    && (forall i :: 0 <= i <= |steps| ==> At(n, steps, i).role.Leader? && !At(n, steps, i).halted)
  }

  // ----- terms, candidacies, leaderships -----

  /** Step `i` starts a candidacy, or a leadership. */
  predicate RunsForOffice(n: NodeState, steps: seq<NodeStep>, i: nat)
    requires i < |steps|
  {
    !At(n, steps, i).role.Candidate? && At(n, steps, i + 1).role.Candidate?
  }

  predicate TakesOffice(n: NodeState, steps: seq<NodeStep>, i: nat)
    requires i < |steps|
  {
    !At(n, steps, i).role.Leader? && At(n, steps, i + 1).role.Leader?
  }

  ghost predicate StepLawful(n: NodeState, k: NodeState) {
    && k.currentTerm >= n.currentTerm
    && (k.role.Candidate? ==>
          || (n.role.Candidate? && k.currentTerm == n.currentTerm)
          || (n.role.Follower? && k.currentTerm == n.currentTerm + 1))
    && (k.role.Leader? ==> !n.role.Follower? && k.currentTerm == n.currentTerm)
  }

  lemma NodeStepLawful(n: NodeState, st: NodeStep)
    requires st.Happens? ==> !st.event.StateChanged?
    ensures StepLawful(n, NodeNext(n, st))
  {
    hide React, Restart, Wins;
    match st
    case Happens(ev, now) => StepRole(n, ev, now);
    case Restarts(lastHeard, now) => RestartOutcome(n, lastHeard, now);
  }

  /** The current term never goes back, not even across restarts. */
  lemma {:induction false} TermsNeverDecrease(n: NodeState, steps: seq<NodeStep>, i: nat, j: nat)
    requires External(steps) && i <= j <= |steps|
    ensures At(n, steps, i).currentTerm <= At(n, steps, j).currentTerm
    decreases j
  {
    hide NodeNext;
    if i < j {
      TermsNeverDecrease(n, steps, i, j - 1);
      NodeStepLawful(At(n, steps, j - 1), steps[j - 1]);
    }
  }

  /** Every candidacy raises the term by one. */
  lemma CandidacyRaisesTerm(n: NodeState, steps: seq<NodeStep>, i: nat)
    requires External(steps) && i < |steps| && RunsForOffice(n, steps, i)
    ensures At(n, steps, i + 1).currentTerm == At(n, steps, i).currentTerm + 1
  {
    hide NodeNext;
    NodeStepLawful(At(n, steps, i), steps[i]);
  }

  /** Every leadership follows on an unbroken candidacy of the same term, begun earlier in
      the run. */
  lemma LeadershipFollowsCandidacy(n: NodeState, steps: seq<NodeStep>, i: nat) returns (k: nat)
    requires External(steps) && i < |steps| && TakesOffice(n, steps, i) && !n.role.Candidate?
    ensures k < i && RunsForOffice(n, steps, k)
    ensures forall j :: k < j <= i ==> At(n, steps, j).role.Candidate? && At(n, steps, j).currentTerm == At(n, steps, i + 1).currentTerm
  {
    hide NodeNext;
    NodeStepLawful(At(n, steps, i), steps[i]);
    var term := At(n, steps, i).currentTerm;
    k := i;
    while At(n, steps, k).role.Candidate?
      invariant 0 <= k <= i
      invariant forall j :: k < j <= i ==> At(n, steps, j).role.Candidate? && At(n, steps, j).currentTerm == term
      invariant k < i || At(n, steps, k).role.Candidate?
      invariant At(n, steps, k).role.Candidate? ==> At(n, steps, k).currentTerm == term
      decreases k
    {
      NodeStepLawful(At(n, steps, k - 1), steps[k - 1]);
      k := k - 1;
    }
  }

  /** Once a node has led a term it is past that term, or in it and no candidate. */
  lemma {:induction false} OfficeHeld(n: NodeState, steps: seq<NodeStep>, i: nat, j: nat)
    requires External(steps) && i < j <= |steps| && TakesOffice(n, steps, i)
    ensures var t := At(n, steps, i + 1).currentTerm; var k := At(n, steps, j);
            k.currentTerm >= t && (k.currentTerm == t ==> !k.role.Candidate?)
    decreases j
  {
    hide NodeNext;
    if j > i + 1 {
      OfficeHeld(n, steps, i, j - 1);
      NodeStepLawful(At(n, steps, j - 1), steps[j - 1]);
    }
  }

  /** The terms a node leads strictly increase. */
  lemma LeadershipTermsIncrease(n: NodeState, steps: seq<NodeStep>, i: nat, j: nat)
    requires External(steps) && i < j < |steps| && TakesOffice(n, steps, i) && TakesOffice(n, steps, j)
    ensures At(n, steps, i + 1).currentTerm < At(n, steps, j + 1).currentTerm
  {
    hide NodeNext;
    OfficeHeld(n, steps, i, j);
    NodeStepLawful(At(n, steps, j), steps[j]);
  }

  /** An append request leaves a leader either as it is or no leader. */
  lemma LeaderKeepsRole(n: NodeState, m: AppendRequest, now: int)
    requires !n.halted && n.role.Leader? && React(n, AppendEntries(m), now).node.role.Leader?
    ensures React(n, AppendEntries(m), now).node == n
  {
    hide React, AppendCrashes, Accepts, Rewind, Implement, CommitActions, Stored;
    if !Reaches(n, m) {
      AppendRefused(n, m, now);
    } else {
      AppendOutcome(n, m, now);
      var f := Receiver(n, m.term);
      if Accepts(f, m) && !AppendCrashes(f, m) {
        AcceptsInRange(f, m);
        NoStuck(f, m);
        StoredKeeps(f, m, now);
        CommitRun(f, m, AppendEntries(m), Stored(f, m, now), now);
      }
    }
  }

  // ----- votes -----

  /** Step `i` grants a vote. */
  predicate Votes(n: NodeState, steps: seq<NodeStep>, i: nat)
    requires i < |steps|
  {
    steps[i].Happens? && steps[i].event.RequestVote? && Granted(React(At(n, steps, i), steps[i].event, steps[i].now).out)
  }

  /** No timeout and no restart: the node stays the follower it is. */
  predicate Quiet(steps: seq<NodeStep>) {
    forall i :: 0 <= i < |steps| ==> steps[i].Happens? && !steps[i].event.Timeout?
  }

  /** Candidates have addresses. */
  predicate Named(steps: seq<NodeStep>) {
    forall i :: 0 <= i < |steps| && steps[i].Happens? && steps[i].event.RequestVote? ==> steps[i].event.vote.candidate != ""
  }

  lemma FollowerStep(n: NodeState, ev: Event, now: int)
    requires n.role.Follower? && !ev.Timeout? && !ev.StateChanged?
    ensures var o := React(n, ev, now);
            && o.node.role.Follower?
            && o.node.votedFor == (if ev.RequestVote? && Granted(o.out) then ev.vote.candidate else n.votedFor)
            && (ev.RequestVote? && Granted(o.out) ==> n.votedFor == "" || n.votedFor == ev.vote.candidate)
  {
    hide React, Implement, AppendCrashes, Accepts, Rewind, LastChange, CommitActions, Stored, UpToDate;
    if n.halted {
      DeadStep(n, ev, now);
    } else {
      match ev
      case AppendEntries(m) =>
        AppendOutcome(n, m, now);
        if Accepts(n, m) && !AppendCrashes(n, m) {
          AcceptsInRange(n, m);
          NoStuck(n, m);
          StoredKeeps(n, m, now);
          CommitRun(n, m, ev, Stored(n, m, now), now);
        }
      case RequestVote(m) =>
        VoteOutcome(n, m, now);
        assert React(n, ev, now).out[|React(n, ev, now).out| - 1] == Answer(VoteResult(Ballot(n, m, now)));
      case AppendReply(r) => AppendReplyOutcome(n, r, now);
      case VoteReply(r) => VoteReplyOutcome(n, r, now);
      case _ => if IsClient(ev) { ClientRefused(n, ev, now); }
    }
  }

  lemma {:induction false} VoteRemembered(n: NodeState, steps: seq<NodeStep>, i: nat, j: nat)
    requires n.role.Follower? && External(steps) && Quiet(steps) && Named(steps)
    requires i <= j <= |steps|
    ensures At(n, steps, j).role.Follower?
    ensures i < j && Votes(n, steps, i) ==> At(n, steps, j).votedFor == steps[i].event.vote.candidate
    decreases j
  {
    hide React;
    if j > 0 {
      VoteRemembered(n, steps, if i < j then i else j - 1, j - 1);
      FollowerStep(At(n, steps, j - 1), steps[j - 1].event, steps[j - 1].now);
    }
  }

  /** Over any stretch without a timeout or restart, all votes a follower grants, in
      whatever terms, go to one candidate. */
  lemma OneCandidatePerStretch(n: NodeState, steps: seq<NodeStep>, i: nat, j: nat)
    requires n.role.Follower? && External(steps) && Quiet(steps) && Named(steps)
    requires i < j < |steps| && Votes(n, steps, i) && Votes(n, steps, j)
    ensures steps[i].event.vote.candidate == steps[j].event.vote.candidate
  {
    hide React;
    VoteRemembered(n, steps, i, j);
    FollowerStep(At(n, steps, j), steps[j].event, steps[j].now);
  }

  /** A timeout breaks the stretch: this node votes for itself and then, still in the same
      term, for somebody else. */
  lemma SecondVoteSameTerm(n: NodeState, other: VoteRequest, now: int)
    requires !n.halted && n.role.Follower? && other.candidate != n.address
    requires other.term == n.currentTerm + 1 && !RecentlyHeard(n, now) && UpToDate(n, other)
    ensures var steps := [Happens(Timeout, now), Happens(Timeout, now), Happens(RequestVote(other), now)];
            && At(n, steps, 1).votedFor == n.address && At(n, steps, 1).currentTerm == other.term
            && Votes(n, steps, 2) && At(n, steps, 3).currentTerm == other.term
            && At(n, steps, 3).votedFor == other.candidate
  {
    hide React;
    var steps := [Happens(Timeout, now), Happens(Timeout, now), Happens(RequestVote(other), now)];
    FollowerTimeout(n, now);
    var c := BecomeCandidate(n);
    assert At(n, steps, 1) == c by { assert At(n, steps, 0) == n; }
    CandidateTimeout(c, now);
    var f := BecomeFollower(c);
    assert At(n, steps, 2) == f;
    VoteOutcome(f, other, now);
    assert React(f, RequestVote(other), now).out[0] == Answer(VoteResult(Ballot(f, other, now)));
    assert At(n, steps, 3) == React(f, RequestVote(other), now).node;
  }
}
