/** The executor's action interpreter as a function: it carries out a list of actions one
    by one, nesting into the handlers on a state change and on `Reprocess`. */
module Interpreter {
  import opened Types
  import opened Rules
  import KeyValue

  // ----- single actions -----

  /** Replacing the peers rebuilds both index maps. */
  function WithPeers(n: NodeState, peers: seq<Address>): NodeState {
    n.(peers := peers, nextIndex := Indices(peers, n.nextIndex, 0), matchIndex := Indices(peers, n.matchIndex, -1))
  }

  function Included(n: NodeState, server: Address): NodeState {
    if server in n.peers then n else WithPeers(n, n.peers + [server])
  }

  /** The new list has one slot fewer than the old one. A server that is not in the list
      leaves one address too many (a panic); further copies of it leave blank slots. */
  function Excluded(n: NodeState, server: Address): NodeState {
    var kept := Others(n.peers, server);
    if |kept| >= |n.peers| then n.(halted := true)
    else WithPeers(n, kept + seq(|n.peers| - 1 - |kept|, _ => ""))
  }

  function Deleted(n: NodeState, count: int): NodeState {
    if count <= 0 then n
    else if count > |n.log| then n.(log := [], halted := true)
    else n.(log := n.log[..|n.log| - count])
  }

  /** Run the command of entry `i` and store its result beside it. */
  function Applied(n: NodeState, i: int): NodeState {
    match Get(n.log, i)
    case None => n.(halted := true)
    case Some(e) =>
      match CommandOf(e.payload)
      case None => n.(halted := true)
      case Some(c) =>
        n.(database := KeyValue.Run(n.database, c),
           log := n.log[i := e.(result := KeyValue.Result(n.database, c))])
  }

  predicate IsControl(a: Action) {
    a.SetState? || a.Reprocess?
  }

  /** Every action other than the two that nest. A reply without a channel is a panic. */
  function Perform(n: NodeState, a: Action, chan: bool): (o: Outcome)
    requires !IsControl(a)
    ensures o.node.role == n.role && o.node.address == n.address
  {
    match a
    case SetCurrentTerm(t) => Outcome(n.(currentTerm := t), [])
    case SetVotedFor(v) => Outcome(n.(votedFor := v), [])
    case SetVoteCount(c) => Outcome(n.(voteCount := c), [])
    case SetCommitIndex(i) => Outcome(n.(commitIndex := i), [])
    case SetLastApplied(i) => Outcome(n.(lastApplied := i), [])
    case IncludeServer(s) => Outcome(Included(n, s), [])
    case ExcludeServer(s) => Outcome(Excluded(n, s), [])
    case SetPeers(ps) => Outcome(WithPeers(n, ps), [])
    case SetNextIndex(p, i) => Outcome(n.(nextIndex := n.nextIndex[p := i]), [])
    case SetMatchIndex(p, i) => Outcome(n.(matchIndex := n.matchIndex[p := i]), [])
    case SetClusterChange(i, t) => Outcome(n.(changeIndex := i, changeTerm := t), [])
    case SetLeaderLastHeard(t) => Outcome(n.(leaderLastHeard := t), [])
    case ResetTimer(h) => Outcome(n, [Timer(h)])
    case AppendLog(es) => Outcome(n.(log := n.log + es), [])
    case DeleteLog(c) => Outcome(Deleted(n, c), [])
    case ApplyEntry(i) => Outcome(Applied(n, i), [])
    case SendAppend(d, m) => Outcome(n, [AppendRpc(d, m)])
    case SendVote(d, m) => Outcome(n, [VoteRpc(d, m)])
    case Respond(r) => if chan then Outcome(n, [Answer(r)]) else Outcome(n.(halted := true), [])
    case Crash => Outcome(n.(halted := true), [])
  }

  // ----- termination -----

  /** No action nests. */
  predicate Flat(actions: seq<Action>) {
    forall i :: 0 <= i < |actions| ==> !IsControl(actions[i])
  }

  /** How deeply a list can nest: 0 not at all, 1 into state changes, 2 into reprocessing
      as a follower, 3 into reprocessing in any role. */
  function Level(actions: seq<Action>, follower: bool): nat {
    if |actions| == 0 then 0
    else
      match actions[0]
      case SetState(r) => Max(1, Level(actions[1..], r.Follower?))
      case Reprocess => Max(if follower then 2 else 3, Level(actions[1..], false))
      case _ => Level(actions[1..], follower)
  }

  lemma {:induction false} FlatLevel(actions: seq<Action>, follower: bool)
    requires Flat(actions)
    ensures Level(actions, follower) == 0
  {
    if |actions| > 0 {
      assert !IsControl(actions[0]);
      forall i | 0 <= i < |actions| - 1 ensures !IsControl(actions[1..][i]) { assert actions[1..][i] == actions[i + 1]; }
      FlatLevel(actions[1..], follower);
    }
  }

  lemma {:induction false} LevelDependence(actions: seq<Action>)
    ensures Level(actions, true) <= Level(actions, false)
    ensures Level(actions, true) == 0 <==> Level(actions, false) == 0
  {
    if |actions| > 0 && !IsControl(actions[0]) { LevelDependence(actions[1..]); }
  }

  lemma {:induction false} AskPeersFlat(peers: seq<Address>, m: VoteRequest)
    ensures Flat(AskPeers(peers, m))
  {
    if |peers| > 0 { AskPeersFlat(peers[1..], m); }
  }

  lemma {:induction false} GreetPeersFlat(n: NodeState, peers: seq<Address>)
    ensures Flat(GreetPeers(n, peers))
  {
    if |peers| > 0 { GreetPeersFlat(n, peers[1..]); }
  }

  lemma {:induction false} FeedPeersFlat(n: NodeState, peers: seq<Address>)
    requires forall i :: 0 <= i < |peers| ==> Lookup(n.nextIndex, peers[i]) >= 0
    ensures Flat(FeedPeers(n, peers))
  {
    if |peers| > 0 { FeedPeersFlat(n, peers[1..]); }
  }

  lemma {:induction false} ApplyActionsFlat(n: NodeState, m: AppendRequest, i: int)
    ensures Flat(ApplyActions(n, m, i))
    decreases m.commit - i
  {
    if i < m.commit { ApplyActionsFlat(n, m, i + 1); }
  }

  lemma {:induction false} AdvanceActionsFlat(n: NodeState, i: int, upto: int)
    ensures Flat(AdvanceActions(n, i, upto))
    decreases upto - i
  {
    if i <= upto { AdvanceActionsFlat(n, i + 1, upto); }
  }

  /** A state change is handled without any further nesting. */
  lemma OnStateChangedFlat(n: NodeState)
    ensures Flat(OnStateChanged(n))
    ensures Level(OnStateChanged(n), n.role.Follower?) == 0
  {
    AskPeersFlat(n.peers, VoteRequestOf(n));
    GreetPeersFlat(n, n.peers);
    FlatLevel(OnStateChanged(n), n.role.Follower?);
  }

  lemma FollowerOnAppendEntriesFlat(n: NodeState, m: AppendRequest, now: int)
    ensures Flat(FollowerOnAppendEntries(n, m, now))
  {
    hide Flat, Rewind, AppendCrashes, Accepts, StoreActions, CommitActions, HeardActions;
    StoreActionsFlat(n, m);
    CommitActionsFlat(n, m);
    FlatConcat(StoreActions(n, m), CommitActions(n, m));
    HeardActionsFlat(n, m, now);
    var answer := Respond(AppendResult(AppendAnswer(n.address, Accepts(n, m), n.currentTerm)));
    PlainFlat(answer);
    PlainFlat(Crash);
    FlatConcat([answer], StoreActions(n, m) + CommitActions(n, m));
    FlatConcat(HeardActions(n, m, now), [answer]);
    FlatConcat(HeardActions(n, m, now), [answer] + (StoreActions(n, m) + CommitActions(n, m)));
  }

  lemma PlainFlat(a: Action)
    requires !a.SetState? && !a.Reprocess?
    ensures Flat([a])
  {
  }

  lemma FlatConcat(a: seq<Action>, b: seq<Action>)
    requires Flat(a) && Flat(b)
    ensures Flat(a + b)
  {
  }

  lemma StoreActionsFlat(n: NodeState, m: AppendRequest)
    ensures Flat(StoreActions(n, m))
  {
    hide Rewind, LastChange, Others, RecordOf;
  }

  lemma CommitActionsFlat(n: NodeState, m: AppendRequest)
    ensures Flat(CommitActions(n, m))
  {
    hide ApplyActions;
    ApplyActionsFlat(n, m, n.commitIndex + 1);
  }

  lemma HeardActionsFlat(n: NodeState, m: AppendRequest, now: int)
    ensures Flat(HeardActions(n, m, now))
  {
  }

  /** Stepping down to follower, then having the event handled again. */
  predicate Falls(h: seq<Action>) {
    || (|h| == 2 && h[0] == SetState(Follower) && h[1].Reprocess?)
    || (|h| == 3 && h[0].SetCurrentTerm? && h[1] == SetState(Follower) && h[2].Reprocess?)
  }

  /** Every list a handler returns has one of these forms. */
  predicate WellFormed(h: seq<Action>, ev: Event, follower: bool) {
    || Flat(h)
    || (|h| == 1 && h[0].SetState?)
    || (|h| == 2 && !IsControl(h[0]) && h[1].SetState?)
    || (Falls(h) && !follower && (ev.AppendEntries? || ev.RequestVote?))
  }

  lemma FollowerForm(n: NodeState, ev: Event, now: int)
    requires n.role.Follower?
    ensures WellFormed(Handle(n, ev, now), ev, true)
  {
    hide FollowerOnStateChanged, FollowerOnAppendEntries;
    if ev.StateChanged? {
      OnStateChangedFlat(n);
    } else if ev.AppendEntries? {
      FollowerOnAppendEntriesFlat(n, ev.append, now);
    }
  }

  lemma CandidateForm(n: NodeState, ev: Event, now: int)
    requires n.role.Candidate?
    ensures WellFormed(Handle(n, ev, now), ev, false)
  {
    hide CandidateOnStateChanged;
    if ev.StateChanged? { OnStateChangedFlat(n); }
  }

  lemma LeaderForm(n: NodeState, ev: Event, now: int)
    requires n.role.Leader?
    ensures WellFormed(Handle(n, ev, now), ev, false)
  {
    hide LeaderOnStateChanged, FeedPeers, AdvanceActions, NewCommit, ChangeEntry;
    if ev.StateChanged? {
      OnStateChangedFlat(n);
    } else if ev.Timeout? && !TimeoutCrashes(n) {
      FeedPeersFlat(n, n.peers);
    } else if ev.AppendReply? {
      AdvanceActionsFlat(n, n.lastApplied + 1, NewCommit(n, ev.ack.address));
    }
  }

  lemma HandleForm(n: NodeState, ev: Event, now: int)
    ensures WellFormed(Handle(n, ev, now), ev, n.role.Follower?)
  {
    hide Handle, WellFormed;
    match n.role
    case Follower => FollowerForm(n, ev, now);
    case Candidate => CandidateForm(n, ev, now);
    case Leader => LeaderForm(n, ev, now);
  }

  /** A follower never asks for reprocessing; a candidate or leader asks only after it has
      stepped down to follower. */
  lemma HandleLevel(n: NodeState, ev: Event, now: int)
    ensures n.role.Follower? ==> Level(Handle(n, ev, now), true) <= 1
    ensures Level(Handle(n, ev, now), false) <= 2
  {
    hide Handle, Level, Flat;
    HandleForm(n, ev, now);
    var h := Handle(n, ev, now);
    if Flat(h) {
      FlatLevel(h, true);
      FlatLevel(h, false);
    } else {
      ShortListLevel(h);
    }
  }

  lemma ShortListLevel(h: seq<Action>)
    ensures |h| == 1 && h[0].SetState? ==> Level(h, true) <= 1 && Level(h, false) <= 1
    ensures |h| == 2 && !IsControl(h[0]) && h[1].SetState? ==> Level(h, true) <= 1 && Level(h, false) <= 1
    ensures |h| == 2 && h[0] == SetState(Follower) && h[1].Reprocess? ==> Level(h, false) <= 2
    ensures |h| == 3 && !IsControl(h[0]) && h[1] == SetState(Follower) && h[2].Reprocess? ==> Level(h, false) <= 2
  {
    if |h| >= 1 { assert |h| == 1 ==> h[1..] == []; }
    if |h| >= 2 { assert h[1..][1..] == h[2..]; assert h[1..][0] == h[1]; }
    if |h| == 3 { assert h[2..][0] == h[2]; assert h[2..][1..] == []; }
  }

  // ----- the interpreter -----

  /** Carry out `actions` on behalf of event `ev`; `chan` says whether a reply channel is
      open. Once the process has died nothing further happens. */
  function Implement(actions: seq<Action>, ev: Event, chan: bool, n: NodeState, now: int): (o: Outcome)
    ensures Level(actions, n.role.Follower?) == 0 ==> o.node.role == n.role
    decreases Level(actions, n.role.Follower?), |actions|
  {
    if n.halted || |actions| == 0 then Outcome(n, [])
    else
      LevelDependence(actions[1..]);
      var first := First(actions, ev, chan, n, now);
      var rest := Implement(actions[1..], ev, chan, first.node, now);
      Outcome(rest.node, first.out + rest.out)
  }

  function First(actions: seq<Action>, ev: Event, chan: bool, n: NodeState, now: int): (o: Outcome)
    requires |actions| > 0
    ensures !actions[0].Reprocess? ==> o.node.role == if actions[0].SetState? then actions[0].role else n.role
    decreases Level(actions, n.role.Follower?), |actions|, 0
  {
    hide Handle, OnStateChanged, Perform;
    match actions[0]
    case SetState(r) =>
      OnStateChangedFlat(n.(role := r));
      Implement(OnStateChanged(n.(role := r)), StateChanged, false, n.(role := r), now)
    case Reprocess =>
      HandleLevel(n, ev, now);
      Implement(Handle(n, ev, now), ev, chan, n, now)
    case a => Perform(n, a, chan)
  }

  /** One event, from the handler's decision to its last effect. A dead process does nothing. */
  function React(n: NodeState, ev: Event, now: int): Outcome {
    if n.halted then Outcome(n, [])
    else Implement(Handle(n, ev, now), ev, IsRpc(ev), n, now)
  }

  // ----- start-up -----

  /** The node as its storage gives it back: term, vote, peers, configuration pointer and
      log survive, everything else starts afresh. */
  function Recovered(n: NodeState, lastHeard: int): NodeState {
    n.(role := Follower, voteCount := 0, commitIndex := -1, lastApplied := -1,
       nextIndex := Indices(n.peers, map[], 0), matchIndex := Indices(n.peers, map[], -1),
       leaderLastHeard := lastHeard, database := map[], halted := false)
  }

  /** Recover, enter the follower state, and run its entry actions. */
  function Restart(n: NodeState, lastHeard: int, now: int): Outcome {
    var r := Recovered(n, lastHeard);
    Implement(OnStateChanged(r), StateChanged, false, r, now)
  }

  /** A node on empty storage. */
  function Blank(a: Address, peers: seq<Address>, minElectionTimeout: int): NodeState {
    NodeState(Follower, a, 0, "", 0, -1, -1, peers,
              Indices(peers, map[], 0), Indices(peers, map[], -1),
              -1, -1, 0, minElectionTimeout, [], map[], false)
  }

  // ----- composing lists -----

  function Then(o: Outcome, rest: seq<Action>, ev: Event, chan: bool, now: int): Outcome {
    var r := Implement(rest, ev, chan, o.node, now);
    Outcome(r.node, o.out + r.out)
  }

  lemma Unfold(a: seq<Action>, ev: Event, chan: bool, n: NodeState, now: int)
    requires |a| > 0 && !n.halted
    ensures Implement(a, ev, chan, n, now) == Then(First(a, ev, chan, n, now), a[1..], ev, chan, now)
  {
    hide First;
  }

  /** One plain action, then the rest. */
  lemma UnfoldPlain(a: seq<Action>, ev: Event, chan: bool, n: NodeState, now: int)
    requires |a| > 0 && !n.halted && !IsControl(a[0])
    ensures Implement(a, ev, chan, n, now) == Then(Perform(n, a[0], chan), a[1..], ev, chan, now)
  {
    hide Implement, Perform;
    Unfold(a, ev, chan, n, now);
  }

  lemma Nothing(ev: Event, chan: bool, n: NodeState, now: int)
    ensures Implement([], ev, chan, n, now) == Outcome(n, [])
  {
  }

  lemma Dead(a: seq<Action>, ev: Event, chan: bool, n: NodeState, now: int)
    requires n.halted
    ensures Implement(a, ev, chan, n, now) == Outcome(n, [])
  {
  }

  lemma ThenThen(o: Outcome, p: Outcome, b: seq<Action>, ev: Event, chan: bool, now: int)
    ensures Outcome(Then(p, b, ev, chan, now).node, o.out + Then(p, b, ev, chan, now).out)
         == Then(Outcome(p.node, o.out + p.out), b, ev, chan, now)
  {
    hide Implement;
    var r := Implement(b, ev, chan, p.node, now);
    assert o.out + (p.out + r.out) == (o.out + p.out) + r.out;
  }

  /** Carrying out a list is carrying out its halves in turn. */
  lemma {:induction false} ImplementConcat(a: seq<Action>, b: seq<Action>, ev: Event, chan: bool, n: NodeState, now: int)
    ensures Implement(a + b, ev, chan, n, now) == Then(Implement(a, ev, chan, n, now), b, ev, chan, now)
    decreases |a|
  {
    if |a| == 0 {
      assert a + b == b;
    } else if !n.halted {
      hide Implement, First;
      assert (a + b)[0] == a[0] && (a + b)[1..] == a[1..] + b;
      Unfold(a, ev, chan, n, now);
      Unfold(a + b, ev, chan, n, now);
      FirstOf(a, a + b, ev, chan, n, now);
      var first := First(a, ev, chan, n, now);
      ImplementConcat(a[1..], b, ev, chan, first.node, now);
      ThenThen(first, Implement(a[1..], ev, chan, first.node, now), b, ev, chan, now);
    }
  }

  lemma FirstOf(a: seq<Action>, b: seq<Action>, ev: Event, chan: bool, n: NodeState, now: int)
    requires |a| > 0 && |b| > 0 && a[0] == b[0]
    ensures First(a, ev, chan, n, now) == First(b, ev, chan, n, now)
  {
    hide Implement, Handle, OnStateChanged, Perform;
  }

  lemma Cons(a: Action, rest: seq<Action>, ev: Event, chan: bool, n: NodeState, now: int)
    requires !n.halted && !IsControl(a)
    ensures Implement([a] + rest, ev, chan, n, now) == Then(Perform(n, a, chan), rest, ev, chan, now)
  {
    hide Implement, Perform;
    assert ([a] + rest)[1..] == rest;
    Unfold([a] + rest, ev, chan, n, now);
  }

  lemma Single(a: Action, ev: Event, chan: bool, n: NodeState, now: int)
    requires !n.halted && !IsControl(a)
    ensures Implement([a], ev, chan, n, now) == Perform(n, a, chan)
  {
    hide Perform;
    assert [a] == [a] + [];
    Cons(a, [], ev, chan, n, now);
  }

  /** One action that sends nothing, then the rest. */
  lemma ConsQuiet(a: Action, rest: seq<Action>, ev: Event, chan: bool, n: NodeState, k: NodeState, now: int)
    requires !n.halted && !IsControl(a) && Perform(n, a, chan) == Outcome(k, [])
    ensures Implement([a] + rest, ev, chan, n, now) == Implement(rest, ev, chan, k, now)
  {
    hide Implement, Perform;
    Cons(a, rest, ev, chan, n, now);
    assert [] + Implement(rest, ev, chan, k, now).out == Implement(rest, ev, chan, k, now).out;
  }
}
