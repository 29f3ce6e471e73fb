/** What a leader does on a timeout, a reply, a command, and a membership change, from the
    fields of the node and the message alone. */
module Leading {
  import opened Types
  import opened Rules
  import opened Interpreter
  import opened Reactions
  import opened Applying
  import opened Outcomes
  import opened Replay
  import opened Hearing
  import opened Reading

  // ----- feeding peers -----

  /** What a leader sends to a peer when it times out: everything from the peer's next index
      on, with the entry before it and its term, or an empty request that names its last entry
      and dates it in its own term. */
  ghost predicate SentTo(n: NodeState, peer: Address, m: AppendRequest) {
    var next := Lookup(n.nextIndex, peer);
    && m.term == n.currentTerm && m.leader == n.address && m.commit == n.commitIndex
    && if 0 <= next < |n.log| then
         && m.prevIndex == next - 1 && m.prevTerm == (if next == 0 then -1 else n.log[next - 1].term)
         && m.entries == n.log[next..]
       else
         m.prevIndex == |n.log| - 1 && m.prevTerm == n.currentTerm && m.entries == []
  }

  /** A leader that times out changes nothing and sends each peer, in order, its request - or
      dies, if some peer's next index is negative. */
  lemma LeaderFeeds(n: NodeState, now: int)
    requires !n.halted && n.role.Leader?
    ensures var o := React(n, Timeout, now);
            if exists i :: 0 <= i < |n.peers| && Lookup(n.nextIndex, n.peers[i]) < 0 then o == Outcome(n.(halted := true), [])
            else
              && o.node == n && |o.out| == |n.peers| + 1 && o.out[0] == Timer(true)
              && forall i :: 0 <= i < |n.peers| ==>
                   o.out[i + 1].AppendRpc? && o.out[i + 1].dest == n.peers[i] && SentTo(n, n.peers[i], o.out[i + 1].append)
  {
    hide React, FeedPeers, RequestFor, SentTo, Lookup;
    LeaderTimeout(n, now);
    if !TimeoutCrashes(n) {
      FeedPeersSent(n, n.peers);
      forall i | 0 <= i < |n.peers| ensures SentTo(n, n.peers[i], RequestFor(n, Lookup(n.nextIndex, n.peers[i]))) {
        RequestIs(n, n.peers[i]);
      }
    }
  }

  lemma RequestIs(n: NodeState, peer: Address)
    requires Lookup(n.nextIndex, peer) >= 0
    ensures SentTo(n, peer, RequestFor(n, Lookup(n.nextIndex, peer)))
  {
  }

  // ----- replies -----

  /** A reply means something to a leader only: a later term makes it step down, a refusal
      lowers the peer's next index by one. */
  lemma ReplyUncounted(n: NodeState, r: AppendAnswer, now: int)
    requires !n.halted && (!n.role.Leader? || r.term > n.currentTerm || !r.success)
    ensures React(n, AppendReply(r), now) ==
              if !n.role.Leader? then Outcome(n, [])
              else if r.term > n.currentTerm then
                Outcome(n.(role := Follower, currentTerm := r.term, votedFor := "", voteCount := 0), [Timer(false)])
              else
                Outcome(n.(nextIndex := n.nextIndex[r.address := (if r.address in n.nextIndex then n.nextIndex[r.address] else 0) - 1]), [])
  {
    hide React, Implement;
    AppendReplyOutcome(n, r, now);
  }

  /** The peer is taken to hold entry `at` when `responder` has just acknowledged: the responder
      by the leader's last index, any other by its match index. */
  predicate Holds(n: NodeState, peer: Address, responder: Address, at: int) {
    (if peer == responder then |n.log| - 1 else if peer in n.matchIndex then n.matchIndex[peer] else 0) >= at
  }

  /** The places in the list of peers where such a peer stands. */
  function HoldingAt(n: NodeState, peers: seq<Address>, responder: Address, at: int): set<int> {
    set i | 0 <= i < |peers| && Holds(n, peers[i], responder, at)
  }

  /** The leader and those that hold entry `at` are at least half of the cluster, and the
      entry is of the leader's own term. */
  ghost predicate MayCommit(n: NodeState, responder: Address, at: int) {
    0 <= at < |n.log| && n.log[at].term == n.currentTerm && 2 * (1 + |HoldingAt(n, n.peers, responder, at)|) >= |n.peers| + 1
  }

  lemma {:induction false} HeldCount(n: NodeState, peers: seq<Address>, responder: Address, at: int)
    ensures |HoldingAt(n, peers, responder, at)| == Holders(n, peers, responder, at)
    decreases |peers|
  {
    if |peers| == 0 {
      assert HoldingAt(n, peers, responder, at) == {};
    } else {
      var last := |peers| - 1;
      HeldCount(n, peers[..last], responder, at);
      HoldersLast(n, peers, responder, at);
      HeldLast(n, peers, responder, at);
    }
  }

  lemma HeldLast(n: NodeState, peers: seq<Address>, responder: Address, at: int)
    requires |peers| > 0
    ensures var last := |peers| - 1;
            |HoldingAt(n, peers, responder, at)|
            == |HoldingAt(n, peers[..last], responder, at)| + if Holds(n, peers[last], responder, at) then 1 else 0
  {
    hide Holds;
    var last := |peers| - 1;
    var before := HoldingAt(n, peers[..last], responder, at);
    assert HoldingAt(n, peers, responder, at) == before + if Holds(n, peers[last], responder, at) then {last} else {};
    assert last !in before;
  }

  lemma {:induction false} HoldersLast(n: NodeState, peers: seq<Address>, responder: Address, at: int)
    requires |peers| > 0
    ensures var last := |peers| - 1;
            Holders(n, peers, responder, at)
            == Holders(n, peers[..last], responder, at) + if Holds(n, peers[last], responder, at) then 1 else 0
    decreases |peers|
  {
    if |peers| > 1 {
      HoldersLast(n, peers[1..], responder, at);
      assert peers[1..][..|peers| - 2] == peers[..|peers| - 1][1..];
    }
  }

  lemma CommittableIff(n: NodeState, responder: Address, at: int)
    ensures Committable(n, responder, at) <==> MayCommit(n, responder, at)
  {
    hide HoldingAt;
    HeldCount(n, n.peers, responder, at);
  }

  /** The scan ends at the highest index that may be committed, if there is one. */
  lemma {:induction false} ScanHighest(n: NodeState, responder: Address, at: int, best: int)
    requires best < at
    ensures var c := Scan(n, responder, at, best);
            && (c == best || (at <= c < |n.log| && MayCommit(n, responder, c)))
            && forall x :: x > c && x >= at ==> !MayCommit(n, responder, x)
    decreases |n.log| - at
  {
    hide Committable, MayCommit;
    if at <= LastIndex(n) {
      CommittableIff(n, responder, at);
      ScanHighest(n, responder, at + 1, if Committable(n, responder, at) then at else best);
    } else {
      forall x | x >= at ensures !MayCommit(n, responder, x) { PastEnd(n, responder, x); }
    }
  }

  lemma PastEnd(n: NodeState, responder: Address, x: int)
    requires x >= |n.log|
    ensures !MayCommit(n, responder, x)
  {
  }

  /** A success reply of no later term. The leader takes the peer to hold its whole log and
      commits up to the highest entry past its commit index that may be committed, if any. It
      then applies the commands past its last-applied index up to there, in order, or dies of
      the first that does not decode. If its last-applied index is past its log it only adds
      one to it. */
  lemma ReplyCounted(n: NodeState, r: AppendAnswer, now: int) returns (c: int)
    requires !n.halted && n.role.Leader? && r.term <= n.currentTerm && r.success && n.lastApplied >= -1
    ensures c == n.commitIndex || (n.commitIndex < c < |n.log| && MayCommit(n, r.address, c))
    ensures forall x :: x > c && x > n.commitIndex ==> !MayCommit(n, r.address, x)
    ensures var o := React(n, AppendReply(r), now); var k := o.node;
            && o.out == []
            && k == n.(nextIndex := n.nextIndex[r.address := |n.log|], matchIndex := n.matchIndex[r.address := |n.log| - 1],
                       commitIndex := k.commitIndex, lastApplied := k.lastApplied, database := k.database, log := k.log,
                       halted := k.halted)
            && SameLog(n.log, k.log) && (!k.halted ==> k.commitIndex == c)
            && var upto := if 0 <= c < |n.log| then c + 1 else |n.log|;
               if n.lastApplied >= c then !k.halted && k.lastApplied == n.lastApplied && k.database == n.database && k.log == n.log
               else if n.lastApplied >= |n.log| then
                 !k.halted && k.lastApplied == n.lastApplied + 1 && k.database == n.database && k.log == n.log
               else
                 && (k.halted <==> exists x :: n.lastApplied < x < upto && n.log[x].kind == CommandEntry && n.log[x].payload.Opaque?)
                 && (!k.halted ==>
                       && k.lastApplied == (if c < |n.log| then c else |n.log|)
                       && (forall key :: ValueAfter(n.database, n.log, n.lastApplied + 1, upto, key, ValueIn(k.database, key)))
                       && (forall x :: 0 <= x < |n.log| && !(n.lastApplied < x < upto && n.log[x].kind == CommandEntry) ==>
                             k.log[x] == n.log[x])
                       && (forall x :: n.lastApplied < x < upto && n.log[x].kind == CommandEntry && n.log[x].payload.Machine? ==>
                             AnswersWith(n.database, n.log, n.lastApplied + 1, x, n.log[x].payload.command, k.log[x].result)))
  {
    hide React, Implement, NewCommit, AdvanceList, AppliedRange, Decodable, ValueAfter, AnswersWith, MayCommit;
    c := NewCommit(n, r.address);
    CommitHighest(n, r.address);
    CommitNotBack(n, r);
    SameLogSelf(n.log);
    LeaderApplies(n, r, now);
    AppendReplyOutcome(n, r, now);
    AcknowledgedRun(n, r, Acknowledged(n, r), now);
    if n.lastApplied < c && n.lastApplied < |n.log| {
      UndecodableIff(n.log, n.lastApplied + 1, Stop(n, c));
      var k := React(n, AppendReply(r), now).node;
      if !k.halted {
        AppliedCommit(Acknowledged(n, r), k, n.lastApplied + 1, Stop(n, c));
        AppliedMeans(Acknowledged(n, r), k, n.lastApplied + 1, Stop(n, c));
      }
    }
  }

  lemma AppliedCommit(n: NodeState, k: NodeState, i: nat, j: nat)
    requires i <= j <= |n.log| && AppliedRange(n, k, i, j)
    ensures k.commitIndex == n.commitIndex
  {
    hide Before;
  }

  lemma CommitHighest(n: NodeState, responder: Address)
    ensures var c := NewCommit(n, responder);
            && (c == n.commitIndex || (n.commitIndex < c < |n.log| && MayCommit(n, responder, c)))
            && forall x :: x > c && x > n.commitIndex ==> !MayCommit(n, responder, x)
  {
    hide Scan, MayCommit;
    ScanHighest(n, responder, n.commitIndex + 1, n.commitIndex);
  }

  // ----- clients -----

  /** A command is appended in the leader's term, and the ticket names its place. */
  lemma CommandTaken(n: NodeState, p: Payload, now: int)
    requires !n.halted && n.role.Leader?
    ensures React(n, Command(p), now)
         == Outcome(n.(log := n.log + [LogEntry(n.currentTerm, CommandEntry, p, "")]), [Answer(CheckLater(|n.log|, n.currentTerm))])
  {
    hide React;
    CommandOutcome(n, p, now);
  }
}
