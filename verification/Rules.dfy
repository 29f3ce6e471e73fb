/** The Raft rules: one function per (role, event), from the node as it stands to the
    list of actions the executor is to carry out. */
module Rules {
  import opened Types

  // =================================================================
  // Follower
  // =================================================================

  function FollowerOnStateChanged(n: NodeState): seq<Action> {
    [SetVotedFor(""), SetVoteCount(0), ResetTimer(false)]
  }

  /** Where the search for the configuration that survives a truncation stands. */
  datatype Rewound = Rewound(index: int, term: int, cluster: seq<Address>, moved: bool) | Stuck

  function Indexes(log: seq<LogEntry>): set<int> {
    set i | 0 <= i < |log| && Get(log, i).Some?
  }

  /** Follow the records back until the change lies at or before `prev`. There is no list
      when the search meets a missing entry (a nil dereference) or comes back to an entry it
      has `seen` (it then goes round for ever). */
  function Search(log: seq<LogEntry>, prev: int, cur: Rewound, seen: set<int>): Rewound
    requires cur.Rewound?
    decreases |Indexes(log) - seen|
  {
    if cur.index <= prev then cur
    else
      match Get(log, cur.index)
      case None => Stuck
      case Some(e) =>
        if cur.index in seen then Stuck
        else
          var r := RecordOf(e.payload);
          assert Indexes(log) - (seen + {cur.index}) == Indexes(log) - seen - {cur.index};
          Search(log, prev, Rewound(r.oldIndex, r.oldTerm, r.oldCluster, true), seen + {cur.index})
  }

  function Rewind(log: seq<LogEntry>, prev: int, cur: Rewound): Rewound
    requires cur.Rewound?
  {
    Search(log, prev, cur, {})
  }

  function Recorded(n: NodeState): Rewound {
    Rewound(n.changeIndex, n.changeTerm, n.peers + [n.address], false)
  }

  /** The addresses of `cluster` other than `self`, in order. */
  function Others(cluster: seq<Address>, self: Address): seq<Address> {
    if |cluster| == 0 then []
    else (if cluster[0] != self then [cluster[0]] else []) + Others(cluster[1..], self)
  }

  /** Position of the last membership change among `entries`, or -1. */
  function LastChange(entries: seq<LogEntry>): (i: int)
    ensures -1 <= i < |entries|
    ensures i >= 0 ==> IsClusterChange(entries[i])
    ensures forall j :: i < j < |entries| ==> !IsClusterChange(entries[j])
  {
    if |entries| == 0 then -1
    else if IsClusterChange(entries[|entries| - 1]) then |entries| - 1
    else LastChange(entries[..|entries| - 1])
  }

  function RewindActions(n: NodeState, r: Rewound): seq<Action>
    requires r.Rewound?
  {
    if r.moved then [SetClusterChange(r.index, r.term), SetPeers(Others(r.cluster, n.address))] else []
  }

  function AdoptActions(n: NodeState, m: AppendRequest): seq<Action> {
    var i := LastChange(m.entries);
    if i < 0 then []
    else [SetClusterChange(m.prevIndex + i + 1, m.entries[i].term),
          SetPeers(Others(RecordOf(m.entries[i].payload).newCluster, n.address))]
  }

  /** Truncate after the agreed prefix, fall back to the configuration that survives,
      append what was sent, and take over the last configuration in it. */
  function StoreActions(n: NodeState, m: AppendRequest): seq<Action> {
    if |m.entries| == 0 then []
    else
      var r := Rewind(n.log, m.prevIndex, Recorded(n));
      if r.Stuck? then [Crash]
      else
        [DeleteLog(LastIndex(n) - m.prevIndex)] + RewindActions(n, r)
        + [AppendLog(m.entries)] + AdoptActions(n, m)
  }

  /** Where the follower reads entry `i` from while it walks to the leader's commit index. */
  function EntryFor(n: NodeState, m: AppendRequest, i: int): Option<LogEntry> {
    if i <= m.prevIndex then Get(n.log, i) else Get(m.entries, i - m.prevIndex - 1)
  }

  function ApplyActions(n: NodeState, m: AppendRequest, i: int): seq<Action>
    decreases m.commit - i
  {
    if i >= m.commit then []
    else
      var e := EntryFor(n, m, i);
      (if e.Some? && e.value.kind == CommandEntry then [ApplyEntry(i)] else []) + ApplyActions(n, m, i + 1)
  }

  function Min(a: int, b: int): int { if a <= b then a else b }

  function Max(a: int, b: int): int { if a >= b then a else b }

  function CommitActions(n: NodeState, m: AppendRequest): seq<Action> {
    if m.commit > n.commitIndex then
      [SetCommitIndex(Min(m.commit, m.prevIndex + |m.entries|))] + ApplyActions(n, m, n.commitIndex + 1)
    else []
  }

  /** The handler dies while it builds the list: the configuration search gets stuck, or the
      apply loop reads outside the follower's log and the message. */
  predicate AppendCrashes(n: NodeState, m: AppendRequest) {
    || (|m.entries| > 0 && Rewind(n.log, m.prevIndex, Recorded(n)).Stuck?)
    || exists i :: n.commitIndex < i < m.commit && EntryFor(n, m, i).None?
  }

  /** The consistency check of section 5.3 of the Raft paper. */
  predicate Accepts(n: NodeState, m: AppendRequest) {
    && m.term >= n.currentTerm
    && var e := Get(n.log, m.prevIndex);
       if e.None? then m.prevIndex == -1 else e.value.term == m.prevTerm
  }

  function HeardActions(n: NodeState, m: AppendRequest, now: int): seq<Action> {
    [ResetTimer(false), SetLeaderLastHeard(now)]
    + (if m.term > n.currentTerm then [SetCurrentTerm(m.term)] else [])
  }

  function FollowerOnAppendEntries(n: NodeState, m: AppendRequest, now: int): seq<Action> {
    var answer := AppendAnswer(n.address, Accepts(n, m), n.currentTerm);
    if !Accepts(n, m) then HeardActions(n, m, now) + [Respond(AppendResult(answer))]
    else if AppendCrashes(n, m) then [Crash]
    else HeardActions(n, m, now) + ([Respond(AppendResult(answer))] + (StoreActions(n, m) + CommitActions(n, m)))
  }

  /** The candidate's log is at least as up to date (section 5.4.1 of the Raft paper). */
  predicate UpToDate(n: NodeState, m: VoteRequest) {
    var e := Get(n.log, LastIndex(n));
    e.None? || m.lastTerm > e.value.term || (m.lastTerm == e.value.term && m.lastIndex >= LastIndex(n))
  }

  predicate RecentlyHeard(n: NodeState, now: int) {
    now - n.leaderLastHeard < n.minElectionTimeout
  }

  predicate GrantsVote(n: NodeState, m: VoteRequest, now: int) {
    && !RecentlyHeard(n, now)
    && m.term >= n.currentTerm
    && (n.votedFor == "" || n.votedFor == m.candidate)
    && UpToDate(n, m)
  }

  function FollowerOnRequestVote(n: NodeState, m: VoteRequest, now: int): seq<Action> {
    if RecentlyHeard(n, now) then [Respond(VoteResult(VoteAnswer("", false, n.currentTerm)))]
    else if m.term < n.currentTerm then [Respond(VoteResult(VoteAnswer("", false, n.currentTerm)))]
    else
      (if m.term > n.currentTerm then [SetCurrentTerm(m.term)] else [])
      + (if GrantsVote(n, m, now)
         then [Respond(VoteResult(VoteAnswer(n.address, true, n.currentTerm))), SetVotedFor(m.candidate)]
         else [Respond(VoteResult(VoteAnswer(n.address, false, n.currentTerm)))])
  }

  // =================================================================
  // Candidate
  // =================================================================

  function VoteRequestOf(n: NodeState): VoteRequest {
    var e := Get(n.log, LastIndex(n));
    VoteRequest(n.currentTerm + 1, n.address,
                if e.Some? then LastIndex(n) else -1,
                if e.Some? then e.value.term else -1)
  }

  function AskPeers(peers: seq<Address>, m: VoteRequest): seq<Action> {
    if |peers| == 0 then [] else [SendVote(peers[0], m)] + AskPeers(peers[1..], m)
  }

  function CandidateOnStateChanged(n: NodeState): seq<Action> {
    [SetCurrentTerm(n.currentTerm + 1), SetVotedFor(n.address), SetVoteCount(1), ResetTimer(false)]
    + AskPeers(n.peers, VoteRequestOf(n))
  }

  function CandidateOnAppendEntries(n: NodeState, m: AppendRequest): seq<Action> {
    if m.term < n.currentTerm then [Respond(AppendResult(AppendAnswer(n.address, false, n.currentTerm)))]
    else [SetCurrentTerm(m.term), SetState(Follower), Reprocess]
  }

  function CandidateOnRequestVote(n: NodeState, m: VoteRequest): seq<Action> {
    if m.term > n.currentTerm then [SetCurrentTerm(m.term), SetState(Follower), Reprocess]
    else [Respond(VoteResult(VoteAnswer(n.address, false, n.currentTerm)))]
  }

  /** The election test: twice the votes against the number of peers. */
  predicate Elected(votes: int, peerCount: int) {
    2 * votes > peerCount
  }

  function CandidateOnRequestVoteReply(n: NodeState, r: VoteAnswer): seq<Action> {
    if r.term > n.currentTerm then [SetCurrentTerm(r.term), SetState(Follower)]
    else if !r.granted then []
    else [SetVoteCount(n.voteCount + 1)] + (if Elected(n.voteCount + 1, |n.peers|) then [SetState(Leader)] else [])
  }

  // =================================================================
  // Leader
  // =================================================================

  function NoOp(term: int): LogEntry {
    LogEntry(term, NoOpEntry, Opaque, "")
  }

  /** The first heartbeat of a leadership. It pairs the last index before the
      no-operation entry with the leader's own term. */
  function OpeningHeartbeat(n: NodeState): AppendRequest {
    AppendRequest(n.currentTerm, n.address, LastIndex(n), n.currentTerm, [], n.commitIndex)
  }

  function GreetPeers(n: NodeState, peers: seq<Address>): seq<Action> {
    if |peers| == 0 then []
    else [SetNextIndex(peers[0], LastIndex(n) + 1), SetMatchIndex(peers[0], 0),
          SendAppend(peers[0], OpeningHeartbeat(n))] + GreetPeers(n, peers[1..])
  }

  function LeaderOnStateChanged(n: NodeState): seq<Action> {
    [AppendLog([NoOp(n.currentTerm)])] + (GreetPeers(n, n.peers) + [ResetTimer(true)])
  }

  function LeaderOnAppendEntries(n: NodeState, m: AppendRequest): seq<Action> {
    if m.term > n.currentTerm then [SetState(Follower), Reprocess] else []
  }

  function LeaderOnRequestVote(n: NodeState, m: VoteRequest): seq<Action> {
    if m.term > n.currentTerm then [SetState(Follower), Reprocess]
    else [Respond(VoteResult(VoteAnswer(n.address, false, n.currentTerm)))]
  }

  /** A membership change may start: the previous one is committed and something of the
      current term is committed. */
  predicate MayChange(n: NodeState) {
    && n.commitIndex >= n.changeIndex
    && var e := Get(n.log, n.commitIndex); e.Some? && e.value.term == n.currentTerm
  }

  function RefuseChange(n: NodeState): seq<Action> {
    if n.commitIndex < n.changeIndex then [Respond(Failed("previous change in progress"))]
    else [Respond(Failed("did not commit anything on current term yet"))]
  }

  /** The entry a leader appends for a change to `newCluster`; both kinds of change are
      recorded under the same entry kind. */
  function ChangeEntry(n: NodeState, newCluster: seq<Address>): LogEntry {
    LogEntry(n.currentTerm, AddServerEntry,
             Cluster(ClusterRecord(n.changeIndex, n.changeTerm, n.peers + [n.address], newCluster)), "")
  }

  function Ticket(n: NodeState): Reply {
    CheckLater(LastIndex(n) + 1, n.currentTerm)
  }

  function LeaderOnAddServer(n: NodeState, server: Address): seq<Action> {
    if !MayChange(n) then RefuseChange(n)
    else [IncludeServer(server), AppendLog([ChangeEntry(n, n.peers + [n.address, server])]), Respond(Ticket(n))]
  }

  function LeaderOnRemoveServer(n: NodeState, server: Address): seq<Action> {
    if !MayChange(n) then RefuseChange(n)
    else [ExcludeServer(server), AppendLog([ChangeEntry(n, Others(n.peers + [n.address], server))]), Respond(Ticket(n))]
  }

  /** What a timed-out leader sends to a peer whose next index is `next`. */
  function RequestFor(n: NodeState, next: int): AppendRequest
    requires 0 <= next
  {
    if LastIndex(n) >= next then
      var e := Get(n.log, next - 1);
      AppendRequest(n.currentTerm, n.address, next - 1, if e.Some? then e.value.term else -1,
                    n.log[next..], n.commitIndex)
    else AppendRequest(n.currentTerm, n.address, LastIndex(n), n.currentTerm, [], n.commitIndex)
  }

  /** A negative next index makes the leader dereference an entry that is not there. */
  predicate TimeoutCrashes(n: NodeState) {
    exists i :: 0 <= i < |n.peers| && Lookup(n.nextIndex, n.peers[i]) < 0
  }

  function FeedPeers(n: NodeState, peers: seq<Address>): seq<Action>
    requires forall i :: 0 <= i < |peers| ==> Lookup(n.nextIndex, peers[i]) >= 0
  {
    if |peers| == 0 then []
    else [SendAppend(peers[0], RequestFor(n, Lookup(n.nextIndex, peers[0])))] + FeedPeers(n, peers[1..])
  }

  function LeaderOnTimeout(n: NodeState): seq<Action> {
    if TimeoutCrashes(n) then [Crash] else [ResetTimer(true)] + FeedPeers(n, n.peers)
  }

  function LeaderOnStateMachineCommand(n: NodeState, p: Payload): seq<Action> {
    [AppendLog([LogEntry(n.currentTerm, CommandEntry, p, "")]), Respond(Ticket(n))]
  }

  function LeaderOnStateMachineProbe(n: NodeState, index: int, term: int): seq<Action> {
    match Get(n.log, index)
    case None => [Respond(Failed("not in log"))]
    case Some(e) =>
      if n.lastApplied < index then [Respond(CheckLater(index, term))]
      else if term != e.term then [Respond(Failed("overwritten"))]
      else [Respond(Completed(e.result))]
  }

  /** How many of `peers` hold entry `at`, when `responder` is known to hold everything. */
  function Holders(n: NodeState, peers: seq<Address>, responder: Address, at: int): nat {
    if |peers| == 0 then 0
    else
      var held := if peers[0] == responder then LastIndex(n) else Lookup(n.matchIndex, peers[0]);
      (if held >= at then 1 else 0) + Holders(n, peers[1..], responder, at)
  }

  /** ceil((p + 1) / 2): half of an even-sized cluster counts as a majority. */
  function Majority(peerCount: nat): nat {
    (peerCount + 2) / 2
  }

  predicate Committable(n: NodeState, responder: Address, at: int) {
    && 1 + Holders(n, n.peers, responder, at) >= Majority(|n.peers|)
    && var e := Get(n.log, at); e.Some? && e.value.term == n.currentTerm
  }

  /** Walk upwards from `at`; the last committable index wins. */
  function Scan(n: NodeState, responder: Address, at: int, best: int): int
    decreases LastIndex(n) - at
  {
    if at > LastIndex(n) then best
    else Scan(n, responder, at + 1, if Committable(n, responder, at) then at else best)
  }

  function NewCommit(n: NodeState, responder: Address): int {
    Scan(n, responder, n.commitIndex + 1, n.commitIndex)
  }

  /** Advance over entries `i..=upto`, applying the commands; stop at a missing entry. */
  function AdvanceActions(n: NodeState, i: int, upto: int): seq<Action>
    decreases upto - i
  {
    if i > upto then []
    else
      match Get(n.log, i)
      case None => [SetLastApplied(i)]
      case Some(e) =>
        [SetLastApplied(i)] + ((if e.kind == CommandEntry then [ApplyEntry(i)] else [])
        + AdvanceActions(n, i + 1, upto))
  }

  function LeaderOnAppendEntriesReply(n: NodeState, r: AppendAnswer): seq<Action> {
    if r.term > n.currentTerm then [SetCurrentTerm(r.term), SetState(Follower)]
    else if !r.success then [SetNextIndex(r.address, Lookup(n.nextIndex, r.address) - 1)]
    else
      var c := NewCommit(n, r.address);
      [SetNextIndex(r.address, LastIndex(n) + 1), SetMatchIndex(r.address, LastIndex(n))]
      + ((if c > n.commitIndex then [SetCommitIndex(c)] else [])
      + AdvanceActions(n, n.lastApplied + 1, c))
  }

  // =================================================================
  // Dispatch
  // =================================================================

  function OnStateChanged(n: NodeState): seq<Action> {
    match n.role
    case Follower => FollowerOnStateChanged(n)
    case Candidate => CandidateOnStateChanged(n)
    case Leader => LeaderOnStateChanged(n)
  }

  function FollowerOn(n: NodeState, ev: Event, now: int): seq<Action> {
    match ev
    case StateChanged => FollowerOnStateChanged(n)
    case Timeout => [SetState(Candidate)]
    case AppendEntries(m) => FollowerOnAppendEntries(n, m, now)
    case RequestVote(m) => FollowerOnRequestVote(n, m, now)
    case AppendReply(_) => []
    case VoteReply(_) => []
    case _ => [Respond(NotLeader)]
  }

  function CandidateOn(n: NodeState, ev: Event, now: int): seq<Action> {
    match ev
    case StateChanged => CandidateOnStateChanged(n)
    case Timeout => [SetState(Follower)]
    case AppendEntries(m) => CandidateOnAppendEntries(n, m)
    case RequestVote(m) => CandidateOnRequestVote(n, m)
    case AppendReply(_) => []
    case VoteReply(r) => CandidateOnRequestVoteReply(n, r)
    case _ => [Respond(NotLeader)]
  }

  function LeaderOn(n: NodeState, ev: Event, now: int): seq<Action> {
    match ev
    case StateChanged => LeaderOnStateChanged(n)
    case Timeout => LeaderOnTimeout(n)
    case AppendEntries(m) => LeaderOnAppendEntries(n, m)
    case RequestVote(m) => LeaderOnRequestVote(n, m)
    case AddServer(a) => LeaderOnAddServer(n, a)
    case RemoveServer(a) => LeaderOnRemoveServer(n, a)
    case Command(p) => LeaderOnStateMachineCommand(n, p)
    case Probe(i, t) => LeaderOnStateMachineProbe(n, i, t)
    case AppendReply(r) => LeaderOnAppendEntriesReply(n, r)
    case VoteReply(_) => []
  }

  /** The handler in charge of an event, given the node's role. */
  function Handle(n: NodeState, ev: Event, now: int): seq<Action> {
    match n.role
    case Follower => FollowerOn(n, ev, now)
    case Candidate => CandidateOn(n, ev, now)
    case Leader => LeaderOn(n, ev, now)
  }
}
