/** The data a Raft node handles: log entries, the node's state, the messages it
    receives, and the actions a rule handler asks the executor to carry out. */
module Types {

  datatype Option<+T> = None | Some(value: T)

  /** A network address, e.g. "localhost:10000". The empty string stands for "nobody". */
  type Address = string

  datatype Role = Follower | Candidate | Leader

  // ----- log entries -----

  datatype Kind = CommandEntry | AddServerEntry | RemoveServerEntry | NoOpEntry

  /** The command format of the bundled key-value state machine. */
  datatype MachineCommand = MachineCommand(operation: string, key: string, value: string)

  /** What a leader records about the cluster when it appends a membership change. */
  datatype ClusterRecord = ClusterRecord(oldIndex: int, oldTerm: int, oldCluster: seq<Address>, newCluster: seq<Address>)

  /** The command bytes of an entry, after their (lossless) JSON encoding is undone.
      `Opaque` stands for bytes that are no JSON object, such as the empty slice. */
  datatype Payload = Opaque | Machine(command: MachineCommand) | Cluster(record: ClusterRecord)

  datatype LogEntry = LogEntry(term: int, kind: Kind, payload: Payload, result: string)

  predicate IsClusterChange(e: LogEntry) {
    e.kind == AddServerEntry || e.kind == RemoveServerEntry
  }

  /** The record an entry yields. A failed decoding is ignored and leaves the zero record. */
  function RecordOf(p: Payload): ClusterRecord {
    if p.Cluster? then p.record else ClusterRecord(0, 0, [], [])
  }

  /** The machine command an entry yields. A record object shares no field with a
      command, so it decodes to the zero command; opaque bytes do not decode. */
  function CommandOf(p: Payload): Option<MachineCommand> {
    match p
    case Opaque => None
    case Machine(c) => Some(c)
    case Cluster(_) => Some(MachineCommand("", "", ""))
  }

  /** Entry `i` of a log; nothing outside `0..|log|`. */
  function Get(log: seq<LogEntry>, i: int): Option<LogEntry> {
    if 0 <= i < |log| then Some(log[i]) else None
  }

  /** Two entries agree when they differ at most in their node-local result. */
  predicate Same(e: LogEntry, f: LogEntry) {
    e.term == f.term && e.kind == f.kind && e.payload == f.payload
  }

  /** Two logs agree on their first `k` entries. */
  ghost predicate AgreeUpTo(a: seq<LogEntry>, b: seq<LogEntry>, k: int) {
    k <= |a| && k <= |b| && forall i :: 0 <= i < k ==> Same(a[i], b[i])
  }

  /** Two entries do the same when applied; they may be of different terms. */
  predicate Alike(e: LogEntry, f: LogEntry) {
    e.kind == f.kind && e.payload == f.payload
  }

  /** The first `k` entries of two logs do the same. */
  ghost predicate AlikeUpTo(a: seq<LogEntry>, b: seq<LogEntry>, k: int) {
    k <= |a| && k <= |b| && forall i :: 0 <= i < k ==> Alike(a[i], b[i])
  }

  /** Two logs are the same except for results. */
  ghost predicate SameLog(a: seq<LogEntry>, b: seq<LogEntry>) {
    |a| == |b| && AgreeUpTo(a, b, |a|)
  }

  lemma SameLogSelf(log: seq<LogEntry>)
    ensures SameLog(log, log)
  {
  }

  // ----- the node -----

  /** Everything one node holds: the fields of its status, its log, the database of its
      state machine, and whether its process has died of a panic. */
  datatype NodeState = NodeState(
    role: Role,
    address: Address,
    currentTerm: int,
    votedFor: Address,
    voteCount: int,
    commitIndex: int,
    lastApplied: int,
    peers: seq<Address>,
    nextIndex: map<Address, int>,
    matchIndex: map<Address, int>,
    changeIndex: int,
    changeTerm: int,
    leaderLastHeard: int,
    minElectionTimeout: int,
    log: seq<LogEntry>,
    database: map<string, string>,
    halted: bool)

  function LastIndex(n: NodeState): int {
    |n.log| - 1
  }

  /** Reading a Go map: an absent key reads as zero. */
  function Lookup(m: map<Address, int>, a: Address): int {
    if a in m then m[a] else 0
  }

  /** One index per peer: what is known of a peer is kept, a new peer starts afresh, and
      nobody else keeps any. */
  function Indices(peers: seq<Address>, known: map<Address, int>, start: int): (r: map<Address, int>)
    ensures forall a :: a in r <==> a in peers
    ensures forall a :: a in peers ==> r[a] == if a in known then known[a] else start
  {
    if |peers| == 0 then map[]
    else
      var last := peers[|peers| - 1];
      Indices(peers[..|peers| - 1], known, start)[last := if last in known then known[last] else start]
  }

  // ----- messages -----

  datatype AppendRequest = AppendRequest(
    term: int, leader: Address, prevIndex: int, prevTerm: int, entries: seq<LogEntry>, commit: int)

  datatype VoteRequest = VoteRequest(term: int, candidate: Address, lastIndex: int, lastTerm: int)

  datatype AppendAnswer = AppendAnswer(address: Address, success: bool, term: int)

  datatype VoteAnswer = VoteAnswer(address: Address, granted: bool, term: int)

  /** What can happen to a node. */
  datatype Event =
    | StateChanged
    | Timeout
    | AppendEntries(append: AppendRequest)
    | RequestVote(vote: VoteRequest)
    | AddServer(newServer: Address)
    | RemoveServer(oldServer: Address)
    | Command(payload: Payload)
    | Probe(index: int, term: int)
    | AppendReply(ack: AppendAnswer)
    | VoteReply(ballot: VoteAnswer)

  /** Events that arrive through the transport and carry a reply channel. */
  predicate IsRpc(ev: Event) {
    ev.AppendEntries? || ev.RequestVote? || ev.AddServer? || ev.RemoveServer? || ev.Command? || ev.Probe?
  }

  datatype Reply =
    | NotLeader
    | CheckLater(index: int, term: int)
    | Failed(reason: string)
    | Completed(result: string)
    | VoteResult(ballot: VoteAnswer)
    | AppendResult(ack: AppendAnswer)

  // ----- actions -----

  /** What a rule handler can ask for. `Crash` stands for a handler that panics, or
      never returns, before the executor gets any list. */
  datatype Action =
    | SetState(role: Role)
    | SetCurrentTerm(term: int)
    | SetVotedFor(candidate: Address)
    | SetVoteCount(count: int)
    | SetCommitIndex(index: int)
    | SetLastApplied(index: int)
    | IncludeServer(server: Address)
    | ExcludeServer(server: Address)
    | SetPeers(peers: seq<Address>)
    | SetNextIndex(peer: Address, index: int)
    | SetMatchIndex(peer: Address, index: int)
    | SetClusterChange(index: int, term: int)
    | SetLeaderLastHeard(instant: int)
    | ResetTimer(halfTime: bool)
    | AppendLog(entries: seq<LogEntry>)
    | DeleteLog(count: int)
    | ApplyEntry(index: int)
    | SendAppend(dest: Address, append: AppendRequest)
    | SendVote(dest: Address, vote: VoteRequest)
    | Respond(reply: Reply)
    | Reprocess
    | Crash

  // ----- what leaves a node -----

  datatype Output =
    | Answer(reply: Reply)
    | AppendRpc(dest: Address, append: AppendRequest)
    | VoteRpc(dest: Address, vote: VoteRequest)
    | Timer(halfTime: bool)

  datatype Outcome = Outcome(node: NodeState, out: seq<Output>)
}
