/** Any number of nodes and the messages between them. A packet stays in the network once
    sent and may be delivered at any time, any number of times, or never. Besides what the
    nodes hold, the system carries a history that no node reads. */
module Network {
  import opened Types
  import opened Interpreter
  import opened Reactions
  import opened Effects

  /** A message on its way. `view` is the sender's log just after it sent the request,
      `routine` whether a timeout built it, `held` the follower's log just after it
      answered, `from` who answered: history, seen by no handler. An answer travels back on
      the connection of its request, so it is paired with it. */
  datatype Packet =
    | AppendPacket(dest: Address, append: AppendRequest, view: seq<LogEntry>, routine: bool)
    | VotePacket(dest: Address, vote: VoteRequest, view: seq<LogEntry>)
    | AppendAnswerPacket(dest: Address, ack: AppendAnswer, append: AppendRequest, view: seq<LogEntry>, routine: bool,
                         held: seq<LogEntry>)
    | VoteAnswerPacket(dest: Address, ballot: VoteAnswer, vote: VoteRequest, from: Address)

  /** Who led which term; each term's leader log as it last stood; who voted for whom in
      which term; and which grants each candidacy counted (voter and term asked for). */
  datatype History = History(
    leaders: set<(int, Address)>,
    leaderLog: map<int, seq<LogEntry>>,
    grants: set<(Address, int, Address)>,
    counted: map<(Address, int), seq<(Address, int)>>)

  datatype System = System(nodes: map<Address, NodeState>, net: set<Packet>, hist: History)

  /** What may happen next. */
  datatype Choice =
    | Tick(node: Address, now: int)
    | Deliver(packet: Packet, now: int)
    | Ask(node: Address, request: Event, now: int)
    | Reboot(node: Address, lastHeard: int, now: int)

  predicate Initial(s: System) {
    && s.net == {} && s.hist == History({}, map[], {}, map[])
    && forall a :: a in s.nodes ==>
         s.nodes[a] == Restart(Blank(a, s.nodes[a].peers, s.nodes[a].minElectionTimeout), s.nodes[a].leaderLastHeard, 0).node
  }

  function EventOf(p: Packet): Event {
    match p
    case AppendPacket(_, m, _, _) => AppendEntries(m)
    case VotePacket(_, m, _) => RequestVote(m)
    case AppendAnswerPacket(_, r, _, _, _, _) => AppendReply(r)
    case VoteAnswerPacket(_, r, _, _) => VoteReply(r)
  }

  /** The packet an output puts on the network, if any. An answer goes to whoever sent the
      request. */
  function Packed(o: Output, ev: Event, k: NodeState, cause: Option<Packet>): Option<Packet> {
    match o
    case AppendRpc(d, m) => Some(AppendPacket(d, m, k.log, ev.Timeout?))
    case VoteRpc(d, m) => Some(VotePacket(d, m, k.log))
    case Answer(AppendResult(r)) =>
      if cause.Some? && cause.value.AppendPacket? then
        var p := cause.value;
        Some(AppendAnswerPacket(p.append.leader, r, p.append, p.view, p.routine, k.log))
      else None
    case Answer(VoteResult(b)) =>
      if cause.Some? && cause.value.VotePacket? then Some(VoteAnswerPacket(cause.value.vote.candidate, b, cause.value.vote, k.address))
      else None
    case _ => None
  }

  function PacketsOf(out: seq<Output>, ev: Event, k: NodeState, cause: Option<Packet>): set<Packet> {
    set i | 0 <= i < |out| && Packed(out[i], ev, k, cause).Some? :: Packed(out[i], ev, k, cause).value
  }

  predicate Granted(out: seq<Output>) {
    exists i :: 0 <= i < |out| && out[i].Answer? && out[i].reply.VoteResult? && out[i].reply.ballot.granted
  }

  function VotesCast(n: NodeState, ev: Event, o: Outcome): set<(Address, int, Address)> {
    (if !n.role.Candidate? && o.node.role.Candidate? then {(n.address, o.node.currentTerm, n.address)} else {})
    + (if ev.RequestVote? && Granted(o.out) then {(n.address, ev.vote.term, ev.vote.candidate)} else {})
  }

  predicate Counts(n: NodeState, ev: Event) {
    !n.halted && n.role.Candidate? && ev.VoteReply? && ev.ballot.term <= n.currentTerm && ev.ballot.granted
  }

  /** The grants counted so far by `a` in its candidacy for term `t`. */
  function Tally(h: History, a: Address, t: int): seq<(Address, int)> {
    if (a, t) in h.counted then h.counted[(a, t)] else []
  }

  function Noted(h: History, n: NodeState, ev: Event, o: Outcome, cause: Option<Packet>): History {
    History(
      if o.node.role.Leader? then h.leaders + {(o.node.currentTerm, o.node.address)} else h.leaders,
      if o.node.role.Leader? then h.leaderLog[o.node.currentTerm := o.node.log] else h.leaderLog,
      h.grants + VotesCast(n, ev, o),
      if Counts(n, ev) && cause.Some? && cause.value.VoteAnswerPacket? then
        h.counted[(n.address, n.currentTerm) := Tally(h, n.address, n.currentTerm) + [(cause.value.from, cause.value.vote.term)]]
      else h.counted)
  }

  /** One event at one node. */
  function Fire(s: System, a: Address, ev: Event, now: int, cause: Option<Packet>): System
    requires a in s.nodes
  {
    var n := s.nodes[a];
    var o := React(n, ev, now);
    System(s.nodes[a := o.node], s.net + PacketsOf(o.out, ev, o.node, cause), Noted(s.hist, n, ev, o, cause))
  }

  /** What a choice does to a node, when it does anything. */
  function EventFor(c: Choice): Event
    requires !c.Reboot?
  {
    match c
    case Tick(_, _) => Timeout
    case Deliver(p, _) => EventOf(p)
    case Ask(_, ev, _) => ev
  }

  function Target(c: Choice): Address {
    match c
    case Tick(a, _) => a
    case Deliver(p, _) => p.dest
    case Ask(a, _, _) => a
    case Reboot(a, _, _) => a
  }

  predicate Enabled(s: System, c: Choice) {
    && Target(c) in s.nodes
    && (c.Deliver? ==> c.packet in s.net)
    && (c.Ask? ==> IsClient(c.request))
  }

  function CauseOf(c: Choice): Option<Packet> {
    if c.Deliver? then Some(c.packet) else None
  }

  /** The system after a choice; a choice that is not possible changes nothing. */
  function Next(s: System, c: Choice): System {
    if !Enabled(s, c) then s
    else if c.Reboot? then s.(nodes := s.nodes[c.node := Restart(s.nodes[c.node], c.lastHeard, c.now).node])
    else Fire(s, Target(c), EventFor(c), c.now, CauseOf(c))
  }

  /** The system after a run. */
  function After(s: System, run: seq<Choice>): System {
    if |run| == 0 then s else Next(After(s, run[..|run| - 1]), run[|run| - 1])
  }

  // ----- what one choice changes -----

  /** The parts of a step every invariant proof starts from. */
  lemma StepOf(s: System, c: Choice)
    requires Enabled(s, c) && !c.Reboot?
    ensures !EventFor(c).StateChanged?
    ensures var n := s.nodes[Target(c)]; var o := React(n, EventFor(c), c.now); var s' := Next(s, c);
            && s'.nodes == s.nodes[Target(c) := o.node]
            && s'.hist == Noted(s.hist, n, EventFor(c), o, CauseOf(c))
            && s'.net == s.net + PacketsOf(o.out, EventFor(c), o.node, CauseOf(c))
  {
    hide React;
  }

  lemma SameKeys(s: System, c: Choice)
    ensures Next(s, c).nodes.Keys == s.nodes.Keys
  {
    hide React, Restart, PacketsOf, Noted;
  }

  lemma UntouchedNode(s: System, c: Choice, a: Address)
    requires a in s.nodes && (!Enabled(s, c) || a != Target(c))
    ensures a in Next(s, c).nodes && Next(s, c).nodes[a] == s.nodes[a]
  {
    hide React, Restart, PacketsOf, Noted;
  }

  lemma DeadStep(n: NodeState, ev: Event, now: int)
    requires n.halted
    ensures React(n, ev, now) == Outcome(n, [])
  {
  }

  /** A packet that is new after a step comes from one output of it. */
  lemma NewPacket(s: System, c: Choice, p: Packet) returns (i: int)
    requires Enabled(s, c) && !c.Reboot? && p in Next(s, c).net && p !in s.net
    ensures var n := s.nodes[Target(c)]; var o := React(n, EventFor(c), c.now);
            && !n.halted && 0 <= i < |o.out|
            && OutputHolds(n, EventFor(c), o.node, o.out[i], c.now)
            && Packed(o.out[i], EventFor(c), o.node, CauseOf(c)) == Some(p)
  {
    hide React, OutputHolds;
    var n := s.nodes[Target(c)];
    var o := React(n, EventFor(c), c.now);
    StepOf(s, c);
    if n.halted { DeadStep(n, EventFor(c), c.now); }
    i :| 0 <= i < |o.out| && Packed(o.out[i], EventFor(c), o.node, CauseOf(c)) == Some(p);
    Outputs(n, EventFor(c), c.now);
  }
}
