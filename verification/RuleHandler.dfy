/** The handlers that loop, as they loop: each builds the list of actions its rule says. A
    handler sees a read-only snapshot of status and log. */
module RuleHandler {
  import opened Types
  import Rules

  // ----- follower -----

  /** The `for !stabilized` loop: which configuration survives a truncation. `seen` is there
      to answer when the loop would never end. */
  method FindSurviving(n: NodeState, prev: int) returns (r: Rules.Rewound)
    ensures r == Rules.Rewind(n.log, prev, Rules.Recorded(n))
  {
    var changed, stabilized := false, false;
    var index, term, cluster := n.changeIndex, n.changeTerm, n.peers + [n.address];
    var seen: set<int> := {};
    while !stabilized
      invariant Rules.Search(n.log, prev, Rules.Rewound(index, term, cluster, changed), seen)
             == Rules.Rewind(n.log, prev, Rules.Recorded(n))
      invariant stabilized ==> index <= prev
      decreases !stabilized, |Rules.Indexes(n.log) - seen|
    {
      stabilized := true;
      if index > prev {
        stabilized := false;
        changed := true;
        var entry := Get(n.log, index);
        if entry.None? || index in seen {
          return Rules.Stuck;
        }
        assert Rules.Indexes(n.log) - (seen + {index}) == Rules.Indexes(n.log) - seen - {index};
        seen := seen + {index};
        var record := RecordOf(entry.value.payload);
        index, term, cluster := record.oldIndex, record.oldTerm, record.oldCluster;
      }
    }
    r := Rules.Rewound(index, term, cluster, changed);
  }

  /** The loops that drop one address from a list. */
  method Without(cluster: seq<Address>, self: Address) returns (peers: seq<Address>)
    ensures peers == Rules.Others(cluster, self)
  {
    peers := [];
    for i := 0 to |cluster|
      invariant peers + Rules.Others(cluster[i..], self) == Rules.Others(cluster, self)
    {
      OthersFrom(cluster, i, self);
      if cluster[i] != self {
        peers := peers + [cluster[i]];
      }
    }
    assert cluster[|cluster|..] == [];
  }

  lemma OthersFrom(cluster: seq<Address>, i: nat, self: Address)
    requires i < |cluster|
    ensures Rules.Others(cluster[i..], self)
         == (if cluster[i] != self then [cluster[i]] else []) + Rules.Others(cluster[i + 1..], self)
  {
    assert cluster[i..][1..] == cluster[i + 1..];
  }

  /** Search the new entries, last to first, for a configuration to take over. */
  method Adopt(n: NodeState, m: AppendRequest) returns (actions: seq<Action>)
    ensures actions == Rules.AdoptActions(n, m)
  {
    actions := [];
    var index := |m.entries| - 1;
    while index >= 0
      invariant -1 <= index < |m.entries|
      invariant forall j :: index < j < |m.entries| ==> !IsClusterChange(m.entries[j])
    {
      if IsClusterChange(m.entries[index]) {
        var peers := Without(RecordOf(m.entries[index].payload).newCluster, n.address);
        actions := [SetClusterChange(m.prevIndex + index + 1, m.entries[index].term), SetPeers(peers)];
        return;
      }
      index := index - 1;
    }
  }

  /** Walk from the follower's commit index to the leader's. `None` stands for the panic on
      an entry that is nowhere to be read. */
  method Walk(n: NodeState, m: AppendRequest) returns (actions: Option<seq<Action>>)
    requires m.commit > n.commitIndex
    ensures actions.None? <==> exists i :: n.commitIndex < i < m.commit && Rules.EntryFor(n, m, i).None?
    ensures actions.Some? ==> actions.value == Rules.ApplyActions(n, m, n.commitIndex + 1)
  {
    hide Rules.EntryFor, Rules.ApplyActions;
    var built: seq<Action> := [];
    var index := n.commitIndex + 1;
    while index < m.commit
      invariant n.commitIndex < index <= m.commit
      invariant built + Rules.ApplyActions(n, m, index) == Rules.ApplyActions(n, m, n.commitIndex + 1)
      invariant forall i :: n.commitIndex < i < index ==> Rules.EntryFor(n, m, i).Some?
    {
      var entry := if index <= m.prevIndex then Get(n.log, index) else Get(m.entries, index - m.prevIndex - 1);
      ReadsAs(n, m, index);
      if entry.None? {
        return None;
      }
      WalkOn(n, m, index, built);
      if entry.value.kind == CommandEntry {
        built := built + [ApplyEntry(index)];
      }
      index := index + 1;
    }
    WalkOver(n, m);
    actions := Some(built);
  }

  lemma ReadsAs(n: NodeState, m: AppendRequest, i: int)
    ensures Rules.EntryFor(n, m, i) == if i <= m.prevIndex then Get(n.log, i) else Get(m.entries, i - m.prevIndex - 1)
  {
  }

  lemma WalkOn(n: NodeState, m: AppendRequest, i: int, built: seq<Action>)
    requires i < m.commit && Rules.EntryFor(n, m, i).Some?
    ensures built + Rules.ApplyActions(n, m, i)
         == (if Rules.EntryFor(n, m, i).value.kind == CommandEntry then built + [ApplyEntry(i)] else built)
            + Rules.ApplyActions(n, m, i + 1)
  {
    hide Rules.EntryFor;
    var rest := Rules.ApplyActions(n, m, i + 1);
    assert (built + [ApplyEntry(i)]) + rest == built + ([ApplyEntry(i)] + rest);
    assert [] + rest == rest;
  }

  lemma WalkOver(n: NodeState, m: AppendRequest)
    ensures Rules.ApplyActions(n, m, m.commit) == []
  {
  }

  /** What an accepted request with entries does to log and configuration; `None` when the
      search for the surviving configuration gets stuck. */
  method Store(n: NodeState, m: AppendRequest) returns (actions: Option<seq<Action>>)
    requires |m.entries| > 0
    ensures actions.None? <==> Rules.Rewind(n.log, m.prevIndex, Rules.Recorded(n)).Stuck?
    ensures actions.Some? ==> actions.value == Rules.StoreActions(n, m)
  {
    hide Rules.Rewind, Rules.Others, Rules.AdoptActions;
    var r := FindSurviving(n, m.prevIndex);
    if r.Stuck? {
      return None;
    }
    var built := [DeleteLog(LastIndex(n) - m.prevIndex)];
    if r.moved {
      var peers := Without(r.cluster, n.address);
      built := built + [SetClusterChange(r.index, r.term), SetPeers(peers)];
    }
    built := built + [AppendLog(m.entries)];
    var adopt := Adopt(n, m);
    actions := Some(built + adopt);
  }

  /** The follower's consistency check, in the order the handler makes it. */
  method Check(n: NodeState, m: AppendRequest) returns (ok: bool)
    ensures ok == Rules.Accepts(n, m)
  {
    if m.term < n.currentTerm {
      return false;
    }
    var prevEntry := Get(n.log, m.prevIndex);
    if prevEntry.None? && m.prevIndex != -1 {
      return false;
    }
    if prevEntry.Some? && prevEntry.value.term != m.prevTerm {
      return false;
    }
    ok := true;
  }

  method FollowerOnAppendEntries(n: NodeState, m: AppendRequest, now: int) returns (actions: seq<Action>)
    ensures actions == Rules.FollowerOnAppendEntries(n, m, now)
  {
    hide Rules.Rewind, Rules.EntryFor, Rules.ApplyActions, Rules.StoreActions, Rules.Accepts;
    actions := [ResetTimer(false), SetLeaderLastHeard(now)];
    if m.term > n.currentTerm {
      actions := actions + [SetCurrentTerm(m.term)];
    }
    assert actions == Rules.HeardActions(n, m, now);
    var ok := Check(n, m);
    actions := actions + [Respond(AppendResult(AppendAnswer(n.address, ok, n.currentTerm)))];
    if !ok {
      return;
    }
    var store: seq<Action> := [];
    if |m.entries| > 0 {
      var built := Store(n, m);
      if built.None? {
        return [Crash];
      }
      store := built.value;
    }
    assert store == Rules.StoreActions(n, m) by { NothingToStore(n, m); }
    var commit: seq<Action> := [];
    if m.commit > n.commitIndex {
      var walk := Walk(n, m);
      if walk.None? {
        return [Crash];
      }
      commit := [SetCommitIndex(Rules.Min(m.commit, m.prevIndex + |m.entries|))] + walk.value;
    }
    actions := actions + store + commit;
  }

  lemma NothingToStore(n: NodeState, m: AppendRequest)
    ensures |m.entries| == 0 ==> Rules.StoreActions(n, m) == []
  {
  }

  // ----- candidate -----

  method CandidateOnStateChanged(n: NodeState) returns (actions: seq<Action>)
    ensures actions == Rules.CandidateOnStateChanged(n)
  {
    actions := [SetCurrentTerm(n.currentTerm + 1), SetVotedFor(n.address), SetVoteCount(1), ResetTimer(false)];
    var lastIndex, lastTerm := -1, -1;
    var entry := Get(n.log, LastIndex(n));
    if entry.Some? {
      lastIndex, lastTerm := LastIndex(n), entry.value.term;
    }
    var m := VoteRequest(n.currentTerm + 1, n.address, lastIndex, lastTerm);
    for i := 0 to |n.peers|
      invariant actions + Rules.AskPeers(n.peers[i..], m) == Rules.CandidateOnStateChanged(n)
    {
      actions := actions + [SendVote(n.peers[i], m)];
    }
    assert n.peers[|n.peers|..] == [];
  }

  // ----- leader -----

  method LeaderOnStateChanged(n: NodeState) returns (actions: seq<Action>)
    ensures actions == Rules.LeaderOnStateChanged(n)
  {
    actions := [AppendLog([Rules.NoOp(n.currentTerm)])];
    for i := 0 to |n.peers|
      invariant actions + (Rules.GreetPeers(n, n.peers[i..]) + [ResetTimer(true)]) == Rules.LeaderOnStateChanged(n)
    {
      assert n.peers[i..][1..] == n.peers[i + 1..];
      actions := actions + [SetNextIndex(n.peers[i], LastIndex(n) + 1), SetMatchIndex(n.peers[i], 0),
                            SendAppend(n.peers[i], Rules.OpeningHeartbeat(n))];
    }
    assert n.peers[|n.peers|..] == [];
    actions := actions + [ResetTimer(true)];
  }

  method LeaderOnRemoveServer(n: NodeState, server: Address) returns (actions: seq<Action>)
    ensures actions == Rules.LeaderOnRemoveServer(n, server)
  {
    if !Rules.MayChange(n) {
      return Rules.RefuseChange(n);
    }
    var newCluster := Without(n.peers + [n.address], server);
    actions := [ExcludeServer(server), AppendLog([Rules.ChangeEntry(n, newCluster)]), Respond(Rules.Ticket(n))];
  }

  /** The entries a timed-out leader sends from `next` on; `None` stands for the panic on an
      entry that is not there. */
  method Collect(n: NodeState, next: int) returns (entries: Option<seq<LogEntry>>)
    requires next <= LastIndex(n)
    ensures entries.None? <==> next < 0
    ensures next >= 0 ==> entries == Some(n.log[next..])
  {
    var built: seq<LogEntry> := [];
    var i := next;
    while i <= LastIndex(n)
      invariant next <= i <= |n.log|
      invariant next >= 0 ==> built == n.log[next..i]
      invariant next < 0 ==> i == next
    {
      var entry := Get(n.log, i);
      if entry.None? {
        return None;
      }
      built := built + [entry.value];
      i := i + 1;
    }
    assert next >= 0 ==> n.log[next..i] == n.log[next..];
    entries := Some(built);
  }

  method LeaderOnTimeout(n: NodeState) returns (actions: seq<Action>)
    ensures actions == Rules.LeaderOnTimeout(n)
  {
    actions := [ResetTimer(true)];
    ghost var sends: seq<Action> := [];
    for i := 0 to |n.peers|
      invariant forall j :: 0 <= j < i ==> Lookup(n.nextIndex, n.peers[j]) >= 0
      invariant actions == [ResetTimer(true)] + sends
      invariant sends == FedSoFar(n, i)
    {
      var next := Lookup(n.nextIndex, n.peers[i]);
      if LastIndex(n) >= next {
        var lastLog := Get(n.log, next - 1);
        var lastTerm := if lastLog.Some? then lastLog.value.term else -1;
        var entries := Collect(n, next);
        if entries.None? {
          return [Crash];
        }
        actions := actions + [SendAppend(n.peers[i], AppendRequest(n.currentTerm, n.address, next - 1, lastTerm, entries.value, n.commitIndex))];
      } else {
        actions := actions + [SendAppend(n.peers[i], AppendRequest(n.currentTerm, n.address, LastIndex(n), n.currentTerm, [], n.commitIndex))];
      }
      sends := sends + [SendAppend(n.peers[i], Rules.RequestFor(n, next))];
    }
    FedAll(n, n.peers, 0);
  }

  /** The requests to the first `i` peers. */
  ghost function FedSoFar(n: NodeState, i: nat): seq<Action>
    requires i <= |n.peers|
    requires forall j :: 0 <= j < i ==> Lookup(n.nextIndex, n.peers[j]) >= 0
  {
    seq(i, j requires 0 <= j < i => SendAppend(n.peers[j], Rules.RequestFor(n, Lookup(n.nextIndex, n.peers[j]))))
  }

  lemma {:induction false} FedAll(n: NodeState, peers: seq<Address>, k: nat)
    requires forall j :: 0 <= j < |n.peers| ==> Lookup(n.nextIndex, n.peers[j]) >= 0
    requires k <= |n.peers| && peers == n.peers[k..]
    ensures Rules.FeedPeers(n, peers) == FedSoFar(n, |n.peers|)[k..]
    decreases |peers|
  {
    hide Rules.RequestFor;
    if |peers| > 0 {
      assert n.peers[k..][1..] == n.peers[k + 1..];
      FedAll(n, peers[1..], k + 1);
    }
  }

  /** The inner loop of the commit scan. */
  method CountHolders(n: NodeState, responder: Address, at: int) returns (count: nat)
    ensures count == 1 + Rules.Holders(n, n.peers, responder, at)
  {
    count := 1;
    for i := 0 to |n.peers|
      invariant count + Rules.Holders(n, n.peers[i..], responder, at) == 1 + Rules.Holders(n, n.peers, responder, at)
    {
      assert n.peers[i..][1..] == n.peers[i + 1..];
      if n.peers[i] != responder && Lookup(n.matchIndex, n.peers[i]) >= at {
        count := count + 1;
      }
      if n.peers[i] == responder && LastIndex(n) >= at {
        count := count + 1;
      }
    }
  }

  /** The commit scan. */
  method FindCommit(n: NodeState, responder: Address) returns (c: int)
    ensures c == Rules.NewCommit(n, responder)
  {
    var majority := Rules.Majority(|n.peers|);
    c := n.commitIndex;
    var at := c + 1;
    while at <= LastIndex(n)
      invariant Rules.Scan(n, responder, at, c) == Rules.NewCommit(n, responder)
      decreases LastIndex(n) - at
    {
      var count := CountHolders(n, responder, at);
      var entry := Get(n.log, at);
      if entry.Some? {
        if count >= majority && entry.value.term == n.currentTerm {
          c := at;
        }
      }
      at := at + 1;
    }
  }

  method LeaderOnAppendEntriesReply(n: NodeState, r: AppendAnswer) returns (actions: seq<Action>)
    ensures actions == Rules.LeaderOnAppendEntriesReply(n, r)
  {
    hide Rules.NewCommit, Rules.AdvanceActions;
    if r.term > n.currentTerm {
      return [SetCurrentTerm(r.term), SetState(Follower)];
    }
    if !r.success {
      return [SetNextIndex(r.address, Lookup(n.nextIndex, r.address) - 1)];
    }
    actions := [SetNextIndex(r.address, LastIndex(n) + 1), SetMatchIndex(r.address, LastIndex(n))];
    var c := FindCommit(n, r.address);
    var rest := Advance(n, c);
    if c > n.commitIndex {
      rest := [SetCommitIndex(c)] + rest;
    }
    actions := actions + rest;
  }

  /** Apply commands up to the new commit index, stopping where the log ends. */
  method Advance(n: NodeState, c: int) returns (actions: seq<Action>)
    ensures actions == Rules.AdvanceActions(n, n.lastApplied + 1, c)
  {
    hide Rules.AdvanceActions;
    actions := [];
    var i := n.lastApplied + 1;
    while i <= c
      invariant actions + Rules.AdvanceActions(n, i, c) == Rules.AdvanceActions(n, n.lastApplied + 1, c)
      decreases c - i
    {
      AdvanceOn(n, i, c, actions);
      actions := actions + [SetLastApplied(i)];
      var entry := Get(n.log, i);
      if entry.None? {
        return;
      }
      if entry.value.kind == CommandEntry {
        actions := actions + [ApplyEntry(i)];
      }
      i := i + 1;
    }
    AdvanceOver(n, i, c);
  }

  lemma AdvanceOn(n: NodeState, i: int, c: int, built: seq<Action>)
    requires i <= c
    ensures var e := Get(n.log, i); var all := built + Rules.AdvanceActions(n, i, c);
            if e.None? then all == built + [SetLastApplied(i)]
            else if e.value.kind == CommandEntry then
              all == built + [SetLastApplied(i)] + [ApplyEntry(i)] + Rules.AdvanceActions(n, i + 1, c)
            else all == built + [SetLastApplied(i)] + Rules.AdvanceActions(n, i + 1, c)
  {
    hide Rules.AdvanceActions;
    AdvanceHead(n, i, c);
    Regroup(built, [SetLastApplied(i)], [ApplyEntry(i)], Rules.AdvanceActions(n, i + 1, c));
  }

  lemma AdvanceHead(n: NodeState, i: int, c: int)
    requires i <= c
    ensures var e := Get(n.log, i); var rest := Rules.AdvanceActions(n, i + 1, c);
            Rules.AdvanceActions(n, i, c) ==
              if e.None? then [SetLastApplied(i)]
              else if e.value.kind == CommandEntry then [SetLastApplied(i)] + ([ApplyEntry(i)] + rest)
              else [SetLastApplied(i)] + rest
  {
    var rest := Rules.AdvanceActions(n, i + 1, c);
    assert [] + rest == rest;
  }

  lemma Regroup(a: seq<Action>, b: seq<Action>, c: seq<Action>, d: seq<Action>)
    ensures a + (b + (c + d)) == a + b + c + d
    ensures a + (b + d) == a + b + d
  {
  }

  lemma AdvanceOver(n: NodeState, i: int, c: int)
    requires i > c
    ensures Rules.AdvanceActions(n, i, c) == []
  {
  }

  // ----- dispatch -----

  /** The handler for a change of state. */
  method OnStateChanged(n: NodeState) returns (actions: seq<Action>)
    ensures actions == Rules.OnStateChanged(n)
  {
    match n.role {
      case Follower => actions := Rules.FollowerOnStateChanged(n);
      case Candidate => actions := CandidateOnStateChanged(n);
      case Leader => actions := LeaderOnStateChanged(n);
    }
  }

  /** The handler for any other event, by role. */
  method Handle(n: NodeState, ev: Event, now: int) returns (actions: seq<Action>)
    ensures actions == Rules.Handle(n, ev, now)
  {
    hide Rules.FollowerOnAppendEntries, Rules.CandidateOnStateChanged, Rules.LeaderOnStateChanged,
         Rules.LeaderOnRemoveServer, Rules.LeaderOnTimeout, Rules.LeaderOnAppendEntriesReply,
         Rules.FollowerOnRequestVote;
    if ev.StateChanged? {
      actions := OnStateChanged(n);
    } else if n.role.Follower? && ev.AppendEntries? {
      actions := FollowerOnAppendEntries(n, ev.append, now);
    } else if n.role.Leader? && ev.RemoveServer? {
      actions := LeaderOnRemoveServer(n, ev.oldServer);
    } else if n.role.Leader? && ev.Timeout? {
      actions := LeaderOnTimeout(n);
    } else if n.role.Leader? && ev.AppendReply? {
      actions := LeaderOnAppendEntriesReply(n, ev.ack);
    } else {
      actions := Rules.Handle(n, ev, now);
    }
  }
}
