/** What an append request does to the node it reaches, from the fields of the node and the
    message alone. */
module Hearing {
  import opened Types
  import opened Rules
  import opened Interpreter
  import opened Reactions
  import opened Effects
  import opened Applying
  import opened Outcomes
  import opened Config
  import opened CommitAgreement
  import opened Reading

  /** A follower, a candidate in no later term than the request, and a leader in an earlier
      one hear it; the last two step down first. */
  predicate Hears(n: NodeState, m: AppendRequest) {
    n.role.Follower? || m.term > n.currentTerm || (n.role.Candidate? && m.term == n.currentTerm)
  }

  lemma HearsReaches(n: NodeState, m: AppendRequest)
    ensures Reaches(n, m) <==> Hears(n, m)
    ensures Hears(n, m) ==>
              var f := Receiver(n, m.term);
              && f.role.Follower? && f.currentTerm == (if n.role.Candidate? then m.term else n.currentTerm)
              && f.votedFor == (if n.role.Follower? then n.votedFor else "")
              && f.voteCount == (if n.role.Follower? then n.voteCount else 0)
  {
  }

  /** Nobody else does anything: a candidate refuses, a leader stays silent. */
  lemma NotHeard(n: NodeState, m: AppendRequest, now: int)
    requires !n.halted && !Hears(n, m)
    ensures React(n, AppendEntries(m), now)
         == Outcome(n, if n.role.Leader? then [] else [Answer(AppendResult(AppendAnswer(n.address, false, n.currentTerm)))])
  {
    hide React;
    HearsReaches(n, m);
    AppendRefused(n, m, now);
  }

  /** A node that hears a request answers it, or dies before it answers. If it answers it has
      taken over the larger of both terms, whether it accepts or not, and noted that it heard
      from a leader. It accepts if and only if the request is not of an old term and the entry
      before those sent is in its log with the term the request gives it, or the request starts
      at the beginning. The answer carries the term from before, which a candidate has by then
      taken from the request. */
  lemma AppendHeard(n: NodeState, m: AppendRequest, now: int) returns (answered: bool, ok: bool)
    requires !n.halted && Hears(n, m)
    ensures var o := React(n, AppendEntries(m), now); var k := o.node;
            && k.role.Follower?
            && k.votedFor == (if n.role.Follower? then n.votedFor else "")
            && k.voteCount == (if n.role.Follower? then n.voteCount else 0)
            && o.out == (if n.role.Follower? then [] else [Timer(false)])
                        + (if answered then
                             [Timer(false), Answer(AppendResult(AppendAnswer(n.address, ok,
                                                                             if n.role.Candidate? then m.term else n.currentTerm)))]
                           else [])
            && (!answered ==> k == n.(role := Follower, votedFor := k.votedFor, voteCount := k.voteCount, halted := true,
                                      currentTerm := if n.role.Candidate? then m.term else n.currentTerm))
            && (answered ==> k.currentTerm == (if m.term > n.currentTerm then m.term else n.currentTerm) && k.leaderLastHeard == now)
    ensures !answered || ok <==>
              && m.term >= n.currentTerm
              && -1 <= m.prevIndex < |n.log| && (m.prevIndex >= 0 ==> n.log[m.prevIndex].term == m.prevTerm)
  {
    hide React, Implement, Accepts, AppendCrashes, Rewind, CommitActions, Stored, Receiver, Reaches;
    HearsReaches(n, m);
    var f := Receiver(n, m.term);
    ReceiverKeeps(n, m.term);
    AppendOutcome(n, m, now);
    AcceptsIff(f, m);
    ok := Accepts(f, m);
    answered := !ok || !AppendCrashes(f, m);
    if ok && answered {
      NoStuck(f, m);
      StoredKeeps(f, m, now);
      CommitRun(f, m, AppendEntries(m), Stored(f, m, now), now);
    }
  }

  lemma AcceptsIff(f: NodeState, m: AppendRequest)
    ensures Accepts(f, m) <==>
              && m.term >= f.currentTerm
              && -1 <= m.prevIndex < |f.log| && (m.prevIndex >= 0 ==> f.log[m.prevIndex].term == m.prevTerm)
  {
  }

  /** The node answered, and how. */
  ghost predicate Replied(out: seq<Output>, ok: bool) {
    |out| > 0 && out[|out| - 1].Answer? && out[|out| - 1].reply.AppendResult? && out[|out| - 1].reply.ack.success == ok
  }

  /** A refusal changes the term, the last time a leader was heard, and - of a node that
      stepped down - role and vote; nothing else. */
  lemma RefusalKeeps(n: NodeState, m: AppendRequest, now: int)
    requires !n.halted && Hears(n, m) && Replied(React(n, AppendEntries(m), now).out, false)
    ensures var k := React(n, AppendEntries(m), now).node;
            k == n.(role := Follower, currentTerm := k.currentTerm, leaderLastHeard := now,
                    votedFor := k.votedFor, voteCount := k.voteCount)
  {
    hide React, Implement, Accepts, AppendCrashes, Rewind, CommitActions, Stored, Receiver, Reaches;
    HearsReaches(n, m);
    ReceiverKeeps(n, m.term);
    AppendOutcome(n, m, now);
  }

  /** Entries in a request that is accepted replace everything after the entry before them. */
  lemma AcceptedLog(n: NodeState, m: AppendRequest, now: int)
    requires !n.halted && Hears(n, m) && Replied(React(n, AppendEntries(m), now).out, true)
    ensures Takes(n, m)
    ensures var k := React(n, AppendEntries(m), now).node;
            && -1 <= m.prevIndex < |n.log|
            && SameLog(if |m.entries| == 0 then n.log else n.log[..m.prevIndex + 1] + m.entries, k.log)
            && k.minElectionTimeout == n.minElectionTimeout && k.address == n.address
  {
    hide React, Implement, Accepts, AppendCrashes, Rewind, CommitActions, Stored, Receiver, Reaches, AppliedRange;
    HearsReaches(n, m);
    var f := Receiver(n, m.term);
    ReceiverKeeps(n, m.term);
    AppendOutcome(n, m, now);
    AcceptsIff(f, m);
    if Accepts(f, m) && !AppendCrashes(f, m) {
      AppendTaken(n, m, now);
      NoStuck(f, m);
      StoredKeeps(f, m, now);
      CommitRun(f, m, AppendEntries(m), Stored(f, m, now), now);
    }
  }

  /** The log a node holds once it has accepted a request, results aside. */
  function LogThen(n: NodeState, m: AppendRequest): seq<LogEntry>
    requires -1 <= m.prevIndex < |n.log|
  {
    if |m.entries| == 0 then n.log else n.log[..m.prevIndex + 1] + m.entries
  }

  /** A larger commit index is taken over as far as the request reaches; the commands past the
      old one and before - not at - the announced one are applied, and the last-applied index
      does not move. The node dies of the first command among them that does not decode. */
  lemma AcceptedCommit(n: NodeState, m: AppendRequest, now: int)
    requires !n.halted && Hears(n, m) && Replied(React(n, AppendEntries(m), now).out, true) && n.commitIndex >= -1
    ensures -1 <= m.prevIndex < |n.log|
    ensures var k := React(n, AppendEntries(m), now).node; var log := LogThen(n, m);
            if m.commit <= n.commitIndex + 1 then
              && !k.halted && k.log == log && k.database == n.database && k.lastApplied == n.lastApplied
              && k.commitIndex == (if m.commit <= n.commitIndex then n.commitIndex
                                   else if m.commit <= m.prevIndex + |m.entries| then m.commit else m.prevIndex + |m.entries|)
            else
              && m.commit <= |log| && m.commit <= m.prevIndex + |m.entries| + 1
              && (k.halted <==> exists x :: n.commitIndex < x < m.commit && log[x].kind == CommandEntry && log[x].payload.Opaque?)
              && (!k.halted ==>
                    && k.commitIndex == (if m.commit <= m.prevIndex + |m.entries| then m.commit else m.prevIndex + |m.entries|)
                    && k.lastApplied == n.lastApplied && |k.log| == |log|
                    && (forall key :: ValueAfter(n.database, log, n.commitIndex + 1, m.commit, key, ValueIn(k.database, key)))
                    && (forall x :: 0 <= x < |log| && !(n.commitIndex < x < m.commit && log[x].kind == CommandEntry) ==>
                          k.log[x] == log[x])
                    && (forall x :: n.commitIndex < x < m.commit && log[x].kind == CommandEntry && log[x].payload.Machine? ==>
                          && k.log[x] == log[x].(result := k.log[x].result)
                          && AnswersWith(n.database, log, n.commitIndex + 1, x, log[x].payload.command, k.log[x].result)))
  {
    hide React, Implement, Takes, Stored, Rewind, Receiver, Hears, AppliedRange, Decodable, ValueAfter, AnswersWith;
    AcceptedLog(n, m, now);
    FollowerApplies(n, m, now);
    ReceiverKeeps(n, m.term);
    var st := Stored(Receiver(n, m.term), m, now);
    var k := React(n, AppendEntries(m), now).node;
    if m.commit > n.commitIndex + 1 {
      var c := st.(commitIndex := Min(m.commit, m.prevIndex + |m.entries|));
      UndecodableIff(st.log, n.commitIndex + 1, m.commit);
      if !k.halted { AppliedMeans(c, k, n.commitIndex + 1, m.commit); }
    }
  }

  lemma UndecodableIff(log: seq<LogEntry>, i: nat, j: nat)
    requires i <= j <= |log|
    ensures Decodable(log, i, j) <==> !exists x :: i <= x < j && log[x].kind == CommandEntry && log[x].payload.Opaque?
  {
  }

  /** An accepted request that brings membership changes makes the node take over the last of
      them: its place, its term, and all its members but the node itself. One that brings none
      and does not cut off the last change the node knows of leaves all that alone. */
  lemma AcceptedConfig(n: NodeState, m: AppendRequest, now: int, c: int)
    requires !n.halted && Hears(n, m) && Replied(React(n, AppendEntries(m), now).out, true) && -1 <= c < |m.entries|
    requires c >= 0 ==> m.entries[c].kind == AddServerEntry || m.entries[c].kind == RemoveServerEntry
    requires forall x :: c < x < |m.entries| ==> m.entries[x].kind != AddServerEntry && m.entries[x].kind != RemoveServerEntry
    ensures var k := React(n, AppendEntries(m), now).node;
            && (c >= 0 ==>
                  && k.changeIndex == m.prevIndex + 1 + c && k.changeTerm == m.entries[c].term
                  && (m.entries[c].payload.Cluster? ==>
                        multiset(k.peers) == multiset(m.entries[c].payload.record.newCluster)[n.address := 0])
                  && (!m.entries[c].payload.Cluster? ==> multiset(k.peers) == multiset{}))
            && (c == -1 && (|m.entries| == 0 || n.changeIndex <= m.prevIndex) ==>
                  && k.changeIndex == n.changeIndex && k.changeTerm == n.changeTerm && k.peers == n.peers
                  && k.nextIndex == n.nextIndex && k.matchIndex == n.matchIndex)
            && (c >= 0 || (|m.entries| > 0 && n.changeIndex > m.prevIndex) ==> IndexedByPeers(k))
  {
    hide React, Implement, Takes, Stored, Rewind, Receiver, Hears, LastChange, Others;
    AcceptedLog(n, m, now);
    TakenConfig(n, m, now);
    var f := Receiver(n, m.term);
    LastIs(m.entries, c);
    if |m.entries| > 0 {
      StoredConfig(f, m, now);
      if c >= 0 || Rewind(f.log, m.prevIndex, Recorded(f)).moved { StoredIndices(f, m, now); }
      if c >= 0 { OthersAre(RecordOf(m.entries[c].payload).newCluster, n.address); }
      if n.changeIndex <= m.prevIndex { NothingToRewind(f, m.prevIndex); } else { SomethingToRewind(f, m.prevIndex); }
    } else {
      HeardConfig(f, m, now);
    }
  }

  lemma NothingToRewind(f: NodeState, prev: int)
    requires f.changeIndex <= prev
    ensures Rewind(f.log, prev, Recorded(f)) == Recorded(f)
  {
  }

  lemma SomethingToRewind(f: NodeState, prev: int)
    requires f.changeIndex > prev && Rewind(f.log, prev, Recorded(f)).Rewound?
    ensures Rewind(f.log, prev, Recorded(f)).moved
  {
    var r := RecordOf(f.log[f.changeIndex].payload);
    StaysMoved(f.log, prev, Rewound(r.oldIndex, r.oldTerm, r.oldCluster, true), {f.changeIndex});
    assert {} + {f.changeIndex} == {f.changeIndex};
  }

  lemma {:induction false} StaysMoved(log: seq<LogEntry>, prev: int, cur: Rewound, seen: set<int>)
    requires cur.Rewound? && cur.moved
    ensures Search(log, prev, cur, seen).Rewound? ==> Search(log, prev, cur, seen).moved
    decreases |Indexes(log) - seen|
  {
    if cur.index > prev && Get(log, cur.index).Some? && cur.index !in seen {
      var r := RecordOf(log[cur.index].payload);
      assert Indexes(log) - (seen + {cur.index}) == Indexes(log) - seen - {cur.index};
      StaysMoved(log, prev, Rewound(r.oldIndex, r.oldTerm, r.oldCluster, true), seen + {cur.index});
    }
  }

  lemma OneMore(a: Address, all: seq<Address>, some: seq<Address>, self: Address)
    requires multiset(some) == multiset(all)[self := 0]
    ensures multiset((if a != self then [a] else []) + some) == multiset([a] + all)[self := 0]
  {
  }

  lemma {:induction false} OthersAre(cluster: seq<Address>, self: Address)
    ensures multiset(Others(cluster, self)) == multiset(cluster)[self := 0]
  {
    if |cluster| > 0 {
      OthersAre(cluster[1..], self);
      OneMore(cluster[0], cluster[1..], Others(cluster[1..], self), self);
      assert cluster == [cluster[0]] + cluster[1..];
    }
  }

  /** Unless an earlier change has to be searched for, the node dies before it answers exactly
      when it accepts and the announced commit index runs more than one past both what the
      request reaches and what the node has committed. */
  lemma DiesUnanswered(n: NodeState, m: AppendRequest, now: int)
    requires !n.halted && Hears(n, m) && n.commitIndex >= -1 && (|m.entries| == 0 || n.changeIndex <= m.prevIndex)
    ensures !Replied(React(n, AppendEntries(m), now).out, true) && !Replied(React(n, AppendEntries(m), now).out, false) <==>
              && m.term >= n.currentTerm
              && -1 <= m.prevIndex < |n.log| && (m.prevIndex >= 0 ==> n.log[m.prevIndex].term == m.prevTerm)
              && m.commit > m.prevIndex + |m.entries| + 1 && m.commit > n.commitIndex + 1
  {
    hide React, Implement, Accepts, Rewind, CommitActions, Stored, Receiver, Reaches, EntryFor;
    HearsReaches(n, m);
    var f := Receiver(n, m.term);
    ReceiverKeeps(n, m.term);
    AppendOutcome(n, m, now);
    AcceptsIff(f, m);
    NothingToRewindIf(f, m);
    if Accepts(f, m) { WalkEscapesIff(f, m); }
  }

  lemma NothingToRewindIf(f: NodeState, m: AppendRequest)
    ensures f.changeIndex <= m.prevIndex ==> Rewind(f.log, m.prevIndex, Recorded(f)).Rewound?
  {
  }
}
