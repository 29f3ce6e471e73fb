/** The apply loops at the level of whole events. */
module Outcomes {
  import opened Types
  import opened Rules
  import opened Interpreter
  import opened Reactions
  import opened Effects
  import opened Applying

  // ----- the follower -----

  /** The walk up to the leader's commit index stays inside what the follower now holds. */
  lemma WalkReads(f: NodeState, m: AppendRequest, k: NodeState)
    requires Accepts(f, m) && !AppendCrashes(f, m) && SameLog(NewLog(f.log, m), k.log)
    ensures Reads(f, m, k, f.commitIndex + 1)
    ensures f.commitIndex + 1 < m.commit ==> m.commit <= m.prevIndex + 1 + |m.entries| && m.commit <= |k.log|
  {
    hide Rewind, Accepts, AppendCrashes, NewLog;
    forall x | f.commitIndex + 1 <= x < m.commit ensures ReadAt(f, m, k, x) { WalkRead(f, m, k, x); }
    if f.commitIndex + 1 < m.commit { WalkRead(f, m, k, m.commit - 1); }
  }

  lemma WalkRead(f: NodeState, m: AppendRequest, k: NodeState, x: int)
    requires Accepts(f, m) && !AppendCrashes(f, m) && SameLog(NewLog(f.log, m), k.log)
    requires f.commitIndex + 1 <= x < m.commit
    ensures ReadAt(f, m, k, x) && x <= m.prevIndex + |m.entries|
  {
    hide Rewind, EntryFor, Accepts, NewLog;
    assert EntryFor(f, m, x).Some?;
    EntryForMeans(f, m, x);
  }

  lemma EntryForMeans(f: NodeState, m: AppendRequest, x: int)
    requires Accepts(f, m) && EntryFor(f, m, x).Some?
    ensures 0 <= x <= m.prevIndex + |m.entries|
    ensures x < |NewLog(f.log, m)| && NewLog(f.log, m)[x] == EntryFor(f, m, x).value
  {
  }

  /** From the state `st` in which the request is stored to `k`: the commit index taken, and
      the commands applied, by a follower that had committed up to `known`. */
  ghost predicate Commits(known: int, m: AppendRequest, st: NodeState, k: NodeState)
    requires known >= -1
  {
    if m.commit <= known then k == st
    else
      var c := st.(commitIndex := Min(m.commit, m.prevIndex + |m.entries|));
      if known + 1 >= m.commit then k == c
      else
        && m.commit <= |st.log| && m.commit <= m.prevIndex + 1 + |m.entries|
        && (k.halted <==> !Decodable(st.log, known + 1, m.commit))
        && (!k.halted ==> AppliedRange(c, k, known + 1, m.commit) && k.lastApplied == st.lastApplied)
  }

  lemma CommitApplies(f: NodeState, m: AppendRequest, ev: Event, st: NodeState, now: int)
    requires Accepts(f, m) && !AppendCrashes(f, m) && f.commitIndex >= -1
    requires !st.halted && SameLog(NewLog(f.log, m), st.log)
    ensures Commits(f.commitIndex, m, st, Implement(CommitActions(f, m), ev, true, st, now).node)
  {
    hide Implement, Accepts, AppendCrashes, ApplyActions, AppliedRange, Decodable, Reads;
    if m.commit <= f.commitIndex {
      Nothing(ev, true, st, now);
    } else {
      var target := Min(m.commit, m.prevIndex + |m.entries|);
      var c := st.(commitIndex := target);
      Cons(SetCommitIndex(target), ApplyActions(f, m, f.commitIndex + 1), ev, true, st, now);
      WalkReads(f, m, c);
      if f.commitIndex + 1 >= m.commit {
        WalkEnds(f, m, f.commitIndex + 1);
        Nothing(ev, true, c, now);
      } else {
        ApplyRun(f, m, f.commitIndex + 1, ev, c, now);
      }
    }
  }

  /** A follower's side of an accepted request: the commit index it takes, and the commands
      it applies on top of what it stored. It never moves its last-applied index. */
  lemma FollowerApplies(n: NodeState, m: AppendRequest, now: int)
    requires Takes(n, m) && n.commitIndex >= -1
    ensures -1 <= m.prevIndex < |n.log|
    ensures |m.entries| > 0 ==> Rewind(n.log, m.prevIndex, Recorded(Receiver(n, m.term))).Rewound?
    ensures var st := Stored(Receiver(n, m.term), m, now); var k := React(n, AppendEntries(m), now).node;
            && st.log == NewLog(n.log, m) && st.database == n.database && st.lastApplied == n.lastApplied
            && st.commitIndex == n.commitIndex && !st.halted
            && SameLog(st.log, k.log) && Commits(n.commitIndex, m, st, k)
  {
    hide React, Implement, Accepts, AppendCrashes, Stored, Rewind, CommitActions, Commits, Receiver, Reaches;
    var f := Receiver(n, m.term);
    ReceiverKeeps(n, m.term);
    AppendOutcome(n, m, now);
    AcceptsInRange(f, m);
    NoStuck(f, m);
    StoredKeeps(f, m, now);
    var st := Stored(f, m, now);
    SameLogSelf(st.log);
    CommitRun(f, m, AppendEntries(m), st, now);
    CommitApplies(f, m, AppendEntries(m), st, now);
  }

  // ----- the leader -----

  /** Where the leader's loop ends: after the new commit index or at the end of the log. */
  function Stop(n: NodeState, upto: int): nat {
    if 0 <= upto + 1 <= |n.log| then upto + 1 else |n.log|
  }

  lemma {:induction false} AdvanceSplit(n: NodeState, i: nat, upto: int)
    requires i <= |n.log| <= upto
    ensures AdvanceActions(n, i, upto) == AdvanceActions(n, i, |n.log| - 1) + [SetLastApplied(|n.log|)]
    decreases |n.log| - i
  {
    if i < |n.log| { AdvanceSplit(n, i + 1, upto); }
  }

  lemma LeaderRunPast(n: NodeState, i: nat, upto: int, ev: Event, k: NodeState, now: int)
    requires !k.halted && SameLog(n.log, k.log) && i <= |n.log| <= upto
    ensures var o := Implement(AdvanceActions(n, i, upto), ev, false, k, now).node;
            && (o.halted <==> !Decodable(k.log, i, |n.log|))
            && (!o.halted ==> AppliedRange(k, o, i, |n.log|) && o.lastApplied == |n.log|)
  {
    hide Implement, AdvanceActions, AppliedRange, Decodable;
    AdvanceSplit(n, i, upto);
    var first := AdvanceActions(n, i, |n.log| - 1);
    ImplementConcat(first, [SetLastApplied(|n.log|)], ev, false, k, now);
    LeaderRun(n, i, |n.log| - 1, ev, k, now);
    var o := Implement(first, ev, false, k, now).node;
    if o.halted {
      Dead([SetLastApplied(|n.log|)], ev, false, o, now);
    } else {
      Single(SetLastApplied(|n.log|), ev, false, o, now);
      MovedApplied(k, o, |n.log|, i, |n.log|);
    }
  }

  lemma MovedApplied(n: NodeState, k: NodeState, applied: int, i: nat, j: nat)
    requires i <= j <= |n.log| && AppliedRange(n, k, i, j)
    ensures AppliedRange(n, k.(lastApplied := applied), i, j)
  {
  }

  /** A leader's side of a successful reply: everything from its last-applied index up to
      the new commit index is applied, in order. A leader whose last-applied index is past
      its log, as a truncation can leave it, only bumps that index. */
  lemma LeaderApplies(n: NodeState, r: AppendAnswer, now: int)
    requires !n.halted && n.role.Leader? && r.term <= n.currentTerm && r.success
    requires -1 <= n.lastApplied
    ensures var k := React(n, AppendReply(r), now).node; var c := NewCommit(n, r.address);
            if n.lastApplied >= c then k == Acknowledged(n, r)
            else if n.lastApplied >= |n.log| then k == Acknowledged(n, r).(lastApplied := n.lastApplied + 1)
            else
              && (k.halted <==> !Decodable(n.log, n.lastApplied + 1, Stop(n, c)))
              && (!k.halted ==> AppliedRange(Acknowledged(n, r), k, n.lastApplied + 1, Stop(n, c))
                                && k.lastApplied == if c < |n.log| then c else |n.log|)
  {
    hide React, Implement, NewCommit, AppliedRange, Decodable, AdvanceActions;
    var c := NewCommit(n, r.address);
    var a := Acknowledged(n, r);
    AppendReplyOutcome(n, r, now);
    SameLogSelf(n.log);
    if n.lastApplied >= c {
      NoAdvance(n, n.lastApplied + 1, c);
      Nothing(AppendReply(r), false, a, now);
    } else if n.lastApplied >= |n.log| {
      BumpOnly(n, n.lastApplied + 1, c);
      Single(SetLastApplied(n.lastApplied + 1), AppendReply(r), false, a, now);
    } else if c < |n.log| {
      LeaderRun(n, n.lastApplied + 1, c, AppendReply(r), a, now);
    } else {
      LeaderRunPast(n, n.lastApplied + 1, c, AppendReply(r), a, now);
    }
  }

  lemma BumpOnly(n: NodeState, i: nat, upto: int)
    requires |n.log| <= i <= upto
    ensures AdvanceActions(n, i, upto) == [SetLastApplied(i)]
  {
  }

  /** Only append requests and append replies move commit index, last-applied index or
      database; any other event leaves the entries already in the log exactly as they are. */
  lemma OthersKeep(n: NodeState, ev: Event, now: int)
    requires !n.halted && !ev.StateChanged? && !ev.AppendEntries?
    requires ev.AppendReply? ==> !n.role.Leader? || ev.ack.term > n.currentTerm || !ev.ack.success
    ensures var k := React(n, ev, now).node;
            && k.commitIndex == n.commitIndex && k.lastApplied == n.lastApplied && k.database == n.database
            && |n.log| <= |k.log| && k.log[..|n.log|] == n.log
  {
    hide React, Implement, MayChange, Included, Excluded, Others, GreetPeers, Receiver, GrantsVote,
         RecentlyHeard, Ballot;
    if ev.RequestVote? { ReceiverKeeps(n, ev.vote.term); }
    match ev
    case Timeout =>
      match n.role {
        case Follower => FollowerTimeout(n, now);
        case Candidate => CandidateTimeout(n, now);
        case Leader => LeaderTimeout(n, now);
      }
    case RequestVote(m) => VoteOutcome(n, m, now);
    case VoteReply(r) => VoteReplyOutcome(n, r, now);
    case AppendReply(r) => AppendReplyOutcome(n, r, now);
    case _ => if IsClient(ev) { ClientKeeps(n, ev, now); }
  }

  lemma ClientKeeps(n: NodeState, ev: Event, now: int)
    requires !n.halted && IsClient(ev)
    ensures var k := React(n, ev, now).node;
            && k.commitIndex == n.commitIndex && k.lastApplied == n.lastApplied && k.database == n.database
            && |n.log| <= |k.log| && k.log[..|n.log|] == n.log
  {
    hide React, Implement, MayChange, Included, Excluded, Others, UpToDate, GreetPeers;
    if !n.role.Leader? {
      ClientRefused(n, ev, now);
    } else if ev.Command? {
      CommandOutcome(n, ev.payload, now);
    } else if ev.Probe? {
      ProbeOutcome(n, ev.index, ev.term, now);
    } else {
      ChangeOutcome(n, ev, now);
      ChangedKeeps(n, ev);
    }
  }

  /** Append requests that are not taken, likewise. */
  lemma NotTakenKeep(n: NodeState, m: AppendRequest, now: int)
    requires !n.halted && !Takes(n, m)
    ensures var k := React(n, AppendEntries(m), now).node;
            k.commitIndex == n.commitIndex && k.lastApplied == n.lastApplied && k.database == n.database && k.log == n.log
  {
    hide React, AppendCrashes, Accepts, Rewind, Implement, CommitActions, Stored;
    if Reaches(n, m) { AppendOutcome(n, m, now); } else { AppendRefused(n, m, now); }
  }
}
