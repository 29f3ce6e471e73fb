/** Leader and follower agree on the commit index a request carries. */
module CommitAgreement {
  import opened Types
  import opened Rules
  import opened Interpreter
  import opened Reactions
  import opened Effects
  import opened Outcomes

  /** The request reaches as far as the commit index it announces. */
  predicate Covers(m: AppendRequest) {
    m.prevIndex + |m.entries| >= m.commit
  }

  lemma RequestCovers(n: NodeState, next: int)
    requires next >= 0
    ensures RequestFor(n, next).prevIndex + |RequestFor(n, next).entries| == LastIndex(n)
    ensures RequestFor(n, next).commit == n.commitIndex
  {
  }

  /** Every append request a leader emits reaches its last index, so it covers the commit
      index whenever the leader has not committed past its own log. */
  lemma SenderCovers(n: NodeState, ev: Event, now: int, d: Address, m: AppendRequest)
    requires !n.halted && !ev.StateChanged? && AppendRpc(d, m) in React(n, ev, now).out
    ensures Covers(m) <==> n.commitIndex <= LastIndex(n)
  {
    hide React, RequestFor, Covers;
    Outputs(n, ev, now);
    if ev.Timeout? { RequestCovers(n, Lookup(n.nextIndex, d)); }
    CoversMeans(m);
  }

  lemma CoversMeans(m: AppendRequest)
    ensures Covers(m) <==> m.prevIndex + |m.entries| >= m.commit
  {
  }

  /** The follower's apply loop reads outside its log and the message exactly when the
      announced commit index lies more than one beyond both what the request reaches and
      what the follower has committed. */
  lemma WalkEscapesIff(f: NodeState, m: AppendRequest)
    requires Accepts(f, m) && f.commitIndex >= -1
    ensures (exists i :: f.commitIndex < i < m.commit && EntryFor(f, m, i).None?)
            <==> m.commit > m.prevIndex + |m.entries| + 1 && m.commit > f.commitIndex + 1
  {
    if m.commit > m.prevIndex + |m.entries| + 1 && m.commit > f.commitIndex + 1 {
      assert EntryFor(f, m, m.commit - 1).None?;
    }
  }

  /** A follower that accepts a covering request takes exactly the leader's commit index when
      that is larger, so its own strictly grows; otherwise it keeps its own. Its apply loop
      stays inside its log and the message. */
  lemma ReceiverTakesCommit(n: NodeState, m: AppendRequest, now: int)
    requires !n.halted && Reaches(n, m) && Accepts(Receiver(n, m.term), m)
    requires Covers(m) && n.commitIndex >= -1
    ensures forall i :: n.commitIndex < i < m.commit ==> EntryFor(Receiver(n, m.term), m, i).Some?
    ensures var k := React(n, AppendEntries(m), now).node;
            !k.halted ==>
              && k.commitIndex == (if m.commit > n.commitIndex then m.commit else n.commitIndex)
              && (m.commit > n.commitIndex ==> k.commitIndex < |k.log|)
  {
    hide React, Stored, AppendCrashes, Accepts, Commits, Reaches, Rewind, EntryFor;
    var f := Receiver(n, m.term);
    WalkEscapesIff(f, m);
    CoversMeans(m);
    if !AppendCrashes(f, m) {
      FollowerApplies(n, m, now);
      var k := React(n, AppendEntries(m), now).node;
      if !k.halted { CommitsExactly(n.commitIndex, m, Stored(f, m, now), k); }
      CoveredLength(n.log, m);
    } else {
      CrashHalts(n, m, now);
    }
  }

  lemma CoveredLength(log: seq<LogEntry>, m: AppendRequest)
    requires -1 <= m.prevIndex < |log|
    ensures m.prevIndex + |m.entries| < |NewLog(log, m)|
  {
  }

  lemma CommitsExactly(known: int, m: AppendRequest, st: NodeState, k: NodeState)
    requires known >= -1 && Commits(known, m, st, k) && Covers(m) && !k.halted && st.commitIndex == known
    ensures k.commitIndex == if m.commit > known then m.commit else known
  {
  }

  lemma CrashHalts(n: NodeState, m: AppendRequest, now: int)
    requires !n.halted && Reaches(n, m) && Accepts(Receiver(n, m.term), m) && AppendCrashes(Receiver(n, m.term), m)
    ensures React(n, AppendEntries(m), now).node.halted
  {
    hide React, Implement, Stored, AppendCrashes, Accepts, CommitActions, Rewind;
    AppendOutcome(n, m, now);
  }

  /** Sender and receiver together. */
  lemma CommitIndexAgreed(sender: NodeState, ev: Event, sent: int, n: NodeState, m: AppendRequest, received: int)
    requires !sender.halted && !ev.StateChanged? && AppendRpc(n.address, m) in React(sender, ev, sent).out
    requires sender.commitIndex <= LastIndex(sender)
    requires !n.halted && Reaches(n, m) && Accepts(Receiver(n, m.term), m) && n.commitIndex >= -1
    ensures var k := React(n, AppendEntries(m), received).node;
            !k.halted ==> k.commitIndex == if sender.commitIndex > n.commitIndex then sender.commitIndex else n.commitIndex
  {
    hide React, Accepts, Reaches, RequestFor, Covers;
    SenderCovers(sender, ev, sent, n.address, m);
    ReceiverTakesCommit(n, m, received);
    Outputs(sender, ev, sent);
    if ev.Timeout? { RequestCovers(sender, Lookup(sender.nextIndex, n.address)); }
  }
}
