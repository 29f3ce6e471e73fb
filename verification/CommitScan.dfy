/** The leader's scan for a new commit index, against its closed form: an order statistic
    of the match indices. */
module CommitScan {
  import opened Types
  import opened Rules
  import opened TermOrder

  // ----- the k-th largest of a list -----

  function InsertDown(x: int, s: seq<int>): seq<int> {
    if |s| == 0 || x >= s[0] then [x] + s else [s[0]] + InsertDown(x, s[1..])
  }

  /** `s` from largest to smallest. */
  function SortDown(s: seq<int>): (r: seq<int>)
    ensures |r| == |s|
  {
    if |s| == 0 then [] else InsertedSize(s[0], SortDown(s[1..])); InsertDown(s[0], SortDown(s[1..]))
  }

  lemma {:induction false} InsertedSize(x: int, s: seq<int>)
    ensures |InsertDown(x, s)| == |s| + 1
  {
    if |s| > 0 && x < s[0] { InsertedSize(x, s[1..]); }
  }

  function KthLargest(s: seq<int>, k: nat): int
    requires 1 <= k <= |s|
  {
    SortDown(s)[k - 1]
  }

  function CountFrom(s: seq<int>, at: int): nat {
    if |s| == 0 then 0 else (if s[0] >= at then 1 else 0) + CountFrom(s[1..], at)
  }

  ghost predicate Descending(s: seq<int>) {
    forall i, j :: 0 <= i < j < |s| ==> s[i] >= s[j]
  }

  lemma {:induction false} InsertDownRight(x: int, s: seq<int>, at: int)
    requires Descending(s)
    ensures Descending(InsertDown(x, s))
    ensures CountFrom(InsertDown(x, s), at) == (if x >= at then 1 else 0) + CountFrom(s, at)
    ensures forall i :: 0 <= i < |InsertDown(x, s)| ==> InsertDown(x, s)[i] == x || InsertDown(x, s)[i] in s
  {
    if |s| == 0 || x >= s[0] {
      assert ([x] + s)[1..] == s;
    } else {
      InsertDownRight(x, s[1..], at);
      var t := InsertDown(x, s[1..]);
      assert ([s[0]] + t)[1..] == t;
      forall i | 0 <= i < |t| ensures s[0] >= t[i] {
        if t[i] in s[1..] { var j :| 0 <= j < |s| - 1 && s[1..][j] == t[i]; assert s[0] >= s[j + 1]; }
      }
    }
  }

  lemma {:induction false} SortDownRight(s: seq<int>, at: int)
    ensures Descending(SortDown(s)) && CountFrom(SortDown(s), at) == CountFrom(s, at)
  {
    if |s| > 0 {
      SortDownRight(s[1..], at);
      InsertDownRight(s[0], SortDown(s[1..]), at);
    }
  }

  lemma {:induction false} CountDescending(s: seq<int>, k: nat, at: int)
    requires Descending(s) && 1 <= k <= |s|
    ensures CountFrom(s, at) >= k <==> s[k - 1] >= at
  {
    assert forall i :: 0 <= i < |s| - 1 ==> s[1..][i] == s[i + 1];
    if k == 1 {
      if s[0] < at { NoneFrom(s, at); }
    } else {
      CountDescending(s[1..], k - 1, at);
      if s[0] < at { NoneFrom(s, at); }
    }
  }

  lemma {:induction false} NoneFrom(s: seq<int>, at: int)
    requires forall i :: 0 <= i < |s| ==> s[i] < at
    ensures CountFrom(s, at) == 0
  {
    if |s| > 0 { NoneFrom(s[1..], at); }
  }

  /** At least `k` elements reach `at` exactly when the k-th largest does. */
  lemma KthLargestCounts(s: seq<int>, k: nat, at: int)
    requires 1 <= k <= |s|
    ensures CountFrom(s, at) >= k <==> KthLargest(s, k) >= at
  {
    SortDownRight(s, at);
    CountDescending(SortDown(s), k, at);
  }

  // ----- the scan -----

  /** What each peer is taken to hold when `responder` has just acknowledged everything. */
  function Held(n: NodeState, peers: seq<Address>, responder: Address): (r: seq<int>)
    ensures |r| == |peers|
  {
    if |peers| == 0 then []
    else [if peers[0] == responder then LastIndex(n) else Lookup(n.matchIndex, peers[0])] + Held(n, peers[1..], responder)
  }

  /** The match indices of the whole cluster, the leader's own last index included. */
  function Matches(n: NodeState, responder: Address): seq<int> {
    [LastIndex(n)] + Held(n, n.peers, responder)
  }

  lemma {:induction false} HoldersCount(n: NodeState, peers: seq<Address>, responder: Address, at: int)
    ensures Holders(n, peers, responder, at) == CountFrom(Held(n, peers, responder), at)
  {
    if |peers| > 0 { HoldersCount(n, peers[1..], responder, at); }
  }

  /** The index half of the cluster (rounded up) is taken to hold. */
  function Replicated(n: NodeState, responder: Address): int {
    Min(KthLargest(Matches(n, responder), Majority(|n.peers|)), LastIndex(n))
  }

  lemma CommittableMeans(n: NodeState, responder: Address, at: int)
    requires at <= LastIndex(n)
    ensures Committable(n, responder, at) <==>
              at <= Replicated(n, responder) && Get(n.log, at).Some? && n.log[at].term == n.currentTerm
  {
    hide KthLargest;
    HoldersCount(n, n.peers, responder, at);
    assert Matches(n, responder)[1..] == Held(n, n.peers, responder);
    KthLargestCounts(Matches(n, responder), Majority(|n.peers|), at);
  }

  /** From `at` on the scan finds the replicated index, if that is of the current term. */
  lemma {:induction false} ScanFinds(n: NodeState, responder: Address, at: int, best: int)
    requires Ordered(n.log) && Below(n.log, n.currentTerm)
    ensures var q := Replicated(n, responder);
            Scan(n, responder, at, best)
            == if at <= q && Get(n.log, q).Some? && n.log[q].term == n.currentTerm then q else best
    decreases LastIndex(n) - at
  {
    hide Replicated, Committable;
    var q := Replicated(n, responder);
    assert q <= LastIndex(n) by { ReplicatedBound(n, responder); }
    if at <= LastIndex(n) {
      CommittableMeans(n, responder, at);
      ScanFinds(n, responder, at + 1, if Committable(n, responder, at) then at else best);
      if 0 <= at < q { assert n.log[at].term <= n.log[q].term <= n.currentTerm; }
    }
  }

  lemma ReplicatedBound(n: NodeState, responder: Address)
    ensures Replicated(n, responder) <= LastIndex(n)
  {
  }

  /** The commit rule (sections 5.3 and 5.4 of the Raft paper) in closed form: the new
      commit index is the ceil(n/2)-th largest match index if that lies ahead and is of the
      current term, and otherwise the old one. */
  lemma ScanIsMedian(n: NodeState, responder: Address)
    requires NodeOrdered(n) && n.role.Leader?
    ensures var q := Replicated(n, responder);
            NewCommit(n, responder)
            == if q > n.commitIndex && Get(n.log, q).Some? && n.log[q].term == n.currentTerm then q else n.commitIndex
  {
    hide Replicated;
    ScanFinds(n, responder, n.commitIndex + 1, n.commitIndex);
  }

  /** When no match index exceeds the leader's log, the replicated index is the order
      statistic itself. */
  lemma ReplicatedIsKth(n: NodeState, responder: Address)
    requires forall i :: 0 <= i < |n.peers| ==> Lookup(n.matchIndex, n.peers[i]) <= LastIndex(n)
    ensures Replicated(n, responder) == KthLargest(Matches(n, responder), Majority(|n.peers|))
  {
    var s := Matches(n, responder);
    var k := Majority(|n.peers|);
    HeldBound(n, n.peers, responder);
    NoneFrom(s, LastIndex(n) + 1);
    KthLargestCounts(s, k, LastIndex(n) + 1);
  }

  lemma {:induction false} HeldBound(n: NodeState, peers: seq<Address>, responder: Address)
    requires forall i :: 0 <= i < |peers| ==> Lookup(n.matchIndex, peers[i]) <= LastIndex(n)
    ensures forall i :: 0 <= i < |peers| ==> Held(n, peers, responder)[i] <= LastIndex(n)
  {
    if |peers| > 0 { HeldBound(n, peers[1..], responder); }
  }
}
