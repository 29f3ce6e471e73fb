/** The node's status: fields in memory, six of them mirrored in the shared store. */
module Statuses {
  import opened Types
  import opened Decimal
  import opened Storage

  /** Whatever the store holds under the status keys can be read back. */
  predicate Readable(data: Data) {
    && (ADDRESS_KEY in data ==> data[ADDRESS_KEY].AddressJson?)
    && (PEERS_KEY in data ==> data[PEERS_KEY].AddressesJson?)
    && (VOTE_KEY in data ==> data[VOTE_KEY].Text?)
    && IntReadable(data, TERM_KEY) && IntReadable(data, CHANGE_INDEX_KEY) && IntReadable(data, CHANGE_TERM_KEY)
  }

  predicate IntReadable(data: Data, key: string) {
    key in data ==> data[key].Text? && exists x: int :: x == IntAt(data[key].text) && data[key] == Text(FormatInt(x))
  }

  function TextOf(v: Value): string {
    if v.Text? then v.text else ""
  }

  function IntAt(text: string): int {
    var p := ParseInt(text);
    if p.Some? then p.value else 0
  }

  function IntIn(data: Data, key: string, default: int): int {
    if key in data then IntAt(TextOf(data[key])) else default
  }

  function TextIn(data: Data, key: string): string {
    if key in data then TextOf(data[key]) else ""
  }

  lemma ReadInt(data: Data, key: string, x: int, default: int)
    requires IntReadable(data, key)
    ensures IntStored(data, key, x, default) <==> x == IntIn(data, key, default)
  {
    RoundTrip(x);
    if key in data { RoundTrip(IntAt(TextOf(data[key]))); }
  }

  class Status {
    const storage: Store
    const minElectionTimeout: int
    var role: Role
    var address: Address
    var currentTerm: int
    var votedFor: Address
    var voteCount: int
    var commitIndex: int
    var lastApplied: int
    var peers: seq<Address>
    var nextIndex: map<Address, int>
    var matchIndex: map<Address, int>
    var changeIndex: int
    var changeTerm: int
    var leaderLastHeard: int

    function Persisted(): Durable
      reads this
    {
      Durable(address, peers, currentTerm, votedFor, changeIndex, changeTerm)
    }

    /** Every persisted field is in the store. */
    ghost predicate Valid()
      reads this, storage
    {
      StatusStored(storage.data, Persisted())
    }

    /** Recover from the store; address and peers given here are only defaults, saved when
        the store has none. */
    constructor (nodeAddress: Address, peerAddresses: seq<Address>, storage: Store, minElectionTimeout: int, longAgo: int)
      requires Readable(storage.data)
      modifies storage
      ensures this.storage == storage && this.minElectionTimeout == minElectionTimeout && leaderLastHeard == longAgo
      ensures Valid()
      ensures forall d :: StatusStored(old(storage.data), d) ==> Persisted() == d && storage.data == old(storage.data)
      ensures OnlyStatusWritten(old(storage.data), storage.data)
      ensures (forall key :: IsStatusKey(key) ==> key !in old(storage.data)) ==>
                Persisted() == Durable(nodeAddress, peerAddresses, 0, "", -1, -1)
      ensures role == Follower && voteCount == 0 && commitIndex == -1 && lastApplied == -1
      ensures nextIndex == Indices(peers, map[], 0) && matchIndex == Indices(peers, map[], -1)
    {
      hide Readable, StatusStored, OnlyStatusWritten, SavedAddress, SavedPeers, Indices, IntIn, TextIn;
      ghost var start := storage.data;
      this.storage, this.minElectionTimeout, leaderLastHeard := storage, minElectionTimeout, longAgo;
      role, voteCount, commitIndex, lastApplied := Follower, 0, -1, -1;
      var own := LoadAddress(storage, nodeAddress);
      var term := LoadInt(storage, TERM_KEY, 0);
      var vote := LoadVote(storage);
      var others := LoadPeers(storage, peerAddresses);
      var index := LoadInt(storage, CHANGE_INDEX_KEY, -1);
      var change := LoadInt(storage, CHANGE_TERM_KEY, -1);
      address, peers, currentTerm, votedFor, changeIndex, changeTerm := own, others, term, vote, index, change;
      var next, match' := Rebuilt(others, map[], map[]);
      nextIndex, matchIndex := next, match';
      new;
      RecoveredRight(start, storage.data, Persisted(), nodeAddress, peerAddresses);
    }

    static method LoadInt(storage: Store, key: string, default: int) returns (x: int)
      requires Readable(storage.data) && (key == TERM_KEY || key == CHANGE_INDEX_KEY || key == CHANGE_TERM_KEY)
      ensures x == IntIn(storage.data, key, default)
    {
      hide IntAt;
      var stored := storage.Get(key);
      x := if stored.None? then default else IntAt(stored.value.text);
    }

    static method LoadVote(storage: Store) returns (vote: Address)
      requires Readable(storage.data)
      ensures vote == TextIn(storage.data, VOTE_KEY)
    {
      var stored := storage.Get(VOTE_KEY);
      vote := if stored.None? then "" else stored.value.text;
    }

    static method LoadAddress(storage: Store, default: Address) returns (address: Address)
      requires Readable(storage.data)
      modifies storage
      ensures storage.data == SavedAddress(old(storage.data), default)
      ensures Readable(storage.data) && ADDRESS_KEY in storage.data && storage.data[ADDRESS_KEY] == AddressJson(address)
    {
      StatusKeysDistinct();
      var stored := storage.Get(ADDRESS_KEY);
      if stored.None? {
        storage.Set(ADDRESS_KEY, AddressJson(default));
        return default;
      }
      address := stored.value.address;
    }

    static method LoadPeers(storage: Store, default: seq<Address>) returns (peers: seq<Address>)
      requires Readable(storage.data)
      modifies storage
      ensures storage.data == SavedPeers(old(storage.data), default)
      ensures Readable(storage.data) && PEERS_KEY in storage.data && storage.data[PEERS_KEY] == AddressesJson(peers)
    {
      StatusKeysDistinct();
      var stored := storage.Get(PEERS_KEY);
      if stored.None? {
        storage.Set(PEERS_KEY, AddressesJson(default));
        return default;
      }
      peers := stored.value.addresses;
    }

    /** Both index maps for a new list of peers. */
    static method Rebuilt(others: seq<Address>, oldNext: map<Address, int>, oldMatch: map<Address, int>)
      returns (next: map<Address, int>, match': map<Address, int>)
      ensures next == Indices(others, oldNext, 0) && match' == Indices(others, oldMatch, -1)
    {
      next, match' := map[], map[];
      for i := 0 to |others|
        invariant next == Indices(others[..i], oldNext, 0) && match' == Indices(others[..i], oldMatch, -1)
      {
        var a := others[i];
        assert others[..i + 1][..i] == others[..i];
        next := next[a := if a in oldNext then oldNext[a] else 0];
        match' := match'[a := if a in oldMatch then oldMatch[a] else -1];
      }
      assert others[..|others|] == others;
    }

    method SetState(newRole: Role)
      modifies this`role
      ensures role == newRole
    {
      role := newRole;
    }

    method SetCurrentTerm(newTerm: int)
      requires Valid()
      modifies this`currentTerm, storage
      ensures Valid() && currentTerm == newTerm && storage.data == old(storage.data)[TERM_KEY := Text(FormatInt(newTerm))]
      ensures OnlyStatusWritten(old(storage.data), storage.data)
    {
      StatusKeysDistinct();
      currentTerm := newTerm;
      storage.Set(TERM_KEY, Text(FormatInt(newTerm)));
    }

    method SetVotedFor(newVote: Address)
      requires Valid()
      modifies this`votedFor, storage
      ensures Valid() && votedFor == newVote && storage.data == old(storage.data)[VOTE_KEY := Text(newVote)]
      ensures OnlyStatusWritten(old(storage.data), storage.data)
    {
      StatusKeysDistinct();
      votedFor := newVote;
      storage.Set(VOTE_KEY, Text(newVote));
    }

    method SetVoteCount(count: int)
      modifies this`voteCount
      ensures voteCount == count
    {
      voteCount := count;
    }

    method SetCommitIndex(index: int)
      modifies this`commitIndex
      ensures commitIndex == index
    {
      commitIndex := index;
    }

    method SetLastApplied(index: int)
      modifies this`lastApplied
      ensures lastApplied == index
    {
      lastApplied := index;
    }

    /** Both index maps are rebuilt: known peers keep their indices, new ones start afresh,
        and nobody else keeps any. */
    method SetPeerAddresses(newPeers: seq<Address>)
      requires Valid()
      modifies this`peers, this`nextIndex, this`matchIndex, storage
      ensures Valid() && peers == newPeers && storage.data == old(storage.data)[PEERS_KEY := AddressesJson(newPeers)]
      ensures OnlyStatusWritten(old(storage.data), storage.data)
      ensures nextIndex == Indices(newPeers, old(nextIndex), 0) && matchIndex == Indices(newPeers, old(matchIndex), -1)
    {
      StatusKeysDistinct();
      storage.Set(PEERS_KEY, AddressesJson(newPeers));
      nextIndex, matchIndex := Rebuilt(newPeers, nextIndex, matchIndex);
      peers := newPeers;
    }

    method SetNextIndex(peer: Address, index: int)
      modifies this`nextIndex
      ensures nextIndex == old(nextIndex)[peer := index]
    {
      nextIndex := nextIndex[peer := index];
    }

    method SetMatchIndex(peer: Address, index: int)
      modifies this`matchIndex
      ensures matchIndex == old(matchIndex)[peer := index]
    {
      matchIndex := matchIndex[peer := index];
    }

    method SetClusterChange(index: int, term: int)
      requires Valid()
      modifies this`changeIndex, this`changeTerm, storage
      ensures Valid() && changeIndex == index && changeTerm == term
      ensures storage.data == old(storage.data)[CHANGE_INDEX_KEY := Text(FormatInt(index))][CHANGE_TERM_KEY := Text(FormatInt(term))]
      ensures OnlyStatusWritten(old(storage.data), storage.data)
    {
      StatusKeysDistinct();
      changeIndex := index;
      storage.Set(CHANGE_INDEX_KEY, Text(FormatInt(index)));
      changeTerm := term;
      storage.Set(CHANGE_TERM_KEY, Text(FormatInt(term)));
    }

    method SetLeaderLastHeard(instant: int)
      modifies this`leaderLastHeard
      ensures leaderLastHeard == instant
    {
      leaderLastHeard := instant;
    }
  }

  function SavedAddress(data: Data, default: Address): Data {
    if ADDRESS_KEY in data then data else data[ADDRESS_KEY := AddressJson(default)]
  }

  function SavedPeers(data: Data, default: seq<Address>): Data {
    if PEERS_KEY in data then data else data[PEERS_KEY := AddressesJson(default)]
  }

  /** What recovery read and wrote amounts to. */
  lemma RecoveredRight(before: Data, after: Data, d: Durable, address: Address, peers: seq<Address>)
    requires Readable(before) && after == SavedPeers(SavedAddress(before, address), peers)
    requires ADDRESS_KEY in SavedAddress(before, address)
    requires SavedAddress(before, address)[ADDRESS_KEY] == AddressJson(d.address)
    requires PEERS_KEY in after && after[PEERS_KEY] == AddressesJson(d.peers)
    requires d.currentTerm == IntIn(SavedAddress(before, address), TERM_KEY, 0)
    requires d.votedFor == TextIn(SavedAddress(before, address), VOTE_KEY)
    requires d.changeIndex == IntIn(after, CHANGE_INDEX_KEY, -1) && d.changeTerm == IntIn(after, CHANGE_TERM_KEY, -1)
    ensures StatusStored(after, d)
    ensures OnlyStatusWritten(before, after)
    ensures forall e :: StatusStored(before, e) ==> d == e && after == before
    ensures (forall key :: IsStatusKey(key) ==> key !in before) ==> d == Durable(address, peers, 0, "", -1, -1)
  {
    StatusKeysDistinct();
    ReadInt(after, TERM_KEY, d.currentTerm, 0);
    ReadInt(after, CHANGE_INDEX_KEY, d.changeIndex, -1);
    ReadInt(after, CHANGE_TERM_KEY, d.changeTerm, -1);
    forall e | StatusStored(before, e) ensures d == e && after == before {
      ReadInt(before, TERM_KEY, e.currentTerm, 0);
      ReadInt(before, CHANGE_INDEX_KEY, e.changeIndex, -1);
      ReadInt(before, CHANGE_TERM_KEY, e.changeTerm, -1);
    }
  }
}
