/** The key-value store a node's log and status share, and what each of them keeps in it. */
module Storage {
  import opened Types
  import opened Decimal

  /** Stored bytes: plain text, or the (lossless) JSON encoding of a value. */
  datatype Value = Text(text: string) | EntryJson(entry: LogEntry) | AddressJson(address: Address) | AddressesJson(addresses: seq<Address>)

  type Data = map<string, Value>

  class Store {
    var data: Data

    constructor ()
      ensures data == map[]
    {
      data := map[];
    }

    method Get(key: string) returns (r: Option<Value>)
      ensures r == if key in data then Some(data[key]) else None
    {
      r := if key in data then Some(data[key]) else None;
    }

    method Set(key: string, value: Value)
      modifies this
      ensures data == old(data)[key := value]
    {
      data := data[key := value];
    }

    method Delete(key: string)
      modifies this
      ensures data == old(data) - {key}
    {
      data := data - {key};
    }
  }

  // ----- keys -----

  const LOG_PREFIX: string := "/raft/log/"
  const LAST_KEY: string := "/raft/log/lastIndex"
  const ENTRY_PREFIX: string := "/raft/log/index="

  function EntryKey(i: int): string {
    ENTRY_PREFIX + FormatInt(i)
  }

  predicate IsLogKey(key: string) {
    LOG_PREFIX <= key
  }

  const ADDRESS_KEY: string := "/raft/nodeAddress"
  const TERM_KEY: string := "/raft/currentTerm"
  const VOTE_KEY: string := "/raft/votedFor"
  const PEERS_KEY: string := "/raft/peerAddresses"
  const CHANGE_INDEX_KEY: string := "/raft/clusterChangeIndex"
  const CHANGE_TERM_KEY: string := "/raft/clusterChangeTerm"

  predicate IsStatusKey(key: string) {
    key == ADDRESS_KEY || key == TERM_KEY || key == VOTE_KEY || key == PEERS_KEY
    || key == CHANGE_INDEX_KEY || key == CHANGE_TERM_KEY
  }

  lemma KeysApart(key: string)
    requires IsStatusKey(key)
    ensures !IsLogKey(key)
  {
    assert LOG_PREFIX[6] == 'l';
    assert key[6] != 'l';
  }

  lemma StatusKeysDistinct()
    ensures ADDRESS_KEY != TERM_KEY && ADDRESS_KEY != VOTE_KEY && ADDRESS_KEY != PEERS_KEY
    ensures ADDRESS_KEY != CHANGE_INDEX_KEY && ADDRESS_KEY != CHANGE_TERM_KEY
    ensures TERM_KEY != VOTE_KEY && TERM_KEY != PEERS_KEY && TERM_KEY != CHANGE_INDEX_KEY && TERM_KEY != CHANGE_TERM_KEY
    ensures VOTE_KEY != PEERS_KEY && VOTE_KEY != CHANGE_INDEX_KEY && VOTE_KEY != CHANGE_TERM_KEY
    ensures PEERS_KEY != CHANGE_INDEX_KEY && PEERS_KEY != CHANGE_TERM_KEY && CHANGE_INDEX_KEY != CHANGE_TERM_KEY
  {
    assert CHANGE_INDEX_KEY[19] == 'I' && CHANGE_TERM_KEY[19] == 'T';
    assert ADDRESS_KEY[6] == 'n' && TERM_KEY[7] == 'u' && VOTE_KEY[6] == 'v' && PEERS_KEY[6] == 'p';
    assert CHANGE_INDEX_KEY[7] == 'l' && CHANGE_TERM_KEY[7] == 'l' && VOTE_KEY[7] == 'o' && PEERS_KEY[7] == 'e' && ADDRESS_KEY[7] == 'o';
  }

  lemma EntryKeys(i: int)
    ensures IsLogKey(EntryKey(i)) && IsLogKey(LAST_KEY) && EntryKey(i) != LAST_KEY
  {
    assert EntryKey(i)[10] == 'i' && LAST_KEY[10] == 'l';
    assert forall j :: 0 <= j < |LOG_PREFIX| ==> LOG_PREFIX[j] == ENTRY_PREFIX[j] == EntryKey(i)[j];
  }

  lemma EntryKeyInjective(i: int, j: int)
    ensures EntryKey(i) == EntryKey(j) ==> i == j
  {
    RoundTrip(i);
    RoundTrip(j);
    assert EntryKey(i)[|ENTRY_PREFIX|..] == FormatInt(i);
    assert EntryKey(j)[|ENTRY_PREFIX|..] == FormatInt(j);
  }

  // ----- the log in the store -----

  /** The store holds exactly the entries of `log`, one key each, and its last index (which
      is absent until something was appended). */
  ghost predicate LogStored(data: Data, log: seq<LogEntry>) {
    && (LAST_KEY in data ==> data[LAST_KEY] == Text(FormatInt(|log| - 1)))
    && (LAST_KEY !in data ==> |log| == 0)
    && (forall i: int :: EntryKey(i) in data <==> 0 <= i < |log|)
    && (forall i: int :: 0 <= i < |log| ==> data[EntryKey(i)] == EntryJson(log[i]))
  }

  /** The store determines the log. */
  lemma LogStoredUnique(data: Data, a: seq<LogEntry>, b: seq<LogEntry>)
    requires LogStored(data, a) && LogStored(data, b)
    ensures a == b
  {
    assert (EntryKey(|a|) in data <==> 0 <= |a| < |a|) && (EntryKey(|a|) in data <==> 0 <= |a| < |b|);
    assert (EntryKey(|b|) in data <==> 0 <= |b| < |b|) && (EntryKey(|b|) in data <==> 0 <= |b| < |a|);
    forall i | 0 <= i < |a| ensures a[i] == b[i] { assert data[EntryKey(i)] == EntryJson(a[i]); }
  }

  /** Nothing outside the status keys changed. */
  ghost predicate OnlyStatusWritten(before: Data, after: Data) {
    forall key :: !IsStatusKey(key) ==> (key in before <==> key in after) && (key in before ==> before[key] == after[key])
  }

  /** Nothing outside the log keys changed. */
  ghost predicate OnlyLogWritten(before: Data, after: Data) {
    forall key :: !IsLogKey(key) ==> (key in before <==> key in after) && (key in before ==> before[key] == after[key])
  }

  lemma StatusWritesKeepLog(before: Data, after: Data, log: seq<LogEntry>)
    requires LogStored(before, log) && OnlyStatusWritten(before, after)
    ensures LogStored(after, log)
  {
    forall key | IsLogKey(key) ensures !IsStatusKey(key) {
      if IsStatusKey(key) { KeysApart(key); }
    }
    forall i: int ensures EntryKey(i) in after <==> EntryKey(i) in before { EntryKeys(i); }
    EntryKeys(0);
    forall i: int | 0 <= i < |log| ensures after[EntryKey(i)] == EntryJson(log[i]) { EntryKeys(i); }
  }

  // ----- the status in the store -----

  /** The part of the status that survives a restart. */
  datatype Durable = Durable(address: Address, peers: seq<Address>, currentTerm: int, votedFor: Address, changeIndex: int, changeTerm: int)

  predicate IntStored(data: Data, key: string, x: int, default: int) {
    if key in data then data[key] == Text(FormatInt(x)) else x == default
  }

  ghost predicate StatusStored(data: Data, d: Durable) {
    && ADDRESS_KEY in data && data[ADDRESS_KEY] == AddressJson(d.address)
    && PEERS_KEY in data && data[PEERS_KEY] == AddressesJson(d.peers)
    && IntStored(data, TERM_KEY, d.currentTerm, 0)
    && (if VOTE_KEY in data then data[VOTE_KEY] == Text(d.votedFor) else d.votedFor == "")
    && IntStored(data, CHANGE_INDEX_KEY, d.changeIndex, -1)
    && IntStored(data, CHANGE_TERM_KEY, d.changeTerm, -1)
  }

  lemma LogWritesKeepStatus(before: Data, after: Data, d: Durable)
    requires StatusStored(before, d) && OnlyLogWritten(before, after)
    ensures StatusStored(after, d)
  {
    KeysApart(ADDRESS_KEY);
    KeysApart(PEERS_KEY);
    KeysApart(TERM_KEY);
    KeysApart(VOTE_KEY);
    KeysApart(CHANGE_INDEX_KEY);
    KeysApart(CHANGE_TERM_KEY);
  }

  // ----- the stack -----

  lemma AppendStored(data: Data, log: seq<LogEntry>, e: LogEntry)
    requires LogStored(data, log)
    ensures LogStored(data[EntryKey(|log|) := EntryJson(e)][LAST_KEY := Text(FormatInt(|log|))], log + [e])
  {
    var data' := data[EntryKey(|log|) := EntryJson(e)][LAST_KEY := Text(FormatInt(|log|))];
    var log' := log + [e];
    forall i: int ensures EntryKey(i) in data' <==> 0 <= i < |log'| {
      EntryKeys(i);
      EntryKeyInjective(i, |log|);
    }
    forall i: int | 0 <= i < |log'| ensures data'[EntryKey(i)] == EntryJson(log'[i]) {
      EntryKeys(i);
      EntryKeyInjective(i, |log|);
    }
  }

  lemma RemoveStored(data: Data, log: seq<LogEntry>)
    requires LogStored(data, log) && |log| > 0
    ensures LogStored((data - {EntryKey(|log| - 1)})[LAST_KEY := Text(FormatInt(|log| - 2))], log[..|log| - 1])
  {
    var data' := (data - {EntryKey(|log| - 1)})[LAST_KEY := Text(FormatInt(|log| - 2))];
    forall i: int ensures EntryKey(i) in data' <==> 0 <= i < |log| - 1 {
      EntryKeys(i);
      EntryKeyInjective(i, |log| - 1);
    }
    forall i: int | 0 <= i < |log| - 1 ensures data'[EntryKey(i)] == EntryJson(log[i]) {
      EntryKeys(i);
      EntryKeyInjective(i, |log| - 1);
    }
  }

  lemma UpdateStored(data: Data, log: seq<LogEntry>, k: nat, e: LogEntry)
    requires LogStored(data, log) && k < |log|
    ensures LogStored(data[EntryKey(k) := EntryJson(e)], log[k := e])
  {
    var data' := data[EntryKey(k) := EntryJson(e)];
    EntryKeys(k);
    forall i: int ensures EntryKey(i) in data' <==> 0 <= i < |log| { EntryKeyInjective(i, k); }
    forall i: int | 0 <= i < |log| ensures data'[EntryKey(i)] == EntryJson(log[k := e][i]) { EntryKeyInjective(i, k); }
  }
}
