/** The durable log: a stack of entries kept one key each in the shared store. */
module RaftLogs {
  import opened Types
  import opened Decimal
  import opened Storage

  class RaftLog {
    const storage: Store
    var lastIndex: int

    ghost predicate Valid()
      reads this, storage
    {
      lastIndex >= -1 && exists log :: LogStored(storage.data, log) && |log| == lastIndex + 1
    }

    /** The sequence of entries the store holds. */
    function Contents(): (log: seq<LogEntry>)
      requires Valid()
      reads this, storage
      ensures LogStored(storage.data, log) && |log| == lastIndex + 1
    {
      ghost var log :| LogStored(storage.data, log) && |log| == lastIndex + 1;
      Listed(storage.data, log);
      EntriesOf(storage.data, lastIndex + 1)
    }

    /** Open the log a store holds; nothing comes back if the last index does not parse. */
    static method Open(storage: Store) returns (r: Option<RaftLog>)
      ensures forall log :: LogStored(storage.data, log) ==>
                r.Some? && fresh(r.value) && r.value.storage == storage && r.value.Valid() && r.value.Contents() == log
    {
      var marshal := storage.Get(LAST_KEY);
      var last := -1;
      forall log | LogStored(storage.data, log)
        ensures marshal.Some? ==> marshal.value == Text(FormatInt(|log| - 1)) && ParseInt(FormatInt(|log| - 1)) == Some(|log| - 1)
      {
        RoundTrip(|log| - 1);
      }
      if marshal.Some? {
        if !marshal.value.Text? {
          return None;
        }
        var parsed := ParseInt(marshal.value.text);
        if parsed.None? {
          return None;
        }
        last := parsed.value;
      }
      var opened' := new RaftLog(storage, last);
      r := Some(opened');
      forall log | LogStored(storage.data, log) ensures opened'.Valid() && opened'.Contents() == log {
        assert opened'.lastIndex == |log| - 1;
        assert opened'.Valid();
        LogStoredUnique(storage.data, log, opened'.Contents());
      }
    }

    constructor (storage: Store, lastIndex: int)
      ensures this.storage == storage && this.lastIndex == lastIndex
    {
      this.storage := storage;
      this.lastIndex := lastIndex;
    }

    /** Push. */
    method Append(entry: LogEntry)
      requires Valid()
      modifies this, storage
      ensures Valid() && Contents() == old(Contents()) + [entry]
      ensures var last := |old(Contents())|;
              storage.data == old(storage.data)["/raft/log/index=" + FormatInt(last) := EntryJson(entry)]
                                               ["/raft/log/lastIndex" := Text(FormatInt(last))]
      ensures OnlyLogWritten(old(storage.data), storage.data)
    {
      hide LogStored, FormatInt;
      ghost var before := Contents();
      AppendStored(storage.data, before, entry);
      EntryKeys(lastIndex + 1);
      storage.Set(EntryKey(lastIndex + 1), EntryJson(entry));
      lastIndex := lastIndex + 1;
      storage.Set(LAST_KEY, Text(FormatInt(lastIndex)));
      assert LogStored(storage.data, before + [entry]);
      LogStoredUnique(storage.data, before + [entry], Contents());
    }

    /** Pop; `ok` is false for the panic on an empty log. */
    method Remove() returns (ok: bool)
      requires Valid()
      modifies this, storage
      ensures Valid() && ok == (|old(Contents())| > 0)
      ensures Contents() == if ok then old(Contents())[..|old(Contents())| - 1] else old(Contents())
      ensures var last := |old(Contents())| - 1;
              storage.data == if ok then (old(storage.data) - {"/raft/log/index=" + FormatInt(last)})
                                           ["/raft/log/lastIndex" := Text(FormatInt(last - 1))]
                              else old(storage.data)
      ensures OnlyLogWritten(old(storage.data), storage.data)
    {
      hide LogStored, FormatInt;
      if lastIndex == -1 {
        return false;
      }
      ghost var before := Contents();
      RemoveStored(storage.data, before);
      EntryKeys(lastIndex);
      storage.Delete(EntryKey(lastIndex));
      storage.Set(LAST_KEY, Text(FormatInt(lastIndex - 1)));
      lastIndex := lastIndex - 1;
      ok := true;
      assert LogStored(storage.data, before[..|before| - 1]);
      LogStoredUnique(storage.data, before[..|before| - 1], Contents());
    }

    /** Replace; `ok` is false for the error on an index past the end. A negative index is
        not refused and plants a stray entry. */
    method Update(index: int, entry: LogEntry) returns (ok: bool)
      requires Valid()
      modifies storage
      ensures ok == (index <= lastIndex)
      ensures storage.data == if ok then old(storage.data)[EntryKey(index) := EntryJson(entry)] else old(storage.data)
      ensures OnlyLogWritten(old(storage.data), storage.data)
      ensures !ok ==> Valid() && Contents() == old(Contents())
      ensures 0 <= index <= lastIndex ==> Valid() && Contents() == old(Contents())[index := entry]
      ensures Valid() <==> index >= 0 || index > lastIndex
    {
      ghost var before := Contents();
      if index > lastIndex {
        return false;
      }
      EntryKeys(index);
      if index >= 0 { UpdateStored(storage.data, before, index, entry); }
      storage.Set(EntryKey(index), EntryJson(entry));
      ok := true;
      if index >= 0 {
        assert LogStored(storage.data, before[index := entry]);
        LogStoredUnique(storage.data, before[index := entry], Contents());
      } else {
        assert EntryKey(index) in storage.data;
      }
    }

    /** Read: something exactly for the indices of the log. */
    method Get(index: int) returns (r: Option<LogEntry>)
      requires Valid()
      ensures r == Types.Get(Contents(), index)
    {
      ghost var log := Contents();
      var marshal := storage.Get(EntryKey(index));
      assert EntryKey(index) in storage.data <==> 0 <= index < |log|;
      if marshal.None? {
        return None;
      }
      assert marshal.value == EntryJson(log[index]);
      r := Some(marshal.value.entry);
    }
  }

  /** The first `n` entries in the store. */
  function EntriesOf(data: Data, n: nat): seq<LogEntry>
    requires forall i :: 0 <= i < n ==> EntryKey(i) in data && data[EntryKey(i)].EntryJson?
  {
    seq(n, i requires 0 <= i < n => data[EntryKey(i)].entry)
  }

  lemma Listed(data: Data, log: seq<LogEntry>)
    requires LogStored(data, log)
    ensures forall i :: 0 <= i < |log| ==> EntryKey(i) in data && data[EntryKey(i)].EntryJson?
    ensures EntriesOf(data, |log|) == log
  {
  }
}
