/** The storage object: database, two cached indices, and reopening after a crash. */
module RocksStorage {
  import opened Wrappers
  import opened LogStorage

  class RocksDBStorage {
    // durable
    var entries: map<nat, Entry>
    var firstIndex: nat
    var lastIndex: nat
    var snapshot: Option<Snapshot>
    var conf: set<nat>

    // volatile
    var firstIndexCache: nat
    var lastIndexCache: nat

    /** Every durable state written so far, in order. */
    ghost var journal: seq<Db>

    ghost function Stored(): Db
      reads this
    {
      Db(entries, firstIndex, lastIndex, snapshot, conf)
    }

    /** The caches answer for the stored indices. */
    ghost predicate CachesAgree()
      reads this
    {
      firstIndexCache == firstIndex && lastIndexCache == lastIndex
    }

    /** First start: an empty log has first index 1 and last index 0. */
    constructor Create(conf: set<nat>)
      ensures Stored() == NewDb(conf) && CachesAgree() && journal == []
    {
      entries, snapshot, this.conf, journal := map[], None, conf, [];
      firstIndex, lastIndex := 1, 0;
      firstIndexCache, lastIndexCache := 1, 0;
    }

    /** Reopening whatever a crash left: the caches are reloaded from the stored indices. */
    constructor Reopen(db: Db)
      ensures Stored() == db && CachesAgree() && journal == []
    {
      entries, snapshot, conf, journal := db.entries, db.snapshot, db.conf, [];
      firstIndex, lastIndex := db.first, db.last;
      firstIndexCache, lastIndexCache := db.first, db.last;
    }

    method Append(es: seq<Entry>)
      requires CachesAgree()
      modifies this
      ensures Stored() == AppendDb(old(Stored()), es) && CachesAgree()
      ensures journal == old(journal) + AppendJournal(old(Stored()), es)
    {
      if es == [] {
        return;
      }
      var batch := entries;
      for i := 0 to |es|
        invariant batch == PutAll(entries, es[..i])
        invariant Stored() == old(Stored()) && CachesAgree() && journal == old(journal)
      {
        assert es[..i + 1][..i] == es[..i];
        batch := batch[es[i].index := es[i]];
      }
      assert es[..|es|] == es;
      var last := es[|es| - 1].index;
      var first := firstIndex;
      if lastIndexCache == 0 {
        first := es[0].index;
        firstIndexCache := first;
      }
      // one atomic batch
      entries, lastIndex, firstIndex := batch, last, first;
      journal := journal + [Stored()];
      lastIndexCache := last;
    }

    method Compact(through: nat)
      requires CachesAgree()
      modifies this
      ensures Stored() == CompactDb(old(Stored()), through) && CachesAgree()
      ensures journal == old(journal) + CompactJournal(old(Stored()), through)
    {
      hide DeleteRange, CompactJournal;
      ghost var db := Stored();
      ghost var steps := CompactJournal(db, through);
      var first := firstIndexCache;
      var idx := first;
      CompactJournalShape(db, through);
      while idx <= through
        invariant first <= idx && (idx <= through + 1 || idx == first)
        invariant CachesAgree()
        invariant Stored() == db.(entries := DeleteRange(db.entries, first, idx))
        invariant journal == old(journal) + steps[..idx - first]
      {
        DeleteNext(db.entries, first, idx);
        entries := entries - {idx};
        journal := journal + [Stored()];
        assert steps[..idx + 1 - first] == steps[..idx - first] + [steps[idx - first]];
        idx := idx + 1;
      }
      firstIndex := through + 1;
      journal := journal + [Stored()];
      assert steps == steps[..|steps| - 1] + [Stored()];
      firstIndexCache := through + 1;
    }

    method ApplySnapshot(s: Snapshot)
      requires CachesAgree()
      modifies this
      ensures Stored() == SnapshotDb(old(Stored()), s) && CachesAgree()
      ensures snapshot == Some(s) && conf == s.conf && lastIndex == old(lastIndex) && entries == old(entries)
      ensures journal == old(journal) + SnapshotJournal(old(Stored()), s)
    {
      snapshot := Some(s);
      journal := journal + [Stored()];
      conf := s.conf;
      journal := journal + [Stored()];
      firstIndex := s.index + 1;
      journal := journal + [Stored()];
      firstIndexCache := s.index + 1;
    }

    method Entries(low: nat, high: nat, maxSize: Option<nat>) returns (r: Result<seq<Entry>, StorageError>)
      requires CachesAgree()
      ensures r == Read(Stored(), low, high, maxSize)
    {
      if low >= high {
        return Ok([]);
      }
      if low < firstIndexCache {
        return Err(Compacted);
      }
      if high > lastIndexCache + 1 {
        return Err(Unavailable);
      }
      var found: seq<Entry> := [];
      var total: nat := 0;
      var idx := low;
      ghost var want := ReadFrom(entries, low, high, 0, maxSize);
      assert want.Ok? ==> found + want.value == want.value;
      while idx < high
        invariant low <= idx <= high
        invariant want == match ReadFrom(entries, idx, high, total, maxSize)
                          case Ok(rest) => Ok(found + rest)
                          case Err(e) => Err(e)
      {
        if idx !in entries {
          return Err(Unavailable);
        }
        var e := entries[idx];
        if maxSize.Some? && total > 0 && total + e.size > maxSize.value {
          break;
        }
        ghost var rest := ReadFrom(entries, idx + 1, high, total + e.size, maxSize);
        assert rest.Ok? ==> found + ([e] + rest.value) == (found + [e]) + rest.value;
        total := total + e.size;
        found := found + [e];
        idx := idx + 1;
      }
      assert found + [] == found;
      return Ok(found);
    }

    /** The stored snapshot and the configuration it left are what is read back. */
    method GetSnapshot() returns (s: Option<Snapshot>)
      ensures s == Stored().snapshot
    {
      s := snapshot;
    }

    method SnapshotToSend(request: nat) returns (r: Result<Snapshot, StorageError>)
      ensures r == SnapshotFor(Stored(), request)
    {
      var stored := GetSnapshot();
      match stored {
        case Some(s) =>
          if s.index < request {
            return Err(SnapshotTemporarilyUnavailable);
          }
          return Ok(s);
        case None =>
          return Err(SnapshotTemporarilyUnavailable);
      }
    }

    method InitialConf() returns (c: set<nat>)
      ensures c == Stored().conf
    {
      c := conf;
    }

    method FirstIndex() returns (first: nat)
      requires CachesAgree()
      ensures first == Stored().first
    {
      first := firstIndexCache;
    }

    method LastIndex() returns (last: nat)
      requires CachesAgree()
      ensures last == Stored().last
    {
      last := lastIndexCache;
    }

    method Term(idx: nat) returns (r: Result<nat, StorageError>)
      requires CachesAgree()
      ensures r == TermOf(Stored(), idx)
    {
      if snapshot.Some? {
        if idx == snapshot.value.index {
          return Ok(snapshot.value.term);
        }
      } else if idx == 0 {
        return Ok(0);
      }
      if idx < firstIndexCache {
        return Err(Compacted);
      }
      if idx > lastIndexCache {
        return Err(Unavailable);
      }
      if idx in entries {
        return Ok(entries[idx].term);
      }
      return Err(Unavailable);
    }
  }
}
