/** The persistent Raft log as a value: what the database holds durably, the visible log it
    stands for, and the effect of every write, down to the single durable steps. */
module LogStorage {
  import opened Wrappers

  /** An encoded entry is never empty. */
  type Size = n: nat | 0 < n witness 1

  /** `size` is the encoded length. */
  datatype Entry = Entry(index: nat, term: nat, data: Bytes, size: Size)

  datatype Snapshot = Snapshot(index: nat, term: nat, conf: set<nat>, data: Bytes)

  datatype StorageError = Compacted | Unavailable | SnapshotTemporarilyUnavailable

  /** The durable content: entries by index, the two stored indices, snapshot and configuration. */
  datatype Db = Db(entries: map<nat, Entry>, first: nat, last: nat, snapshot: Option<Snapshot>, conf: set<nat>)

  function NewDb(conf: set<nat>): Db {
    Db(map[], 1, 0, None, conf)
  }

  // ----- The visible log -----

  /** A log with an offset: entries[i] has index first + i. */
  datatype Log = Log(first: nat, entries: seq<Entry>) {
    function Next(): nat {
      first + |entries|
    }

    function From(index: nat): seq<Entry>
      requires first <= index
    {
      if index <= Next() then entries[index - first..] else []
    }
  }

  predicate Contiguous(es: seq<Entry>) {
    forall i :: 0 <= i < |es| ==> es[i].index == es[0].index + i
  }

  /** Every index of [first, last] holds its own entry. */
  predicate DbOk(db: Db) {
    && 1 <= db.first
    && forall i :: db.first <= i <= db.last ==> i in db.entries && db.entries[i].index == i
  }

  function VisibleLength(db: Db): nat {
    if db.first <= db.last then db.last + 1 - db.first else 0
  }

  function Visible(db: Db): (log: Log)
    requires DbOk(db)
    ensures log.first == db.first && |log.entries| == VisibleLength(db)
    ensures forall i :: db.first <= i <= db.last ==> log.entries[i - db.first] == db.entries[i]
  {
    Log(db.first, seq(VisibleLength(db), i requires 0 <= i < VisibleLength(db) => db.entries[db.first + i]))
  }

  // ----- What the operations mean on the visible log -----

  /** Raft appends contiguous entries that leave no gap and do not reach below the log. */
  predicate MayAppend(log: Log, es: seq<Entry>) {
    es == [] || (Contiguous(es) && log.first <= es[0].index <= log.Next())
  }

  /** Truncate at the first new index, then extend. */
  function Appended(log: Log, es: seq<Entry>): Log
    requires MayAppend(log, es)
  {
    if es == [] then log else Log(log.first, log.entries[..es[0].index - log.first] + es)
  }

  /** Raft never moves the start of the log back. */
  predicate MayDrop(log: Log, through: nat) {
    log.first <= through + 1
  }

  function Dropped(log: Log, through: nat): Log
    requires MayDrop(log, through)
  {
    Log(through + 1, log.From(through + 1))
  }

  // ----- What the operations do to the database -----

  function PutAll(m: map<nat, Entry>, es: seq<Entry>): map<nat, Entry> {
    if es == [] then m else PutAll(m, es[..|es| - 1])[es[|es| - 1].index := es[|es| - 1]]
  }

  function AppendDb(db: Db, es: seq<Entry>): Db {
    if es == [] then db
    else db.(entries := PutAll(db.entries, es), last := es[|es| - 1].index,
             first := if db.last == 0 then es[0].index else db.first)
  }

  function DeleteRange(m: map<nat, Entry>, lo: nat, hi: nat): map<nat, Entry> {
    map i | i in m && !(lo <= i < hi) :: m[i]
  }

  function CompactDb(db: Db, through: nat): Db {
    db.(entries := DeleteRange(db.entries, db.first, through + 1), first := through + 1)
  }

  function SnapshotDb(db: Db, s: Snapshot): Db {
    db.(snapshot := Some(s), conf := s.conf, first := s.index + 1)
  }

  // ----- Reads -----

  /** Read on from idx: stop before the entry that would exceed the limit, fail on a missing one. */
  function ReadFrom(
    m: map<nat, Entry>, idx: nat, high: nat, total: nat, max: Option<nat>): Result<seq<Entry>, StorageError>
    decreases high - idx
  {
    if idx >= high then Ok([])
    else if idx !in m then Err(Unavailable)
    else
      var e := m[idx];
      if max.Some? && total > 0 && total + e.size > max.value then Ok([])
      else
        match ReadFrom(m, idx + 1, high, total + e.size, max)
        case Ok(rest) => Ok([e] + rest)
        case Err(error) => Err(error)
  }

  function Read(db: Db, low: nat, high: nat, max: Option<nat>): Result<seq<Entry>, StorageError> {
    if low >= high then Ok([])
    else if low < db.first then Err(Compacted)
    else if high > db.last + 1 then Err(Unavailable)
    else ReadFrom(db.entries, low, high, 0, max)
  }

  function TermOf(db: Db, idx: nat): Result<nat, StorageError> {
    if db.snapshot.Some? && idx == db.snapshot.value.index then Ok(db.snapshot.value.term)
    else if db.snapshot.None? && idx == 0 then Ok(0)
    else if idx < db.first then Err(Compacted)
    else if idx > db.last then Err(Unavailable)
    else if idx in db.entries then Ok(db.entries[idx].term)
    else Err(Unavailable)
  }

  /** The snapshot to send to a peer that asks for one reaching at least `request`. */
  function SnapshotFor(db: Db, request: nat): Result<Snapshot, StorageError> {
    if db.snapshot.None? || db.snapshot.value.index < request then Err(SnapshotTemporarilyUnavailable)
    else Ok(db.snapshot.value)
  }

  // ----- Refinement of the visible log -----

  lemma {:induction false} PutAllContent(m: map<nat, Entry>, es: seq<Entry>)
    requires Contiguous(es)
    ensures forall i :: 0 <= i < |es| ==> es[i].index in PutAll(m, es) && PutAll(m, es)[es[i].index] == es[i]
    ensures forall k :: (k in PutAll(m, es) <==> k in m || (|es| > 0 && es[0].index <= k < es[0].index + |es|))
    ensures forall k :: k in m && !(|es| > 0 && es[0].index <= k < es[0].index + |es|) ==> PutAll(m, es)[k] == m[k]
  {
    if es != [] {
      PutAllContent(m, es[..|es| - 1]);
    }
  }

  lemma AppendedEntry(db: Db, es: seq<Entry>, k: nat)
    requires DbOk(db) && es != [] && MayAppend(Visible(db), es)
    ensures AppendDb(db, es).first == db.first && es[0].index <= AppendDb(db, es).last
    ensures db.first <= k <= AppendDb(db, es).last ==>
              && k in AppendDb(db, es).entries && AppendDb(db, es).entries[k].index == k
              && AppendDb(db, es).entries[k]
                  == if es[0].index <= k then es[k - es[0].index] else Visible(db).entries[k - db.first]
  {
    PutAllContent(db.entries, es);
    if db.first <= k <= AppendDb(db, es).last && es[0].index <= k {
      assert es[k - es[0].index].index == k;
    }
  }

  lemma AppendRefines(db: Db, es: seq<Entry>)
    requires DbOk(db) && MayAppend(Visible(db), es)
    ensures DbOk(AppendDb(db, es)) && Visible(AppendDb(db, es)) == Appended(Visible(db), es)
  {
    if es != [] {
      hide PutAll;
      var after, want := AppendDb(db, es), Appended(Visible(db), es);
      forall k: nat | db.first <= k <= after.last
        ensures k in after.entries && after.entries[k].index == k && after.entries[k] == want.entries[k - db.first]
      {
        AppendedEntry(db, es, k);
      }
      AppendedEntry(db, es, 0);
      assert Visible(after).entries == want.entries;
    }
  }

  /** The first append to a store without entries may begin anywhere: the log starts at its first index. */
  lemma FirstAppendSetsStart(db: Db, es: seq<Entry>)
    requires db.last == 0 && es != [] && Contiguous(es) && 1 <= es[0].index
    ensures DbOk(AppendDb(db, es)) && Visible(AppendDb(db, es)) == Log(es[0].index, es)
  {
    hide PutAll;
    var after := AppendDb(db, es);
    PutAllContent(db.entries, es);
    forall k: nat | after.first <= k <= after.last
      ensures k in after.entries && after.entries[k].index == k && after.entries[k] == es[k - es[0].index]
    {
      assert es[k - es[0].index].index == k;
    }
    assert Visible(after).entries == es;
  }

  lemma CompactRefines(db: Db, through: nat)
    requires DbOk(db) && MayDrop(Visible(db), through)
    ensures DbOk(CompactDb(db, through)) && Visible(CompactDb(db, through)) == Dropped(Visible(db), through)
  {
    assert Visible(CompactDb(db, through)).entries == Dropped(Visible(db), through).entries;
  }

  lemma SnapshotRefines(db: Db, s: Snapshot)
    requires DbOk(db) && MayDrop(Visible(db), s.index)
    ensures DbOk(SnapshotDb(db, s)) && Visible(SnapshotDb(db, s)) == Dropped(Visible(db), s.index)
  {
    assert Visible(SnapshotDb(db, s)).entries == Dropped(Visible(db), s.index).entries;
  }

  // ----- Snapshots against section 7 of the Raft paper -----

  /** What section 7 asks for: the entries behind a snapshot are kept only if the log holds an entry
      with the snapshot's index and term; otherwise the whole log is discarded. */
  function SectionSeven(log: Log, s: Snapshot): Log
    requires log.first <= s.index
  {
    if s.index < log.Next() && log.entries[s.index - log.first].term == s.term then Dropped(log, s.index)
    else Log(s.index + 1, [])
  }

  /** The code keeps the suffix in any case. That is what section 7 asks for if and only if there is no
      suffix or the visible entry at the snapshot's index has the snapshot's term. */
  lemma SnapshotMeetsSectionSevenExactly(db: Db, s: Snapshot)
    requires DbOk(db) && db.first <= s.index
    ensures DbOk(SnapshotDb(db, s))
    ensures Visible(SnapshotDb(db, s)) == SectionSeven(Visible(db), s)
            <==> db.last <= s.index || Visible(db).entries[s.index - db.first].term == s.term
  {
    SnapshotRefines(db, s);
    DroppedLength(Visible(db), s.index);
    hide DbOk, Visible, Dropped, SnapshotDb;
  }

  lemma DroppedLength(log: Log, through: nat)
    requires MayDrop(log, through)
    ensures Dropped(log, through).first == through + 1
    ensures |Dropped(log, through).entries| == if log.Next() <= through + 1 then 0 else log.Next() - through - 1
  {
  }

  /** A log of three entries of term 1, and a snapshot up to index 2 with term 2: entry 3 of term 1
      stays visible, where section 7 discards it. */
  lemma ConflictingSuffixStays()
    ensures var es := [Entry(1, 1, [], 1), Entry(2, 1, [], 1), Entry(3, 1, [], 1)];
            var db, s := AppendDb(NewDb({1}), es), Snapshot(2, 2, {1}, []);
            && DbOk(db) && Visible(db) == Log(1, es)
            && DbOk(SnapshotDb(db, s)) && Visible(SnapshotDb(db, s)) == Log(3, [es[2]])
            && SectionSeven(Visible(db), s) == Log(3, [])
  {
    var es := [Entry(1, 1, [], 1), Entry(2, 1, [], 1), Entry(3, 1, [], 1)];
    var db := AppendDb(NewDb({1}), es);
    assert Visible(NewDb({1})) == Log(1, []);
    AppendRefines(NewDb({1}), es);
    SnapshotRefines(db, Snapshot(2, 2, {1}, []));
  }

  /** A snapshot labelled below the start of the log moves the start back: the log is intact only if
      every entry from there on is still stored. */
  lemma SnapshotBelowStartExactly(db: Db, s: Snapshot)
    requires DbOk(db) && s.index + 1 < db.first
    ensures DbOk(SnapshotDb(db, s)) <==>
            forall i :: s.index < i < db.first && i <= db.last ==> i in db.entries && db.entries[i].index == i
  {
    if forall i :: s.index < i < db.first && i <= db.last ==> i in db.entries && db.entries[i].index == i {
      forall i: nat | s.index + 1 <= i <= db.last ensures i in db.entries && db.entries[i].index == i {
        if i < db.first {
          assert s.index < i;
        }
      }
    }
  }

  datatype Op = Append(es: seq<Entry>) | Compact(through: nat) | ApplySnapshot(s: Snapshot)

  predicate Legal(log: Log, op: Op) {
    match op
    case Append(es) => MayAppend(log, es)
    case Compact(through) => MayDrop(log, through)
    case ApplySnapshot(s) => MayDrop(log, s.index)
  }

  function OpOnLog(log: Log, op: Op): Log
    requires Legal(log, op)
  {
    match op
    case Append(es) => Appended(log, es)
    case Compact(through) => Dropped(log, through)
    case ApplySnapshot(s) => Dropped(log, s.index)
  }

  function OpOnDb(db: Db, op: Op): Db {
    match op
    case Append(es) => AppendDb(db, es)
    case Compact(through) => CompactDb(db, through)
    case ApplySnapshot(s) => SnapshotDb(db, s)
  }

  /** The abstract run, as long as every operation keeps Raft's call contract. */
  function RunLog(log: Log, ops: seq<Op>): Option<Log> {
    if ops == [] then Some(log)
    else
      match RunLog(log, ops[..|ops| - 1])
      case None => None
      case Some(before) =>
        var op := ops[|ops| - 1];
        if Legal(before, op) then Some(OpOnLog(before, op)) else None
  }

  function RunDb(db: Db, ops: seq<Op>): Db {
    if ops == [] then db else OpOnDb(RunDb(db, ops[..|ops| - 1]), ops[|ops| - 1])
  }

  /** The stored snapshot ends below the visible log. */
  predicate BoundaryBelowStart(db: Db) {
    db.snapshot.Some? ==> db.snapshot.value.index < db.first
  }

  /** Every run of writes that keeps Raft's call contract shows exactly the abstract log:
      truncate-then-extend appends, drops from the front, and no stale entry ever visible. */
  lemma {:induction false} RunsRefine(conf: set<nat>, ops: seq<Op>)
    ensures var log := RunLog(Log(1, []), ops);
            log.Some? ==>
              && DbOk(RunDb(NewDb(conf), ops)) && Visible(RunDb(NewDb(conf), ops)) == log.value
              && BoundaryBelowStart(RunDb(NewDb(conf), ops))
  {
    if ops != [] && RunLog(Log(1, []), ops).Some? {
      RunsRefine(conf, ops[..|ops| - 1]);
      var db, op := RunDb(NewDb(conf), ops[..|ops| - 1]), ops[|ops| - 1];
      match op
      case Append(es) => AppendRefines(db, es);
      case Compact(through) => CompactRefines(db, through);
      case ApplySnapshot(s) => SnapshotRefines(db, s);
    }
  }

  // ----- Reading a snapshot back -----

  /** After any run the snapshot read back is, data included, the one applied last, for every request it
      reaches; and the stored configuration is the one it carries. */
  lemma {:induction false} LastSnapshotIsReadBack(conf: set<nat>, ops: seq<Op>, k: nat, s: Snapshot)
    requires k < |ops| && ops[k] == ApplySnapshot(s) && forall i :: k < i < |ops| ==> !ops[i].ApplySnapshot?
    ensures var db := RunDb(NewDb(conf), ops);
            && db.snapshot == Some(s) && db.conf == s.conf
            && (forall request: nat :: request <= s.index ==> SnapshotFor(db, request) == Ok(s))
            && forall request: nat :: request > s.index ==>
                 SnapshotFor(db, request) == Err(SnapshotTemporarilyUnavailable)
  {
    if k < |ops| - 1 {
      var front := ops[..|ops| - 1];
      assert front[k] == ops[k] && !ops[|ops| - 1].ApplySnapshot?;
      LastSnapshotIsReadBack(conf, front, k, s);
    }
  }

  /** Before the first snapshot there is none to send, and the configuration is the initial one. */
  lemma {:induction false} NoSnapshotYet(conf: set<nat>, ops: seq<Op>, request: nat)
    requires forall i :: 0 <= i < |ops| ==> !ops[i].ApplySnapshot?
    ensures var db := RunDb(NewDb(conf), ops);
            db.conf == conf && SnapshotFor(db, request) == Err(SnapshotTemporarilyUnavailable)
  {
    if ops != [] {
      assert !ops[|ops| - 1].ApplySnapshot?;
      NoSnapshotYet(conf, ops[..|ops| - 1], request);
    }
  }

  /** A crash while a snapshot is applied leaves the whole old one or the whole new one, and never the new
      configuration or the new start without it. */
  lemma SnapshotCrashReads(db: Db, s: Snapshot, crashed: Db, request: nat)
    requires crashed in SnapshotJournal(db, s)
    ensures SnapshotFor(crashed, request) == if s.index < request then Err(SnapshotTemporarilyUnavailable) else Ok(s)
    ensures crashed.entries == db.entries && crashed.last == db.last
    ensures crashed.conf == db.conf || crashed.conf == s.conf
    ensures crashed.first == db.first || (crashed.first == s.index + 1 && crashed.conf == s.conf)
  {
  }

  // ----- The last index -----

  /** last_index reports the end of the visible log if and only if the start is at most one behind it. */
  lemma LastIndexMeetsLogExactly(db: Db)
    requires DbOk(db)
    ensures db.last + 1 == Visible(db).Next() <==> db.first <= db.last + 1
  {
  }

  /** The operations that keep it so, or restore it. */
  predicate MeetsAfter(db: Db, op: Op) {
    match op
    case Append(es) => es != [] || db.first <= db.last + 1
    case Compact(through) => through <= db.last
    case ApplySnapshot(s) => s.index <= db.last
  }

  /** After an operation the two agree exactly if it was a real append, or dropped no further than the
      last entry: a snapshot beyond the last entry leaves last_index behind the start of the log. */
  lemma LastIndexAfterExactly(db: Db, op: Op)
    requires DbOk(db) && Legal(Visible(db), op)
    ensures DbOk(OpOnDb(db, op))
    ensures OpOnDb(db, op).last + 1 == Visible(OpOnDb(db, op)).Next() <==> MeetsAfter(db, op)
  {
    match op
    case Append(es) =>
      AppendRefines(db, es);
      if es != [] {
        AppendedEntry(db, es, 0);
      }
    case Compact(through) => CompactRefines(db, through);
    case ApplySnapshot(s) => SnapshotRefines(db, s);
  }

  // ----- What a run has kept in the store -----

  function Max(a: nat, b: nat): nat {
    if a <= b then b else a
  }

  /** Every entry behind this index is stored: raised by compactions and by snapshots beyond the last entry. */
  function StoredBehind(conf: set<nat>, ops: seq<Op>): nat {
    if ops == [] then 0
    else
      var before, db := StoredBehind(conf, ops[..|ops| - 1]), RunDb(NewDb(conf), ops[..|ops| - 1]);
      match ops[|ops| - 1]
      case Append(_) => before
      case Compact(through) => Max(before, through)
      case ApplySnapshot(s) => if s.index > db.last then Max(before, s.index) else before
  }

  /** The highest index a compaction deleted, 0 if none did. */
  function DeletedUpTo(conf: set<nat>, ops: seq<Op>): nat {
    if ops == [] then 0
    else
      var before, db := DeletedUpTo(conf, ops[..|ops| - 1]), RunDb(NewDb(conf), ops[..|ops| - 1]);
      match ops[|ops| - 1]
      case Compact(through) => if db.first <= through then through else before
      case _ => before
  }

  ghost predicate KeptBehind(db: Db, b: nat) {
    && b < db.first && (db.last + 1 < db.first ==> b + 1 == db.first)
    && forall i :: b < i <= db.last ==> i in db.entries && db.entries[i].index == i
  }

  predicate GoneAt(db: Db, d: nat) {
    d < db.first && (d > 0 ==> d !in db.entries)
  }

  lemma AppendKeeps(db: Db, es: seq<Entry>, b: nat, d: nat)
    requires DbOk(db) && MayAppend(Visible(db), es) && KeptBehind(db, b) && GoneAt(db, d)
    ensures KeptBehind(AppendDb(db, es), b) && GoneAt(AppendDb(db, es), d)
  {
    if es != [] {
      hide PutAll;
      PutAllContent(db.entries, es);
      AppendedEntry(db, es, 0);
      var after := AppendDb(db, es);
      forall i | b < i <= after.last ensures i in after.entries && after.entries[i].index == i {
        if i < es[0].index {
          assert i <= db.last;
        } else {
          assert es[i - es[0].index].index == i;
        }
      }
    }
  }

  lemma CompactKeeps(db: Db, through: nat, b: nat, d: nat)
    requires db.first <= through + 1 && KeptBehind(db, b) && GoneAt(db, d)
    ensures KeptBehind(CompactDb(db, through), Max(b, through))
    ensures GoneAt(CompactDb(db, through), if db.first <= through then through else d)
  {
  }

  lemma SnapshotKeeps(db: Db, s: Snapshot, b: nat, d: nat)
    requires db.first <= s.index + 1 && KeptBehind(db, b) && GoneAt(db, d)
    ensures KeptBehind(SnapshotDb(db, s), if s.index > db.last then Max(b, s.index) else b)
    ensures GoneAt(SnapshotDb(db, s), d)
  {
  }

  lemma {:induction false} RunKeeps(conf: set<nat>, ops: seq<Op>)
    requires RunLog(Log(1, []), ops).Some?
    ensures KeptBehind(RunDb(NewDb(conf), ops), StoredBehind(conf, ops))
    ensures GoneAt(RunDb(NewDb(conf), ops), DeletedUpTo(conf, ops))
  {
    if ops == [] {
      NothingKept(conf);
    } else {
      hide KeptBehind, GoneAt, DbOk, AppendDb, CompactDb, SnapshotDb;
      var front := ops[..|ops| - 1];
      RunKeeps(conf, front);
      RunsRefine(conf, front);
      var db, b, d := RunDb(NewDb(conf), front), StoredBehind(conf, front), DeletedUpTo(conf, front);
      match ops[|ops| - 1]
      case Append(es) => AppendKeeps(db, es, b, d);
      case Compact(through) => CompactKeeps(db, through, b, d);
      case ApplySnapshot(s) => SnapshotKeeps(db, s, b, d);
    }
  }

  lemma NothingKept(conf: set<nat>)
    ensures KeptBehind(NewDb(conf), 0) && GoneAt(NewDb(conf), 0)
  {
  }

  /** A snapshot labelled below the start, after any run: the log stays intact if the label is not below
      what compactions and snapshots beyond the end have removed, and breaks if it is below a deleted
      entry of it. */
  lemma SnapshotBelowStartAfterRun(conf: set<nat>, ops: seq<Op>, s: Snapshot)
    requires RunLog(Log(1, []), ops).Some? && s.index + 1 < RunDb(NewDb(conf), ops).first
    ensures s.index >= StoredBehind(conf, ops) ==> DbOk(SnapshotDb(RunDb(NewDb(conf), ops), s))
    ensures s.index < DeletedUpTo(conf, ops) <= RunDb(NewDb(conf), ops).last ==>
        !DbOk(SnapshotDb(RunDb(NewDb(conf), ops), s))
  {
    RunKeeps(conf, ops);
    RunsRefine(conf, ops);
    hide RunDb, RunLog, StoredBehind, DeletedUpTo;
    SnapshotBelowStartExactly(RunDb(NewDb(conf), ops), s);
  }

  // ----- Size-limited reads -----

  function SumSizes(es: seq<Entry>): nat {
    if es == [] then 0 else es[0].size + SumSizes(es[1..])
  }

  /** Longest prefix that fits on top of `total`, taking the first entry in any case when total is 0. */
  ghost predicate Fits(slice: seq<Entry>, n: nat, total: nat, max: Option<nat>) {
    && n <= |slice|
    && (slice != [] && total == 0 ==> 1 <= n)
    && (max.None? ==> n == |slice|)
    && (max.Some? ==>
          && (n == 0 || total + SumSizes(slice[..n]) <= max.value || (total == 0 && n == 1))
          && forall m :: n < m <= |slice| ==> total + SumSizes(slice[..m]) > max.value)
  }

  lemma {:induction false} SumOfPrefixGrows(es: seq<Entry>, n: nat, m: nat)
    requires n <= m <= |es|
    ensures SumSizes(es[..n]) <= SumSizes(es[..m])
  {
    if n > 0 {
      assert es[..n][1..] == es[1..][..n - 1] && es[..m][1..] == es[1..][..m - 1];
      SumOfPrefixGrows(es[1..], n - 1, m - 1);
    }
  }

  lemma PrefixSums(slice: seq<Entry>, k: nat)
    requires 0 < k <= |slice|
    ensures SumSizes(slice[..k]) == slice[0].size + SumSizes(slice[1..][..k - 1])
  {
    assert slice[..k][1..] == slice[1..][..k - 1];
  }

  lemma NothingFits(slice: seq<Entry>, total: nat, max: nat)
    requires slice != [] && total > 0 && total + slice[0].size > max
    ensures Fits(slice, 0, total, Some(max))
  {
    forall k | 0 < k <= |slice| ensures total + SumSizes(slice[..k]) > max {
      PrefixSums(slice, k);
    }
  }

  lemma {:induction false} ReadFromFits(m: map<nat, Entry>, idx: nat, slice: seq<Entry>, total: nat, max: Option<nat>)
    requires forall k :: idx <= k < idx + |slice| ==> k in m && m[k] == slice[k - idx]
    ensures var r := ReadFrom(m, idx, idx + |slice|, total, max);
            r.Ok? && |r.value| <= |slice| && r.value == slice[..|r.value|] && Fits(slice, |r.value|, total, max)
    decreases |slice|
  {
    hide Fits, SumSizes;
    if slice == [] {
      EmptyFits(total, max);
    } else if max.Some? && total > 0 && total + slice[0].size > max.value {
      NothingFits(slice, total, max.value);
    } else {
      var rest := ReadFrom(m, idx + 1, idx + |slice|, total + slice[0].size, max);
      ReadFromFits(m, idx + 1, slice[1..], total + slice[0].size, max);
      OneMoreFits(slice, |rest.value|, total, max);
      assert slice == [slice[0]] + slice[1..];
      assert ReadFrom(m, idx, idx + |slice|, total, max) == Ok([slice[0]] + rest.value);
    }
  }

  lemma EmptyFits(total: nat, max: Option<nat>)
    ensures Fits([], 0, total, max)
  {
  }

  lemma OneMoreFits(slice: seq<Entry>, n: nat, total: nat, max: Option<nat>)
    requires slice != [] && n < |slice| && Fits(slice[1..], n, total + slice[0].size, max)
    requires !(max.Some? && total > 0 && total + slice[0].size > max.value)
    ensures Fits(slice, n + 1, total, max) && slice[..n + 1] == [slice[0]] + slice[1..][..n]
  {
    hide Fits, SumSizes;
    forall k | 0 < k <= |slice| ensures SumSizes(slice[..k]) == slice[0].size + SumSizes(slice[1..][..k - 1]) {
      PrefixSums(slice, k);
    }
    FirstAlone(slice, n, total, max);
  }

  lemma FirstAlone(slice: seq<Entry>, n: nat, total: nat, max: Option<nat>)
    requires slice != [] && n < |slice| && Fits(slice[1..], n, total + slice[0].size, max)
    requires !(max.Some? && total > 0 && total + slice[0].size > max.value)
    requires forall k :: 0 < k <= |slice| ==> SumSizes(slice[..k]) == slice[0].size + SumSizes(slice[1..][..k - 1])
    ensures Fits(slice, n + 1, total, max)
  {
    if max.Some? {
      forall m | n + 1 < m <= |slice| ensures total + SumSizes(slice[..m]) > max.value {
        assert total + slice[0].size + SumSizes(slice[1..][..m - 1]) > max.value;
      }
      assert SumSizes(slice[..n + 1]) == slice[0].size + SumSizes(slice[1..][..n]);
      if n == 0 {
        assert SumSizes(slice[1..][..0]) == 0;
      }
    }
  }

  /** r is the longest non-empty prefix of the slice that fits, its first entry if none does. */
  ghost predicate IsLongestPrefix(r: seq<Entry>, slice: seq<Entry>, max: Option<nat>) {
    && 1 <= |r| <= |slice| && r == slice[..|r|]
    && (max.None? ==> r == slice)
    && (max.Some? ==>
          && (SumSizes(r) <= max.value || |r| == 1)
          && forall m :: |r| < m <= |slice| ==> SumSizes(slice[..m]) > max.value)
  }

  lemma FitsFromTheStart(slice: seq<Entry>, n: nat, max: Option<nat>)
    requires slice != [] && Fits(slice, n, 0, max)
    ensures IsLongestPrefix(slice[..n], slice, max)
  {
  }

  lemma SliceIsStored(db: Db, low: nat, high: nat)
    requires DbOk(db) && db.first <= low < high <= db.last + 1
    ensures var slice := Visible(db).entries[low - db.first..high - db.first];
            |slice| == high - low && forall k :: low <= k < high ==> k in db.entries && db.entries[k] == slice[k - low]
  {
    var all := Visible(db).entries;
    var slice := all[low - db.first..high - db.first];
    hide Visible;
    forall k | low <= k < high ensures k in db.entries && db.entries[k] == slice[k - low] {
      assert all[k - db.first] == db.entries[k];
      assert slice[k - low] == all[k - db.first];
    }
  }

  /** A read inside the log returns the longest prefix of the visible slice whose sizes sum to
      at most `max`, and never fewer than one entry; a read outside it is an error. */
  lemma ReadIsLongestPrefix(db: Db, low: nat, high: nat, max: Option<nat>)
    requires DbOk(db) && low < high
    ensures Read(db, low, high, max).Ok? <==> db.first <= low && high <= db.last + 1
    ensures var r, log := Read(db, low, high, max), Visible(db);
            r.Ok? ==> IsLongestPrefix(r.value, log.entries[low - log.first..high - log.first], max)
    ensures low < db.first ==> Read(db, low, high, max) == Err(Compacted)
    ensures db.first <= low && high > db.last + 1 ==> Read(db, low, high, max) == Err(Unavailable)
  {
    hide ReadFrom, SumSizes, Fits, DbOk, IsLongestPrefix;
    if db.first <= low && high <= db.last + 1 {
      var slice := Visible(db).entries[low - db.first..high - db.first];
      SliceIsStored(db, low, high);
      ReadFromFits(db.entries, low, slice, 0, max);
      FitsFromTheStart(slice, |ReadFrom(db.entries, low, high, 0, max).value|, max);
    }
  }

  // ----- Terms -----

  /** The term answers are those of the visible log and of the snapshot boundary alone. */
  lemma TermRefines(db: Db, idx: nat)
    requires DbOk(db)
    ensures var log, s := Visible(db), db.snapshot;
            TermOf(db, idx) ==
              if s.Some? && idx == s.value.index then Ok(s.value.term)
              else if s.None? && idx == 0 then Ok(0)
              else if idx < log.first then Err(Compacted)
              else if idx < log.Next() then Ok(log.entries[idx - log.first].term)
              else Err(Unavailable)
  {
  }

  /** A snapshot taken at a visible index keeps answering the entry's term exactly if it is
      labelled with that term. */
  lemma SnapshotTermKeptExactly(db: Db, s: Snapshot)
    requires DbOk(db) && db.first <= s.index <= db.last
    requires db.snapshot.Some? ==> db.snapshot.value.index != s.index
    ensures TermOf(SnapshotDb(db, s), s.index) == TermOf(db, s.index) <==>
        s.term == Visible(db).entries[s.index - db.first].term
  {
  }

  /** Labelling with the current hard-state term can change the answer: an entry of term 1
      snapshotted in term 2 is afterwards reported with term 2. */
  lemma HardStateTermMislabels()
    ensures var e := Entry(1, 1, [], 1);
            var db := AppendDb(NewDb({1}), [e]);
            DbOk(db) && TermOf(db, 1) == Ok(1) && TermOf(SnapshotDb(db, Snapshot(1, 2, {1}, [])), 1) == Ok(2)
  {
    PutAllContent(map[], [Entry(1, 1, [], 1)]);
  }

  // ----- Crashes -----

  /** The durable states an append passes through: one atomic batch. */
  function AppendJournal(db: Db, es: seq<Entry>): seq<Db> {
    if es == [] then [] else [AppendDb(db, es)]
  }

  /** Deletes one index after the other, then moves the stored start. */
  function CompactJournal(db: Db, through: nat): seq<Db> {
    var n := if db.first <= through then through + 1 - db.first else 0;
    seq(n, k requires 0 <= k < n => db.(entries := DeleteRange(db.entries, db.first, db.first + k + 1)))
    + [CompactDb(db, through)]
  }

  lemma CompactJournalShape(db: Db, through: nat)
    ensures var n := if db.first <= through then through + 1 - db.first else 0;
            && |CompactJournal(db, through)| == n + 1
            && CompactJournal(db, through)[n] == CompactDb(db, through)
            && (forall k :: 0 <= k < n ==>
                  CompactJournal(db, through)[k] == db.(entries := DeleteRange(db.entries, db.first, db.first + k + 1)))
            && DeleteRange(db.entries, db.first, db.first) == db.entries
            && (n == 0 ==> CompactDb(db, through).entries == db.entries)
  {
  }

  lemma DeleteNext(m: map<nat, Entry>, lo: nat, hi: nat)
    requires lo <= hi
    ensures DeleteRange(m, lo, hi) - {hi} == DeleteRange(m, lo, hi + 1)
  {
  }

  /** Snapshot, configuration and start are written one after the other. */
  function SnapshotJournal(db: Db, s: Snapshot): seq<Db> {
    [db.(snapshot := Some(s)), db.(snapshot := Some(s), conf := s.conf), SnapshotDb(db, s)]
  }

  function Journal(db: Db, op: Op): seq<Db> {
    match op
    case Append(es) => AppendJournal(db, es)
    case Compact(through) => CompactJournal(db, through)
    case ApplySnapshot(s) => SnapshotJournal(db, s)
  }

  /** A crash inside an append or a snapshot reopens to the visible log from before or after it. */
  lemma AppendAndSnapshotCrashesAreAtomic(db: Db, op: Op, crashed: Db)
    requires DbOk(db) && Legal(Visible(db), op) && !op.Compact?
    requires crashed == db || crashed in Journal(db, op)
    ensures DbOk(crashed) && (Visible(crashed) == Visible(db) || Visible(crashed) == OpOnLog(Visible(db), op))
  {
    match op
    case Append(es) => AppendRefines(db, es);
    case ApplySnapshot(s) =>
      SnapshotRefines(db, s);
      if crashed.first == db.first {
        assert Visible(crashed).entries == Visible(db).entries;
      }
  }

  /** A crash inside a snapshot gives every term as before it or as after it. */
  lemma SnapshotCrashTerms(db: Db, s: Snapshot, crashed: Db, idx: nat)
    requires DbOk(db) && MayDrop(Visible(db), s.index) && BoundaryBelowStart(db)
    requires crashed == db || crashed in SnapshotJournal(db, s)
    ensures TermOf(crashed, idx) == TermOf(db, idx) || TermOf(crashed, idx) == TermOf(SnapshotDb(db, s), idx)
  {
  }

  lemma {:induction false} ReadFromAgrees(
    m1: map<nat, Entry>, m2: map<nat, Entry>, idx: nat, high: nat, total: nat, max: Option<nat>)
    requires forall i :: idx <= i < high ==> (i in m1 <==> i in m2) && (i in m1 ==> m1[i] == m2[i])
    ensures ReadFrom(m1, idx, high, total, max) == ReadFrom(m2, idx, high, total, max)
    decreases high - idx
  {
    if idx < high && idx in m1 {
      ReadFromAgrees(m1, m2, idx + 1, high, total + m1[idx].size, max);
    }
  }

  /** Inside a compaction a leading stretch of the log is gone and the start is old or new. */
  lemma CompactCrashShape(db: Db, through: nat, crashed: Db) returns (cut: nat)
    requires DbOk(db) && MayDrop(Visible(db), through)
    requires crashed == db || crashed in CompactJournal(db, through)
    ensures crashed.last == db.last && crashed.snapshot == db.snapshot && db.first <= crashed.first <= through + 1
    ensures db.first <= cut <= through + 1 && crashed.first <= cut
    ensures forall i :: cut <= i ==> (i in crashed.entries <==> i in db.entries)
    ensures forall i :: cut <= i && i in db.entries ==> crashed.entries[i] == db.entries[i]
    ensures forall i :: db.first <= i < cut ==> i !in crashed.entries
  {
    var journal := CompactJournal(db, through);
    if crashed == db {
      cut := db.first;
    } else {
      var k :| 0 <= k < |journal| && journal[k] == crashed;
      cut := if k == |journal| - 1 then through + 1 else db.first + k + 1;
      assert crashed.entries == DeleteRange(db.entries, db.first, cut);
    }
  }

  /** A crash anywhere inside a compaction: after reopening, reads above the compaction point are
      served as before, and a read that starts at or below it gets the old answer or an error,
      never a wrong entry. */
  lemma CompactCrashNeverLies(db: Db, through: nat, crashed: Db, low: nat, high: nat, max: Option<nat>)
    requires DbOk(db) && MayDrop(Visible(db), through)
    requires crashed == db || crashed in CompactJournal(db, through)
    ensures crashed.last == db.last
    ensures low > through ==> Read(crashed, low, high, max) == Read(db, low, high, max)
    ensures Read(crashed, low, high, max) == Read(db, low, high, max) || Read(crashed, low, high, max).Err?
    ensures low > through ==> TermOf(crashed, low) == TermOf(db, low)
    ensures TermOf(crashed, low) == TermOf(db, low) || TermOf(crashed, low).Err?
  {
    hide CompactJournal, DbOk;
    var cut := CompactCrashShape(db, through, crashed);
    if low < high && crashed.first <= low && high <= db.last + 1 && cut <= low {
      ReadFromAgrees(crashed.entries, db.entries, low, high, 0, max);
    }
  }
}
