/** Runs of the storage in which any write may be cut short by a crash. After a crash inside a
    compaction the stored start still points at deleted entries: the log is sound from a cut on. */
module CrashRuns {
  import opened Wrappers
  import opened LogStorage

  /** Every index of [cut, last] holds its own entry, and nothing is stored between start and cut. */
  predicate Holed(db: Db, cut: nat) {
    && 1 <= db.first <= cut
    && (forall i :: cut <= i <= db.last ==> i in db.entries && db.entries[i].index == i)
    && forall i :: db.first <= i < cut ==> i !in db.entries
  }

  /** The log from the cut on. */
  function Shown(db: Db, cut: nat): Log
    requires Holed(db, cut)
  {
    Visible(db.(first := cut))
  }

  /** An operation, and how many of its durable writes happened before the next reopening; all of them
      when there was no crash. */
  datatype Step = Step(op: Op, writes: nat)

  function StepDb(db: Db, step: Step): Db {
    var journal := Journal(db, step.op);
    if step.writes == 0 || journal == [] then db
    else if step.writes <= |journal| then journal[step.writes - 1]
    else journal[|journal| - 1]
  }

  /** Where the sound log begins after a step. */
  function StepCut(db: Db, cut: nat, step: Step): nat {
    match step.op
    case Append(_) => cut
    case Compact(through) =>
      if db.first + step.writes <= through + 1 then Max(cut, db.first + step.writes)
      else if step.writes == 0 then cut else Max(cut, through + 1)
    case ApplySnapshot(s) => if step.writes < 3 then cut else Max(cut, s.index + 1)
  }

  /** Raft's call contract: appends continue the sound log, the stored start never moves back. */
  predicate MayStep(db: Db, log: Log, op: Op) {
    match op
    case Append(es) => MayAppend(log, es)
    case Compact(through) => db.first <= through + 1
    case ApplySnapshot(s) => db.first <= s.index + 1
  }

  /** The abstract effect: a whole append or none of it, a drop up to the new cut. */
  function StepLog(db: Db, cut: nat, log: Log, step: Step): Log
    requires log.first == cut && MayStep(db, log, step.op)
  {
    match step.op
    case Append(es) => if step.writes == 0 then log else Appended(log, es)
    case _ => var next := StepCut(db, cut, step); Log(next, log.From(next))
  }

  lemma CutDbIsOk(db: Db, cut: nat)
    requires Holed(db, cut)
    ensures DbOk(db.(first := cut)) && Shown(db, cut).first == cut
  {
  }

  lemma NothingAppendedBelow(m: map<nat, Entry>, es: seq<Entry>, lo: nat, cut: nat)
    requires Contiguous(es) && es != [] && cut <= es[0].index && forall i :: lo <= i < cut ==> i !in m
    ensures forall i :: lo <= i < cut ==> i !in PutAll(m, es)
  {
    hide PutAll;
    PutAllContent(m, es);
  }

  lemma AppendedStart(db: Db, cut: nat, es: seq<Entry>)
    requires Holed(db, cut) && es != [] && MayAppend(Shown(db, cut), es)
    ensures 1 <= AppendDb(db, es).first <= cut && db.first <= AppendDb(db, es).first
    ensures AppendDb(db, es).(first := cut) == AppendDb(db.(first := cut), es)
  {
    hide PutAll, Visible;
  }

  lemma AppendStep(db: Db, cut: nat, es: seq<Entry>)
    requires Holed(db, cut) && MayAppend(Shown(db, cut), es)
    ensures Holed(AppendDb(db, es), cut) && Shown(AppendDb(db, es), cut) == Appended(Shown(db, cut), es)
  {
    if es != [] {
      hide PutAll, Appended, Visible;
      CutDbIsOk(db, cut);
      AppendRefines(db.(first := cut), es);
      AppendedStart(db, cut, es);
      NothingAppendedBelow(db.entries, es, db.first, cut);
    }
  }

  /** Deleting below the cut or some way up, and moving the stored start no further than the new cut. */
  lemma DropStep(db: Db, cut: nat, after: Db, next: nat)
    requires Holed(db, cut) && cut <= next && db.first <= after.first <= next && after.last == db.last
    requires forall i :: next <= i ==> (i in after.entries <==> i in db.entries)
    requires forall i :: next <= i && i in db.entries ==> after.entries[i] == db.entries[i]
    requires forall i :: after.first <= i < next ==> i !in after.entries
    ensures Holed(after, next) && Shown(after, next) == Log(next, Shown(db, cut).From(next))
  {
    assert Shown(after, next).entries == Shown(db, cut).From(next);
  }

  lemma CompactStep(db: Db, cut: nat, through: nat, writes: nat)
    requires Holed(db, cut) && db.first <= through + 1 && writes > 0
    ensures var step := Step(Compact(through), writes);
            var after, next := StepDb(db, step), StepCut(db, cut, step);
            Holed(after, next) && Shown(after, next) == Log(next, Shown(db, cut).From(next))
  {
    hide CompactJournal, Shown;
    CompactJournalShape(db, through);
    var step := Step(Compact(through), writes);
    DropStep(db, cut, StepDb(db, step), StepCut(db, cut, step));
  }

  lemma SnapshotStep(db: Db, cut: nat, s: Snapshot, writes: nat)
    requires Holed(db, cut) && db.first <= s.index + 1
    ensures var step := Step(ApplySnapshot(s), writes);
            var after, next := StepDb(db, step), StepCut(db, cut, step);
            Holed(after, next) && Shown(after, next) == Log(next, Shown(db, cut).From(next))
  {
    hide Shown;
    var step := Step(ApplySnapshot(s), writes);
    DropStep(db, cut, StepDb(db, step), StepCut(db, cut, step));
  }

  lemma NoWrites(db: Db, cut: nat, op: Op)
    requires Holed(db, cut)
    ensures StepDb(db, Step(op, 0)) == db && StepCut(db, cut, Step(op, 0)) == cut
    ensures Log(cut, Shown(db, cut).From(cut)) == Shown(db, cut)
  {
  }

  lemma StepIsSound(db: Db, cut: nat, step: Step)
    requires Holed(db, cut) && MayStep(db, Shown(db, cut), step.op)
    ensures var after, next := StepDb(db, step), StepCut(db, cut, step);
            Holed(after, next) && Shown(after, next) == StepLog(db, cut, Shown(db, cut), step)
  {
    hide Holed, Shown;
    CutDbIsOk(db, cut);
    NoWrites(db, cut, step.op);
    if step.writes > 0 {
      match step.op
      case Append(es) => AppendStep(db, cut, es);
      case Compact(through) => CompactStep(db, cut, through, step.writes);
      case ApplySnapshot(s) => SnapshotStep(db, cut, s, step.writes);
    }
  }

  datatype Run = Run(db: Db, cut: nat, log: Log)

  /** The run, as long as every operation keeps the call contract. */
  function Execute(conf: set<nat>, steps: seq<Step>): (run: Option<Run>)
    ensures run.Some? ==> run.value.log.first == run.value.cut
  {
    if steps == [] then Some(Run(NewDb(conf), 1, Log(1, [])))
    else
      match Execute(conf, steps[..|steps| - 1])
      case None => None
      case Some(r) =>
        var step := steps[|steps| - 1];
        if MayStep(r.db, r.log, step.op)
        then Some(Run(StepDb(r.db, step), StepCut(r.db, r.cut, step), StepLog(r.db, r.cut, r.log, step)))
        else None
  }

  /** Every run of writes, each cut short by a crash or not, shows exactly the abstract log from its
      cut on, and nothing between the stored start and the cut. */
  lemma {:induction false} RunsWithCrashesRefine(conf: set<nat>, steps: seq<Step>)
    ensures var r := Execute(conf, steps);
            r.Some? ==> Holed(r.value.db, r.value.cut) && Shown(r.value.db, r.value.cut) == r.value.log
  {
    if steps == [] {
      EmptyStore(conf);
    } else if Execute(conf, steps).Some? {
      hide Holed, Shown, StepLog, StepDb, StepCut, MayStep;
      RunsWithCrashesRefine(conf, steps[..|steps| - 1]);
      var r := Execute(conf, steps[..|steps| - 1]).value;
      StepIsSound(r.db, r.cut, steps[|steps| - 1]);
    }
  }

  lemma EmptyStore(conf: set<nat>)
    ensures Holed(NewDb(conf), 1) && Shown(NewDb(conf), 1) == Log(1, [])
  {
  }

  /** In such a state a read succeeds exactly inside the sound log, with the longest fitting prefix of
      it; a read that starts in the hole is an error, never a wrong entry. */
  lemma ReadsAreSound(db: Db, cut: nat, low: nat, high: nat, max: Option<nat>)
    requires Holed(db, cut) && low < high
    ensures Read(db, low, high, max).Ok? <==> cut <= low && high <= db.last + 1
    ensures Read(db, low, high, max).Ok? ==>
              IsLongestPrefix(Read(db, low, high, max).value, Shown(db, cut).entries[low - cut..high - cut], max)
    ensures db.first <= low < cut ==> Read(db, low, high, max) == Err(Unavailable)
  {
    CutDbIsOk(db, cut);
    hide IsLongestPrefix;
    ReadIsLongestPrefix(db.(first := cut), low, high, max);
  }

  /** Completing the compaction, or any later one, closes the hole. */
  lemma RedoClosesTheHole(db: Db, cut: nat, through: nat)
    requires Holed(db, cut) && cut <= through + 1
    ensures DbOk(CompactDb(db, through)) && Visible(CompactDb(db, through)) == Dropped(Shown(db, cut), through)
  {
    DropStep(db, cut, CompactDb(db, through), through + 1);
  }
}
