/** What every run of the replica loop keeps: replicas at the same index hold the same view,
    stored snapshots hold the log up to their label, waiters learn only their own entry's result. */
module ReplicaConvergence {
  import opened Wrappers
  import opened Replication

  lemma InstallOk<S(
    !new), C(!new), D(!new), V(!new)>(m: Machine<S, C, D, V>, log: seq<Entry<C>>, n: Node<S, D>, s: Snap<D>)
    requires Faithful(m) && NodeOk(m, log, n) && SnapOk(m, log, s) && n.applied < s.index
    ensures NodeOk(m, log, Install(m, n, Some(s)))
  {
    var n1 := Install(m, n, Some(s));
    forall i | 0 <= i < |n1.done|
      ensures n1.done[i].id in n1.registered && n1.done[i].id !in n1.pending
      ensures CompletionOk(m, log, n1.applied, n1.done[i])
    {
      assert CompletionOk(m, log, n.applied, n.done[i]);
    }
  }

  lemma SplitDelivery<T>(log: seq<T>, from: nat, a: seq<T>, b: seq<T>)
    requires from + |a| + |b| <= |log| && a + b == log[from..from + |a| + |b|]
    ensures a == log[from..from + |a|] && b == log[from + |a|..from + |a| + |b|]
  {
    assert a == (a + b)[..|a|];
    assert b == (a + b)[|a|..];
  }

  lemma BeforeSnapshotOk<S(
    !new), C(!new), D(!new), V(!new)>(m: Machine<S, C, D, V>, log: seq<Entry<C>>, n: Node<S, D>, r: Ready<C, D>)
    requires Faithful(m) && NodeOk(m, log, n) && Delivers(log, n, r)
    requires (r.snapshot.Some? ==> SnapOk(m, log, r.snapshot.value))
    ensures var n1, n0 := BeforeSnapshot(m, n, r), Install(m, n, r.snapshot);
            && NodeOk(m, log, n1)
            && n1.applied == Start(n, r) + |r.committed| + |r.light|
            && n1.lastSnap == n0.lastSnap && n1.stored == n0.stored
            && (n1.committed == n.committed <==> !HasNormal(r.committed) && !HasNormal(r.light))
            && (n1.committed != n.committed ==> n0.applied < n1.committed)
  {
    hide NodeOk, SnapOk, Faithful, HasNormal, ApplyAll;
    var n0 := Install(m, n, r.snapshot);
    if r.snapshot.Some? {
      InstallOk(m, log, n, r.snapshot.value);
    }
    SplitDelivery(log, Start(n, r), r.committed, r.light);
    var mid := ApplyAll(m, n0, r.committed);
    NodeBounds(m, log, n0);
    ApplyAllOk(m, log, n0, r.committed);
    ApplyAllOk(m, log, mid, r.light);
    NodeBounds(m, log, mid);
  }

  /** The round reaches the point where a snapshot is taken. */
  predicate Takes<S, D>(g: Settings, n: Node<S, D>) {
    && g.interval != 0
    && !(n.committed < n.lastSnap && g.overflowChecks)
    && WrappingSub(n.committed, n.lastSnap) >= g.interval
  }

  /** A build in which the subtraction of the indices wraps around unnoticed. */
  predicate Wraps(g: Settings) {
    g.interval != 0 && !g.overflowChecks
  }

  /** A snapshot that is taken holds the log up to its label if and only if the entries between the
      label and the applied position make no difference to the view. They make none when the indices
      are in order, and always in a build that does not wrap around. */
  lemma TakenSnapshotExactly<S(
    !new), C(!new), D(!new), V(!new)>(m: Machine<S, C, D, V>, log: seq<Entry<C>>, g: Settings, n: Node<S,
    D>, hardTerm: nat)
    requires Faithful(m) && NodeOk(m, log, n) && Takes(g, n)
    ensures var t := MaybeSnapshot(m, g, n, hardTerm);
            && t.Some? && t.value.stored.Some? && t.value.stored.value.index == n.committed <= n.applied <= |log|
            && (SnapOk(m, log, t.value.stored.value) <==>
                  m.view(Replay(m, log[..n.committed])) == m.view(Replay(m, log[..n.applied])))
            && (n.lastSnap <= n.committed || !Wraps(g) ==> SnapOk(m, log, t.value.stored.value))
  {
    hide WaitersOk, Replay;
    var s := MaybeSnapshot(m, g, n, hardTerm).value.stored.value;
    assert m.view(m.restore(n.sm, s.data)) == m.view(n.sm);
    if n.lastSnap <= n.committed {
      InertKeepsState(m, log, n.committed, n.applied);
    }
  }

  /** What is stored after a round: a snapshot of the state it ends in, labelled with the committed index
      and the current term, exactly when at least `interval` indices were committed since the last one;
      otherwise the snapshot it installed, or what was stored before. */
  lemma StoredAfterRound<S, C, D, V>(m: Machine<S, C, D, V>, g: Settings, n: Node<S, D>, r: Ready<C, D>)
    requires OnReady(m, g, n, r).Some?
    ensures var t := OnReady(m, g, n, r).value;
            var last := if r.snapshot.Some? then r.snapshot.value.index else n.lastSnap;
            var distance := if last <= t.committed then t.committed - last
                            else t.committed + 0x1_0000_0000_0000_0000 - last;
            if r.preCandidate || g.interval == 0 || distance < g.interval
            then t.lastSnap == last && t.stored == if r.snapshot.Some? then r.snapshot else n.stored
            else t.lastSnap == t.committed && t.stored == Some(Snap(t.committed, r.hardTerm, m.snap(t.sm)))
  {
    hide ApplyEntry;
    var n0 := Install(m, n, r.snapshot);
    BatchLeavesSnapshots(m, n0, r.committed);
    BatchLeavesSnapshots(m, ApplyAll(m, n0, r.committed), r.light);
  }

  lemma {:induction false} BatchLeavesSnapshots<S, C, D, V>(m: Machine<S, C, D, V>, n: Node<S, D>, es: seq<Entry<C>>)
    ensures ApplyAll(m, n, es).lastSnap == n.lastSnap && ApplyAll(m, n, es).stored == n.stored
  {
    if es != [] {
      BatchLeavesSnapshots(m, n, es[..|es| - 1]);
    }
  }

  lemma MaybeSnapshotOk<S(
    !new), C(!new), D(!new), V(!new)>(m: Machine<S, C, D, V>, log: seq<Entry<C>>, g: Settings, n: Node<S,
    D>, hardTerm: nat)
    requires NodeOk(m, log, n) && MaybeSnapshot(m, g, n, hardTerm).Some?
    ensures var t := MaybeSnapshot(m, g, n, hardTerm).value;
            NodeOk(m, log, t) && t.applied == n.applied && (!Takes(g, n) ==> t == n)
  {
    hide WaitersOk, Replay;
    WaitersUnchanged(m, log, n, MaybeSnapshot(m, g, n, hardTerm).value);
  }

  lemma WaitersUnchanged<S, C, D, V>(m: Machine<S, C, D, V>, log: seq<Entry<C>>, n: Node<S, D>, t: Node<S, D>)
    requires WaitersOk(m, log, n) && t.pending == n.pending && t.registered == n.registered && t.done == n.done
    requires t.applied == n.applied
    ensures WaitersOk(m, log, t)
  {
    hide CompletionOk;
  }

  /** After a round's entries the committed index lies below the snapshot index if and only if no
      normal entry was applied and the round installed a snapshot or already began that way. */
  lemma UnderflowExactly<S(
    !new), C(!new), D(!new), V(!new)>(m: Machine<S, C, D, V>, log: seq<Entry<C>>, n: Node<S, D>, r: Ready<C, D>)
    requires Faithful(m) && NodeOk(m, log, n)
    requires Delivers(log, n, r) && (r.snapshot.Some? ==> SnapOk(m, log, r.snapshot.value))
    ensures BeforeSnapshot(m, n, r).committed < BeforeSnapshot(m, n, r).lastSnap
            <==> (r.snapshot.Some? || n.committed < n.lastSnap) && !HasNormal(r.committed) && !HasNormal(r.light)
  {
    hide SnapOk, Replay, WaitersOk, HasNormal;
    BeforeSnapshotOk(m, log, n, r);
  }

  /** The loop panics on the subtraction if and only if snapshots are on, overflow is checked, the
      round is not ended early, and it is such a round. */
  lemma PanicsExactly<S(!new), C(!new), D(!new), V(!new)>(
    m: Machine<S, C, D, V>, log: seq<Entry<C>>, g: Settings, n: Node<S, D>, r: Ready<C, D>)
    requires Faithful(m) && NodeOk(m, log, n)
    requires Delivers(log, n, r) && (r.snapshot.Some? ==> SnapOk(m, log, r.snapshot.value))
    ensures OnReady(m, g, n, r).None? <==>
              && g.interval != 0 && g.overflowChecks && !r.preCandidate
              && (r.snapshot.Some? || n.committed < n.lastSnap) && !HasNormal(r.committed) && !HasNormal(r.light)
  {
    hide NodeOk, Faithful, SnapOk, HasNormal, ApplyAll;
    UnderflowExactly(m, log, n, r);
  }

  lemma EarlyRound<S, C, D, V>(m: Machine<S, C, D, V>, log: seq<Entry<C>>, g: Settings, n: Node<S, D>, r: Ready<C, D>)
    requires Delivers(log, n, r) && r.preCandidate
    ensures OnReady(m, g, n, r) == Some(BeforeSnapshot(m, n, r))
  {
  }

  /** Every round that does not panic keeps the node in order, and in a build that does not wrap
      around what it stores holds the log up to its label. */
  lemma OnReadyOk<S(
    !new), C(!new), D(!new), V(!new)>(m: Machine<S, C, D, V>, log: seq<Entry<C>>, g: Settings, n: Node<S,
    D>, r: Ready<C, D>)
    requires Faithful(m) && NodeOk(m, log, n) && OnReady(m, g, n, r).Some?
    requires Delivers(log, n, r) && (r.snapshot.Some? ==> SnapOk(m, log, r.snapshot.value))
    ensures var t := OnReady(m, g, n, r).value;
            && NodeOk(m, log, t) && t.applied == Start(n, r) + |r.committed| + |r.light|
            && (StoredOk(m, log, n) && !Wraps(g) ==> StoredOk(m, log, t))
  {
    hide NodeOk, Faithful, SnapOk, ApplyAll;
    var n1 := BeforeSnapshot(m, n, r);
    BeforeSnapshotOk(m, log, n, r);
    if r.preCandidate {
      EarlyRound(m, log, g, n, r);
    } else {
      MaybeSnapshotOk(m, log, g, n1, r.hardTerm);
      if Takes(g, n1) {
        TakenSnapshotExactly(m, log, g, n1, r.hardTerm);
      }
    }
  }

  lemma NodeSurvivesAppend<S(
    !new), C(!new), D(!new), V(!new)>(m: Machine<S, C, D, V>, log: seq<Entry<C>>, n: Node<S, D>, e: Entry<C>)
    requires NodeOk(m, log, n)
    ensures NodeOk(m, log + [e], n)
  {
    hide Replay;
    assert (log + [e])[..n.applied] == log[..n.applied];
    forall i | 0 <= i < |n.done| ensures CompletionOk(m, log + [e], n.applied, n.done[i]) {
      assert CompletionOk(m, log, n.applied, n.done[i]);
      assert (log + [e])[..n.done[i].index] == log[..n.done[i].index];
    }
  }

  lemma SnapSurvivesAppend<S(
    !new), C(!new), D(!new), V(!new)>(m: Machine<S, C, D, V>, log: seq<Entry<C>>, s: Snap<D>, e: Entry<C>)
    requires SnapOk(m, log, s)
    ensures SnapOk(m, log + [e], s)
  {
    hide Replay;
    assert (log + [e])[..s.index] == log[..s.index];
  }

  lemma RegisterOk<S(
    !new), C(!new), D(!new), V(!new)>(m: Machine<S, C, D, V>, log: seq<Entry<C>>, n: Node<S, D>, id: nat)
    requires NodeOk(m, log, n) && id !in n.registered
    ensures NodeOk(m, log, Register(n, id))
  {
    hide Replay, CompletionOk;
    var t := Register(n, id);
    forall i | 0 <= i < |t.done|
      ensures t.done[i].id in t.registered && t.done[i].id !in t.pending && CompletionOk(m, log, t.applied, t.done[i])
    {
      assert n.done[i].id in n.registered;
    }
  }

  // ----- A whole cluster -----

  /** `pool` holds every snapshot any node ever stored; `astray` are the nodes that ever installed one
      that does not hold the log up to its label. */
  datatype Cluster<S, C, D> = Cluster(
    log: seq<Entry<C>>,
    nodes: map<nat, Node<S, D>>,
    pool: seq<Snap<D>>,
    astray: set<nat>)

  datatype Step<C, D> =
    | Grow(e: Entry<C>)                   // consensus commits an entry
    | Round(node: nat, r: Ready<C, D>)    // a node runs one round of its loop
    | Wait(node: nat, id: nat)            // a waiter registers under a fresh id
    | Forget(node: nat, id: nat)          // a failed proposal is taken back

  ghost predicate Enabled<S, C, D>(c: Cluster<S, C, D>, step: Step<C, D>) {
    match step
    case Grow(_) => true
    case Round(n, r) =>
      n in c.nodes && Delivers(c.log, c.nodes[n], r) && (r.snapshot.Some? ==> r.snapshot.value in c.pool)
    case Wait(n, id) => n in c.nodes && id !in c.nodes[n].registered
    case Forget(n, id) => n in c.nodes
  }

  /** The round installs a snapshot that does not hold the log up to its label. */
  ghost predicate Misled<S(!new), C, D, V>(m: Machine<S, C, D, V>, log: seq<Entry<C>>, r: Ready<C, D>) {
    r.snapshot.Some? && !SnapOk(m, log, r.snapshot.value)
  }

  ghost function Next<S(
    !new), C, D, V>(m: Machine<S, C, D, V>, g: Settings, c: Cluster<S, C, D>, step: Step<C, D>): Cluster<S, C, D>
    requires Enabled(c, step)
  {
    match step
    case Grow(e) => c.(log := c.log + [e])
    case Round(n, r) =>
      (match OnReady(m, g, c.nodes[n], r)
       case None => c.(nodes := c.nodes - {n})
       case Some(t) => c.(nodes := c.nodes[n := t],
                          pool := c.pool + (if t.stored.Some? then [t.stored.value] else []),
                          astray := c.astray + if Misled(m, c.log, r) then {n} else {}))
    case Wait(n, id) => c.(nodes := c.nodes[n := Register(c.nodes[n], id)])
    case Forget(n, id) => c.(nodes := c.nodes[n := c.nodes[n].(pending := c.nodes[n].pending - {id})])
  }

  ghost predicate ClusterOk<S(
    !new), C(!new), D(!new), V(!new)>(m: Machine<S, C, D, V>, g: Settings, c: Cluster<S, C, D>) {
    && (forall n :: n in c.nodes && n !in c.astray ==> NodeOk(m, c.log, c.nodes[n]))
    && (!Wraps(g) ==> Sound(m, c))
  }

  /** Nobody is astray, and every stored or pooled snapshot holds the log up to its label. */
  ghost predicate Sound<S(!new), C(!new), D(!new), V(!new)>(m: Machine<S, C, D, V>, c: Cluster<S, C, D>) {
    && c.astray == {}
    && (forall n :: n in c.nodes ==> StoredOk(m, c.log, c.nodes[n]))
    && forall s :: s in c.pool ==> SnapOk(m, c.log, s)
  }

  ghost predicate IsRun<S(
    !new), C, D, V>(m: Machine<S, C, D,
    V>, g: Settings, ids: set<nat>, steps: seq<Step<C, D>>, states: seq<Cluster<S, C, D>>) {
    && |states| == |steps| + 1
    && states[0] == Cluster([], map n | n in ids :: NewNode(m), [], {})
    && forall i :: 0 <= i < |steps| ==> Enabled(states[i], steps[i]) && states[i + 1] == Next(m, g, states[i], steps[i])
  }

  lemma ForgetOk<S(!new), C(!new), D(!new), V(!new)>(m: Machine<S, C, D, V>, log: seq<Entry<C>>, n: Node<S, D>, id: nat)
    requires NodeOk(m, log, n)
    ensures NodeOk(m, log, n.(pending := n.pending - {id}))
  {
    hide Replay, CompletionOk;
  }

  lemma GrowOk<S(!new), C(!new), D(!new), V(!new)>(
    m: Machine<S, C, D, V>, g: Settings, c: Cluster<S, C, D>, e: Entry<C>)
    requires ClusterOk(m, g, c)
    ensures ClusterOk(m, g, c.(log := c.log + [e]))
  {
    hide NodeOk, SnapOk;
    forall n | n in c.nodes && n !in c.astray ensures NodeOk(m, c.log + [e], c.nodes[n]) {
      NodeSurvivesAppend(m, c.log, c.nodes[n], e);
    }
    if !Wraps(g) {
      forall s | s in c.pool ensures SnapOk(m, c.log + [e], s) {
        SnapSurvivesAppend(m, c.log, s, e);
      }
      forall n | n in c.nodes && c.nodes[n].stored.Some? ensures SnapOk(m, c.log + [e], c.nodes[n].stored.value) {
        SnapSurvivesAppend(m, c.log, c.nodes[n].stored.value, e);
      }
    }
  }

  lemma RoundOk<S(!new), C(!new), D(!new), V(!new)>(
    m: Machine<S, C, D, V>, g: Settings, c: Cluster<S, C, D>, n: nat, r: Ready<C, D>)
    requires Faithful(m) && ClusterOk(m, g, c) && Enabled(c, Step.Round(n, r))
    ensures ClusterOk(m, g, Next(m, g, c, Step.Round(n, r)))
  {
    hide NodeOk, SnapOk, Faithful, OnReady, Delivers, Wraps;
    if OnReady(m, g, c.nodes[n], r).Some? && n !in c.astray && !Misled(m, c.log, r) {
      OnReadyOk(m, c.log, g, c.nodes[n], r);
    }
  }

  lemma StepOk<S(!new), C(!new), D(!new), V(!new)>(
    m: Machine<S, C, D, V>, g: Settings, c: Cluster<S, C, D>, step: Step<C, D>)
    requires Faithful(m) && ClusterOk(m, g, c) && Enabled(c, step)
    ensures ClusterOk(m, g, Next(m, g, c, step))
  {
    hide NodeOk, SnapOk, Faithful, OnReady, Delivers, Wraps;
    match step
    case Grow(e) => GrowOk(m, g, c, e);
    case Round(n, r) => RoundOk(m, g, c, n, r);
    case Wait(n, id) =>
      if n !in c.astray {
        RegisterOk(m, c.log, c.nodes[n], id);
      }
    case Forget(n, id) =>
      if n !in c.astray {
        ForgetOk(m, c.log, c.nodes[n], id);
      }
  }

  lemma {:induction false} RunOk<S(!new), C(!new), D(!new), V(!new)>(
    m: Machine<S, C, D, V>, g: Settings, ids: set<nat>, steps: seq<Step<C, D>>, states: seq<Cluster<S, C, D>>, i: nat)
    requires Faithful(m) && IsRun(m, g, ids, steps, states) && i < |states|
    ensures ClusterOk(m, g, states[i])
  {
    if i > 0 {
      RunOk(m, g, ids, steps, states, i - 1);
      StepOk(m, g, states[i - 1], steps[i - 1]);
    }
  }

  /** Any two replicas of a run at the same applied index hold the same view, whatever mix of entries
      and snapshots brought them there, and it is the view of replaying the log up to that index. Only
      where the subtraction wraps around can a node be astray and be excepted. */
  lemma ReplicasConverge<S(!new), C(!new), D(!new), V(!new)>(
    m: Machine<S, C, D, V>, g: Settings, ids: set<nat>, steps: seq<Step<C, D>>, states: seq<Cluster<S, C, D>>,
    i: nat, a: nat, b: nat)
    requires Faithful(m) && IsRun(m, g, ids, steps, states) && i < |states|
    requires a in states[i].nodes && b in states[i].nodes && states[i].nodes[a].applied == states[i].nodes[b].applied
    requires Wraps(g) ==> a !in states[i].astray && b !in states[i].astray
    ensures states[i].nodes[a].applied <= |states[i].log|
    ensures m.view(states[i].nodes[a].sm) == m.view(states[i].nodes[b].sm)
            == m.view(Replay(m, states[i].log[..states[i].nodes[a].applied]))
  {
    RunOk(m, g, ids, steps, states, i);
  }

  /** Restoring a pooled snapshot and applying the rest of the log is replaying the whole log. */
  lemma {:induction false} RestoreThenSuffixIsReplay<S(!new), C(!new), D(!new), V(!new)>(
    m: Machine<S, C, D, V>, log: seq<Entry<C>>, s: Snap<D>, before: S, n: nat)
    requires Faithful(m) && SnapOk(m, log, s) && s.index <= n <= |log|
    ensures m.view(Replay(m.(init := m.restore(before, s.data)), log[s.index..n])) == m.view(Replay(m, log[..n]))
  {
    var m1 := m.(init := m.restore(before, s.data));
    hide Effect;
    if n > s.index {
      RestoreThenSuffixIsReplay(m, log, s, before, n - 1);
      assert log[s.index..n][..n - 1 - s.index] == log[s.index..n - 1];
      ReplayExtends(m, log, n - 1);
      EffectRespectsView(m, Replay(m1, log[s.index..n - 1]), Replay(m, log[..n - 1]), log[n - 1]);
      SameEffect(m1, m, Replay(m1, log[s.index..n - 1]), log[n - 1]);
    } else {
      assert log[s.index..n] == [];
    }
  }

  lemma SameEffect<S(
    !new), C(!new), D(!new), V(!new)>(m1: Machine<S, C, D, V>, m: Machine<S, C, D, V>, s: S, e: Entry<C>)
    requires m1.apply == m.apply
    ensures Effect(m1, s, e) == Effect(m, s, e)
  {
  }

  /** A waiter of any node of any run completes at most once, only with the result of the entry that
      carries its id; a waiter told Ok for the only normal entry with its id has its command in
      the local state: it was applied there, successfully, within the prefix the state stands for. */
  lemma WaitersLearnTheirOwnResult<S(!new), C(!new), D(!new), V(!new)>(
    m: Machine<S, C, D, V>, g: Settings, ids: set<nat>, steps: seq<Step<C, D>>, states: seq<Cluster<S, C, D>>, i: nat,
    node: nat, k: nat)
    requires Faithful(m) && IsRun(m, g, ids, steps, states) && i < |states|
    requires node in states[i].nodes && k < |states[i].nodes[node].done| && (Wraps(g) ==> node !in states[i].astray)
    ensures var log, n := states[i].log, states[i].nodes[node];
            var c := n.done[k];
            && n.applied <= |log| && c.index < n.applied && SyncIdOf(log[c.index]) == Some(c.id) && c.id in n.registered
            && (forall j :: 0 <= j < |n.done| && j != k ==> n.done[j].id != c.id)
            && c.ok == Effect(m, Replay(m, log[..c.index]), log[c.index]).1
            && Replay(m, log[..c.index + 1]) == Effect(m, Replay(m, log[..c.index]), log[c.index]).0
            && m.view(n.sm) == m.view(Replay(m, log[..n.applied]))
  {
    RunOk(m, g, ids, steps, states, i);
    var log, n := states[i].log, states[i].nodes[node];
    assert NodeOk(m, log, n);
    hide Replay, Effect;
    assert CompletionOk(m, log, n.applied, n.done[k]);
    ReplayExtends(m, log, n.done[k].index);
  }

  /** With distinct ids, Ok means the waiter's own command: the entry completed is the entry proposed. */
  lemma OkMeansOwnCommandApplied<S(!new), C(!new), D(!new), V(!new)>(
    m: Machine<S, C, D, V>, g: Settings, ids: set<nat>, steps: seq<Step<C, D>>, states: seq<Cluster<S, C, D>>, i: nat,
    node: nat, k: nat, own: nat, command: C)
    requires Faithful(m) && IsRun(m, g, ids, steps, states) && i < |states|
    requires node in states[i].nodes && k < |states[i].nodes[node].done| && states[i].nodes[node].done[k].ok
    requires Wraps(g) ==> node !in states[i].astray
    requires var log, id := states[i].log, states[i].nodes[node].done[k].id;
             && own < |log| && log[own].Normal? && log[own].payload == Some(command)
             && forall j :: 0 <= j < |log| && SyncIdOf(log[j]) == Some(id) ==> j == own
    ensures var log, n := states[i].log, states[i].nodes[node];
            && own < n.applied <= |log|
            && m.apply(Replay(m, log[..own]), command).1
            && Replay(m, log[..own + 1]) == m.apply(Replay(m, log[..own]), command).0
            && m.view(n.sm) == m.view(Replay(m, log[..n.applied]))
  {
    hide IsRun, Replay;
    WaitersLearnTheirOwnResult(m, g, ids, steps, states, i, node, k);
  }
}
