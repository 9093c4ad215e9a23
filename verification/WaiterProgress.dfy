/** Waiters are answered: whoever waits for an id hears the result of the first entry applied that
    carries it, over batches, rounds and whole runs, and stays waiting until then. */
module WaiterProgress {
  import opened Wrappers
  import opened ProposalContext
  import opened Replication
  import opened ReplicaConvergence

  /** The entry is a normal one or a configuration change whose context holds the id. */
  ghost predicate Carries<C>(e: Entry<C>, id: nat) {
    match e
    case Empty => false
    case Normal(_, context) => |context| == 8 && FromLittleEndian(context) == id
    case Conf(_, _, context, _) => |context| >= 8 && FromLittleEndian(context[..8]) == id
  }

  /** The answer due for an entry applied in state s: the machine's own result for a command, an error
      for data that does not decode; for a configuration change an error only if it adds a node with
      metadata that does not decode. */
  ghost predicate Due<S, C, D, V>(m: Machine<S, C, D, V>, s: S, e: Entry<C>, ok: bool) {
    match e
    case Empty => false
    case Normal(Some(command), _) => ok == m.apply(s, command).1
    case Normal(None, _) => !ok
    case Conf(kind, _, context, metadataDecodes) =>
      ok == (kind != AddNode || |context| == 0 || |context| == 8 || metadataDecodes)
  }

  ghost predicate NoneCarries<C>(es: seq<Entry<C>>, id: nat) {
    forall j :: 0 <= j < |es| ==> !Carries(es[j], id)
  }

  /** es[k] is the first entry that carries the id. */
  ghost predicate FirstCarrier<C>(es: seq<Entry<C>>, id: nat, k: nat) {
    k < |es| && Carries(es[k], id) && NoneCarries(es[..k], id)
  }

  /** One completion for the id, and with it the answer `ok` at entry `index`. */
  ghost predicate Answered(done: seq<Completion>, id: nat, index: nat, ok: bool) {
    && Completion(id, index, ok) in done
    && forall i :: 0 <= i < |done| && done[i].id == id ==> done[i] == Completion(id, index, ok)
  }

  /** The one completion for the id came with this entry, and carries the result due in state s. */
  ghost predicate AnsweredWith<S, C, D, V>(
    m: Machine<S, C, D, V>, s: S, e: Entry<C>, done: seq<Completion>, id: nat, index: nat) {
    exists ok :: Answered(done, id, index, ok) && Due(m, s, e, ok)
  }

  // ----- One entry -----

  /** An entry answers exactly the waiter whose id it carries. */
  lemma EntryAnswers<S, C, D, V>(m: Machine<S, C, D, V>, n: Node<S, D>, e: Entry<C>, id: nat)
    ensures var t := ApplyEntry(m, n, e);
            && t.registered == n.registered
            && (id in t.pending <==> id in n.pending && !Carries(e, id))
            && (id in n.pending && Carries(e, id) ==>
                  exists ok :: t.done == n.done + [Completion(id, n.applied, ok)] && Due(m, n.sm, e, ok))
            && (!(id in n.pending && Carries(e, id)) ==>
                  t.done == n.done || exists x: Completion :: x.id != id && t.done == n.done + [x])
  {
    var t := ApplyEntry(m, n, e);
    if SyncIdOf(e).Some? && SyncIdOf(e).value in n.pending {
      var x := t.done[|n.done|];
      assert t.done == n.done + [x];
      if id in n.pending && Carries(e, id) {
        assert x == Completion(id, n.applied, x.ok) && Due(m, n.sm, e, x.ok);
      }
    }
  }

  // ----- Many entries -----

  lemma PrefixOfBatch<C>(es: seq<Entry<C>>, id: nat)
    requires es != []
    ensures NoneCarries(es, id) <==> NoneCarries(es[..|es| - 1], id) && !Carries(es[|es| - 1], id)
  {
    hide Carries;
    assert es == es[..|es| - 1] + [es[|es| - 1]];
  }

  /** A waiter goes on waiting until an entry carries its id, and nobody else is answered in its name. */
  lemma {:induction false} WaitsUntilCarried<S, C, D, V>(
    m: Machine<S, C, D, V>, n: Node<S, D>, es: seq<Entry<C>>, id: nat)
    ensures var t := ApplyAll(m, n, es);
            && n.done <= t.done && t.registered == n.registered
            && (id in t.pending <==> id in n.pending && NoneCarries(es, id))
            && (id !in n.pending || NoneCarries(es, id) ==>
                  forall i :: |n.done| <= i < |t.done| ==> t.done[i].id != id)
  {
    hide Carries, ApplyEntry, Due;
    if es != [] {
      var before, e := es[..|es| - 1], es[|es| - 1];
      var t := ApplyAll(m, n, before);
      WaitsUntilCarried(m, n, before, id);
      EntryAnswers(m, t, e, id);
      PrefixOfBatch(es, id);
    }
  }

  /** The first entry of a batch that carries the id of a waiter answers it, with the result due in the
      state just before it, and the batch answers it only once. */
  lemma FirstCarrierAnswers<S, C, D, V>(m: Machine<S, C, D, V>, n: Node<S, D>, es: seq<Entry<C>>, id: nat, k: nat)
    requires id in n.pending && FirstCarrier(es, id, k)
    requires forall i :: 0 <= i < |n.done| ==> n.done[i].id != id
    ensures var t := ApplyAll(m, n, es);
            && id !in t.pending
            && AnsweredWith(m, ApplyAll(m, n, es[..k]).sm, es[k], t.done, id, n.applied + k)
  {
    hide Carries, ApplyEntry, Due, NoneCarries;
    var mid := ApplyAll(m, n, es[..k]);
    WaitsUntilCarried(m, n, es[..k], id);
    AppliedAdvances(m, n, es[..k]);
    EntryAnswers(m, mid, es[k], id);
    var next := ApplyEntry(m, mid, es[k]);
    assert es[..k + 1][..k] == es[..k];
    assert next == ApplyAll(m, n, es[..k + 1]);
    WaitsUntilCarried(m, next, es[k + 1..], id);
    ApplyAllConcat(m, n, es[..k + 1], es[k + 1..]);
    assert es[..k + 1] + es[k + 1..] == es;
    var ok :| next.done == mid.done + [Completion(id, mid.applied, ok)] && Due(m, mid.sm, es[k], ok);
    assert next.done[|mid.done|] == Completion(id, mid.applied, ok);
    assert Answered(ApplyAll(m, n, es).done, id, n.applied + k, ok);
  }

  lemma {:induction false} ApplyAllConcat<S, C, D, V>(
    m: Machine<S, C, D, V>, n: Node<S, D>, a: seq<Entry<C>>, b: seq<Entry<C>>)
    ensures ApplyAll(m, n, a + b) == ApplyAll(m, ApplyAll(m, n, a), b)
  {
    hide ApplyEntry;
    if b == [] {
      assert a + b == a;
    } else {
      assert (a + b)[..|a + b| - 1] == a + b[..|b| - 1];
      ApplyAllConcat(m, n, a, b[..|b| - 1]);
    }
  }

  // ----- One round -----

  /** A round that ends early asks for no light entries. */
  predicate NoLightWhenEarly<C, D>(r: Ready<C, D>) {
    r.preCandidate ==> r.light == []
  }

  lemma RoundIsOneBatch<S, C, D, V>(m: Machine<S, C, D, V>, g: Settings, n: Node<S, D>, r: Ready<C, D>)
    requires NoLightWhenEarly(r) && OnReady(m, g, n, r).Some?
    ensures var t, batch := OnReady(m, g, n, r).value, ApplyAll(m, Install(m, n, r.snapshot), r.committed + r.light);
            && t.pending == batch.pending && t.done == batch.done && t.applied == batch.applied && t.sm == batch.sm
            && t.registered == batch.registered
  {
    hide ApplyEntry;
    ApplyAllConcat(m, Install(m, n, r.snapshot), r.committed, r.light);
  }

  /** One round of the loop, with or without a snapshot in front: exactly the waiters whose ids its
      entries carry are answered, each by the first such entry, with the result due in the state that
      entry was applied to. */
  lemma RoundAnswers<S, C, D, V>(
    m: Machine<S, C, D, V>, g: Settings, n: Node<S, D>, r: Ready<C, D>, id: nat)
    requires NoLightWhenEarly(r) && OnReady(m, g, n, r).Some?
    requires id in n.pending && forall i :: 0 <= i < |n.done| ==> n.done[i].id != id
    ensures var t, es := OnReady(m, g, n, r).value, r.committed + r.light;
            && (id in t.pending <==> NoneCarries(es, id))
            && (NoneCarries(es, id) ==> forall i :: 0 <= i < |t.done| ==> t.done[i].id != id)
            && (forall k: nat :: FirstCarrier(es, id, k) ==>
                  var met := ApplyAll(m, Install(m, n, r.snapshot), es[..k]).sm;
                  AnsweredWith(m, met, es[k], t.done, id, Start(n, r) + k))
  {
    hide ApplyEntry, Carries, Due, ApplyAll, OnReady, AnsweredWith, NoneCarries;
    var n0, es := Install(m, n, r.snapshot), r.committed + r.light;
    RoundIsOneBatch(m, g, n, r);
    WaitsUntilCarried(m, n0, es, id);
    forall k: nat | FirstCarrier(es, id, k)
      ensures AnsweredWith(m, ApplyAll(m, n0, es[..k]).sm, es[k], OnReady(m, g, n, r).value.done, id, Start(n, r) + k)
    {
      FirstCarrierAnswers(m, n0, es, id, k);
    }
  }

  /** Exactly the waiters whose ids no entry of the round carries are still pending after it. */
  lemma StillPending<S, C, D, V>(m: Machine<S, C, D, V>, g: Settings, n: Node<S, D>, r: Ready<C, D>)
    requires NoLightWhenEarly(r) && OnReady(m, g, n, r).Some?
    ensures forall id: nat ::
              id in OnReady(m, g, n, r).value.pending <==> id in n.pending && NoneCarries(r.committed + r.light, id)
  {
    hide ApplyAll, OnReady, NoneCarries;
    RoundIsOneBatch(m, g, n, r);
    forall id: nat ensures id in OnReady(m, g, n, r).value.pending
                           <==> id in n.pending && NoneCarries(r.committed + r.light, id)
    {
      WaitsUntilCarried(m, Install(m, n, r.snapshot), r.committed + r.light, id);
    }
  }

  // ----- Whole runs -----

  /** From state i to state j the node installs no snapshot and does not take the waiter back. */
  ghost predicate Undisturbed<C, D>(steps: seq<Step<C, D>>, i: nat, j: nat, node: nat, id: nat) {
    j <= |steps| && forall x :: i <= x < j ==> KeepsWaiter(steps[x], node, id)
  }

  ghost predicate KeepsWaiter<C, D>(step: Step<C, D>, node: nat, id: nat) {
    step != Forget(node, id) && (step.Round? && step.node == node ==> step.r.snapshot.None?)
  }

  /** Entry p is the first one from `from` on that carries the id. */
  ghost predicate FirstFrom<C>(log: seq<Entry<C>>, from: nat, id: nat, p: nat) {
    from <= p < |log| && Carries(log[p], id) && NoneCarries(log[from..p], id)
  }

  /** Where a waiter of a node stands that was registered when `from` entries were applied: it waits as
      long as none of the entries applied since carries its id, and then has the answer of the first. */
  ghost predicate WaiterStands<S, C, D, V>(
    m: Machine<S, C, D, V>, log: seq<Entry<C>>, n: Node<S, D>, from: nat, id: nat) {
    && from <= n.applied <= |log| && id in n.registered
    && (id in n.pending <==> NoneCarries(log[from..n.applied], id))
    && (id in n.pending ==> forall x :: 0 <= x < |n.done| ==> n.done[x].id != id)
    && (forall p: nat :: p < n.applied && FirstFrom(log, from, id, p) ==>
          AnsweredWith(m, Replay(m, log[..p]), log[p], n.done, id, p))
  }

  lemma DueRespectsView<S(!new), C(!new), D(!new), V(!new)>(
    m: Machine<S, C, D, V>, s: S, t: S, e: Entry<C>, done: seq<Completion>, id: nat, p: nat)
    requires Faithful(m) && m.view(s) == m.view(t) && AnsweredWith(m, s, e, done, id, p)
    ensures AnsweredWith(m, t, e, done, id, p)
  {
    hide Answered;
    var ok :| Answered(done, id, p, ok) && Due(m, s, e, ok);
    assert Due(m, t, e, ok);
  }

  /** The view before entry k of a batch is that of the log up to it. */
  lemma ViewInsideBatch<S(!new), C(!new), D(!new), V(!new)>(
    m: Machine<S, C, D, V>, log: seq<Entry<C>>, n: Node<S, D>, es: seq<Entry<C>>, k: nat)
    requires Faithful(m) && NodeOk(m, log, n) && k <= |es|
    requires n.applied + |es| <= |log| && es == log[n.applied..n.applied + |es|]
    ensures m.view(ApplyAll(m, n, es[..k]).sm) == m.view(Replay(m, log[..n.applied + k]))
  {
    hide Faithful, ApplyAll, WaitersOk, Replay, Inert, HasNormal;
    assert es[..k] == log[n.applied..n.applied + k];
    ApplyAllOk(m, log, n, es[..k]);
  }

  lemma AnswerStays<S, C, D, V>(
    m: Machine<S, C, D, V>, s: S, e: Entry<C>, done: seq<Completion>, more: seq<Completion>, id: nat, p: nat)
    requires AnsweredWith(m, s, e, done, id, p) && done <= more
    requires forall i :: |done| <= i < |more| ==> more[i].id != id
    ensures AnsweredWith(m, s, e, more, id, p)
  {
    hide Due;
    var ok :| Answered(done, id, p, ok) && Due(m, s, e, ok);
    assert forall i :: 0 <= i < |done| ==> more[i] == done[i];
    assert Answered(more, id, p, ok);
  }

  lemma OldAnswerStands<S(!new), C(!new), D(!new), V(!new)>(
    m: Machine<S, C, D, V>, log: seq<Entry<C>>, g: Settings, n: Node<S, D>, r: Ready<C, D>, from: nat, id: nat, p: nat)
    requires Delivers(log, n, r) && r.snapshot.None? && OnReady(m, g, n, r).Some?
    requires WaiterStands(m, log, n, from, id) && p < n.applied && FirstFrom(log, from, id, p)
    ensures AnsweredWith(m, Replay(m, log[..p]), log[p], OnReady(m, g, n, r).value.done, id, p)
  {
    hide ApplyEntry, Carries, Due, ApplyAll, OnReady, AnsweredWith, Replay;
    var t, es := OnReady(m, g, n, r).value, r.committed + r.light;
    RoundIsOneBatch(m, g, n, r);
    WaitsUntilCarried(m, n, es, id);
    assert log[from..n.applied][p - from] == log[p];
    AnswerStays(m, Replay(m, log[..p]), log[p], n.done, t.done, id, p);
  }

  lemma NewAnswerStands<S(!new), C(!new), D(!new), V(!new)>(
    m: Machine<S, C, D, V>, log: seq<Entry<C>>, g: Settings, n: Node<S, D>, r: Ready<C, D>, from: nat, id: nat, p: nat)
    requires Faithful(m) && NodeOk(m, log, n) && Delivers(log, n, r) && r.snapshot.None? && OnReady(m, g, n, r).Some?
    requires WaiterStands(m, log, n, from, id) && FirstFrom(log, from, id, p)
    requires n.applied <= p < n.applied + |r.committed| + |r.light|
    ensures AnsweredWith(m, Replay(m, log[..p]), log[p], OnReady(m, g, n, r).value.done, id, p)
  {
    hide Faithful, NodeOk, ApplyEntry, Carries, Due, ApplyAll, OnReady, AnsweredWith, NoneCarries, Replay;
    var t, es, k := OnReady(m, g, n, r).value, r.committed + r.light, p - n.applied;
    JoinBatch(log, from, n.applied, p, id);
    assert es[..k] == log[n.applied..p] && es[k] == log[p];
    RoundAnswers(m, g, n, r, id);
    assert FirstCarrier(es, id, k);
    ViewInsideBatch(m, log, n, es, k);
    assert n.applied + k == p;
    DueRespectsView(m, ApplyAll(m, n, es[..k]).sm, Replay(m, log[..p]), log[p], t.done, id, p);
  }

  lemma RoundKeepsStanding<S(!new), C(!new), D(!new), V(!new)>(
    m: Machine<S, C, D, V>, log: seq<Entry<C>>, g: Settings, n: Node<S, D>, r: Ready<C, D>, from: nat, id: nat)
    requires Faithful(m) && NodeOk(m, log, n) && Delivers(log, n, r) && r.snapshot.None? && OnReady(m, g, n, r).Some?
    requires WaiterStands(m, log, n, from, id)
    ensures WaiterStands(m, log, OnReady(m, g, n, r).value, from, id)
  {
    hide Faithful, NodeOk, ApplyEntry, Carries, Due, ApplyAll, OnReady, AnsweredWith, NoneCarries, Replay, FirstFrom;
    var t, es := OnReady(m, g, n, r).value, r.committed + r.light;
    RoundIsOneBatch(m, g, n, r);
    AppliedAdvances(m, n, es);
    WaitsUntilCarried(m, n, es, id);
    JoinBatch(log, from, n.applied, t.applied, id);
    forall x | id in t.pending && 0 <= x < |t.done| ensures t.done[x].id != id {
      assert x < |n.done| ==> t.done[x] == n.done[x];
    }
    forall p: nat | p < t.applied && FirstFrom(log, from, id, p)
      ensures AnsweredWith(m, Replay(m, log[..p]), log[p], t.done, id, p)
    {
      if p < n.applied {
        OldAnswerStands(m, log, g, n, r, from, id, p);
      } else {
        NewAnswerStands(m, log, g, n, r, from, id, p);
      }
    }
  }

  lemma JoinBatch<C>(log: seq<Entry<C>>, from: nat, mid: nat, to: nat, id: nat)
    requires from <= mid <= to <= |log|
    ensures NoneCarries(log[from..to], id) <==> NoneCarries(log[from..mid], id) && NoneCarries(log[mid..to], id)
  {
    hide Carries;
    var a, b := log[from..mid], log[mid..to];
    assert log[from..to] == a + b;
    assert forall j :: 0 <= j < |a| ==> a[j] == (a + b)[j];
    forall j | 0 <= j < |b| ensures b[j] == (a + b)[|a| + j] {
    }
  }

  lemma GrowKeepsStanding<S(!new), C(!new), D(!new), V(!new)>(
    m: Machine<S, C, D, V>, log: seq<Entry<C>>, n: Node<S, D>, e: Entry<C>, from: nat, id: nat)
    requires WaiterStands(m, log, n, from, id)
    ensures WaiterStands(m, log + [e], n, from, id)
  {
    hide Carries, AnsweredWith, NoneCarries, Replay;
    assert (log + [e])[from..n.applied] == log[from..n.applied];
    forall p: nat | p < n.applied && FirstFrom(log + [e], from, id, p)
      ensures AnsweredWith(m, Replay(m, (log + [e])[..p]), (log + [e])[p], n.done, id, p)
    {
      assert (log + [e])[..p] == log[..p] && (log + [e])[from..p] == log[from..p];
      assert FirstFrom(log, from, id, p);
    }
  }

  lemma StepKeepsStanding<S(!new), C(!new), D(!new), V(!new)>(
    m: Machine<S, C, D, V>, g: Settings, c: Cluster<S, C, D>, step: Step<C, D>, node: nat, from: nat, id: nat)
    requires Faithful(m) && ClusterOk(m, g, c) && Enabled(c, step) && KeepsWaiter(step, node, id)
    requires node in Next(m, g, c, step).nodes && node !in c.astray
    ensures node in c.nodes
    ensures WaiterStands(m, c.log, c.nodes[node], from, id) ==>
              WaiterStands(m, Next(m, g, c, step).log, Next(m, g, c, step).nodes[node], from, id)
  {
    hide Faithful, NodeOk, OnReady, Delivers, Carries, AnsweredWith, NoneCarries, Replay, FirstFrom, Sound, Misled;
    if node in c.nodes && WaiterStands(m, c.log, c.nodes[node], from, id) {
      match step
      case Grow(e) => GrowKeepsStanding(m, c.log, c.nodes[node], e, from, id);
      case Round(n, r) =>
        if n == node {
          RoundKeepsStanding(m, c.log, g, c.nodes[node], r, from, id);
        }
      case Wait(n, other) =>
      case Forget(n, other) =>
    }
  }

  lemma StepKeepsAstray<S(!new), C, D, V>(
    m: Machine<S, C, D, V>, g: Settings, c: Cluster<S, C, D>, step: Step<C, D>)
    requires Enabled(c, step)
    ensures c.astray <= Next(m, g, c, step).astray
  {
    hide OnReady, Misled;
  }

  lemma FreshWaiterStands<S(!new), C, D, V>(m: Machine<S, C, D, V>, log: seq<Entry<C>>, n: Node<S, D>, id: nat)
    requires NodeOk(m, log, n) && id in n.pending
    ensures WaiterStands(m, log, n, n.applied, id)
  {
    hide Replay, CompletionOk, Inert, Carries;
  }

  /** Over every run: a waiter of a node that neither takes it back nor skips entries by installing a
      snapshot is still waiting exactly as long as no entry applied since carries its id. Once one does,
      it has one answer: the result due for the first such entry, applied to the replay of the log
      before it. */
  lemma WaitersAreAnswered<S(!new), C(!new), D(!new), V(!new)>(
    m: Machine<S, C, D, V>, g: Settings, ids: set<nat>, steps: seq<Step<C, D>>, states: seq<Cluster<S, C, D>>,
    i: nat, j: nat, node: nat, id: nat)
    requires Faithful(m) && IsRun(m, g, ids, steps, states) && i <= j < |states|
    requires node in states[i].nodes && id in states[i].nodes[node].pending && node in states[j].nodes
    requires Wraps(g) ==> node !in states[j].astray
    requires Undisturbed(steps, i, j, node, id)
    ensures var log, n, from := states[j].log, states[j].nodes[node], states[i].nodes[node].applied;
            && from <= n.applied <= |log|
            && (id in n.pending <==> NoneCarries(log[from..n.applied], id))
            && forall p: nat :: p < n.applied && FirstFrom(log, from, id, p) ==>
                 AnsweredWith(m, Replay(m, log[..p]), log[p], n.done, id, p)
  {
    hide Faithful, NodeOk, Enabled, Next, AnsweredWith, NoneCarries, Replay, FirstFrom, Wraps, KeepsWaiter, OnReady;
    StandsAt(m, g, ids, steps, states, i, j, node, id);
  }

  lemma {:induction false} StandsAt<S(!new), C(!new), D(!new), V(!new)>(
    m: Machine<S, C, D, V>, g: Settings, ids: set<nat>, steps: seq<Step<C, D>>, states: seq<Cluster<S, C, D>>,
    i: nat, j: nat, node: nat, id: nat)
    requires Faithful(m) && IsRun(m, g, ids, steps, states) && i <= j < |states|
    requires node in states[i].nodes && id in states[i].nodes[node].pending && node in states[j].nodes
    requires Wraps(g) ==> node !in states[j].astray
    requires Undisturbed(steps, i, j, node, id)
    ensures WaiterStands(m, states[j].log, states[j].nodes[node], states[i].nodes[node].applied, id)
  {
    hide Faithful, NodeOk, Enabled, Next, WaiterStands, Wraps, KeepsWaiter, OnReady;
    RunOk(m, g, ids, steps, states, j);
    assert node !in states[j].astray;
    if i == j {
      FreshWaiterStands(m, states[j].log, states[j].nodes[node], id);
    } else {
      RunOk(m, g, ids, steps, states, j - 1);
      StepKeepsAstray(m, g, states[j - 1], steps[j - 1]);
      StepKeepsStanding(m, g, states[j - 1], steps[j - 1], node, states[i].nodes[node].applied, id);
      StandsAt(m, g, ids, steps, states, i, j - 1, node, id);
    }
  }

  // ----- With installs -----

  /** The entries the rounds of a node deliver from step i to step j; what an install skips is not among them. */
  function Delivered<C, D>(steps: seq<Step<C, D>>, node: nat, i: nat, j: nat): seq<Entry<C>>
    requires i <= j <= |steps|
  {
    if i == j then []
    else
      var step := steps[j - 1];
      Delivered(steps, node, i, j - 1)
      + if step.Round? && step.node == node then step.r.committed + step.r.light else []
  }

  /** Whoever waits at a node is registered there. */
  ghost predicate WaitersRegistered<S, C, D>(c: Cluster<S, C, D>) {
    forall n :: n in c.nodes ==> c.nodes[n].pending <= c.nodes[n].registered
  }

  lemma RoundPendingExactly<S, C, D, V>(
    m: Machine<S, C, D, V>, log: seq<Entry<C>>, g: Settings, n: Node<S, D>, r: Ready<C, D>)
    requires Delivers(log, n, r) && OnReady(m, g, n, r).Some?
    ensures OnReady(m, g, n, r).value.registered == n.registered
    ensures forall id: nat ::
              id in OnReady(m, g, n, r).value.pending <==> id in n.pending && NoneCarries(r.committed + r.light, id)
  {
    hide ApplyAll, OnReady, NoneCarries;
    StillPending(m, g, n, r);
    RoundIsOneBatch(m, g, n, r);
    WaitsUntilCarried(m, Install(m, n, r.snapshot), r.committed + r.light, 0);
  }

  lemma {:induction false} RunKeepsRegistered<S(!new), C(!new), D(!new), V(!new)>(
    m: Machine<S, C, D, V>, g: Settings, ids: set<nat>, steps: seq<Step<C, D>>, states: seq<Cluster<S, C, D>>, j: nat)
    requires IsRun(m, g, ids, steps, states) && j < |states|
    ensures WaitersRegistered(states[j])
  {
    hide OnReady, Delivers, NoneCarries, Misled;
    if j > 0 {
      RunKeepsRegistered(m, g, ids, steps, states, j - 1);
      var c, step := states[j - 1], steps[j - 1];
      assert Enabled(c, step) && states[j] == Next(m, g, c, step);
      if step.Round? && OnReady(m, g, c.nodes[step.node], step.r).Some? {
        RoundPendingExactly(m, c.log, g, c.nodes[step.node], step.r);
      }
    }
  }

  lemma StepPendingExactly<S(!new), C(!new), D(!new), V(!new)>(
    m: Machine<S, C, D, V>, g: Settings, c: Cluster<S, C, D>, step: Step<C, D>, node: nat, id: nat)
    requires Enabled(c, step) && step != Forget(node, id) && WaitersRegistered(c)
    requires node in Next(m, g, c, step).nodes
    ensures node in c.nodes
    ensures id in c.nodes[node].registered ==> id in Next(m, g, c, step).nodes[node].registered
    ensures id in c.nodes[node].registered ==>
              (id in Next(m, g, c, step).nodes[node].pending <==>
                 id in c.nodes[node].pending
                 && (step.Round? && step.node == node ==> NoneCarries(step.r.committed + step.r.light, id)))
  {
    hide OnReady, Delivers, NoneCarries, Misled;
    if step.Round? && OnReady(m, g, c.nodes[step.node], step.r).Some? {
      RoundPendingExactly(m, c.log, g, c.nodes[step.node], step.r);
    }
  }

  lemma NoneInBoth<C>(a: seq<Entry<C>>, b: seq<Entry<C>>, id: nat)
    ensures NoneCarries(a + b, id) <==> NoneCarries(a, id) && NoneCarries(b, id)
  {
    assert (a + b)[0..|a|] == a && (a + b)[|a|..|a + b|] == b && (a + b)[0..|a + b|] == a + b;
    JoinBatch(a + b, 0, |a|, |a + b|, id);
  }

  /** Over every run, installs and wrapping builds included: a waiter that is not taken back is pending
      exactly as long as no entry delivered to its node carries its id. So a waiter whose entry the node
      skips by installing a snapshot is not answered by it. */
  lemma {:induction false} PendingUntilDelivered<S(!new), C(!new), D(!new), V(!new)>(
    m: Machine<S, C, D, V>, g: Settings, ids: set<nat>, steps: seq<Step<C, D>>, states: seq<Cluster<S, C, D>>,
    i: nat, j: nat, node: nat, id: nat)
    requires IsRun(m, g, ids, steps, states) && i <= j < |states|
    requires node in states[i].nodes && id in states[i].nodes[node].pending && node in states[j].nodes
    requires forall x :: i <= x < j ==> steps[x] != Forget(node, id)
    ensures id in states[j].nodes[node].registered
    ensures id in states[j].nodes[node].pending <==> NoneCarries(Delivered(steps, node, i, j), id)
  {
    hide Enabled, Next, NoneCarries;
    if i == j {
      RunKeepsRegistered(m, g, ids, steps, states, i);
      NobodyCarries<C>(id);
    } else {
      RunKeepsRegistered(m, g, ids, steps, states, j - 1);
      StepPendingExactly(m, g, states[j - 1], steps[j - 1], node, id);
      PendingUntilDelivered(m, g, ids, steps, states, i, j - 1, node, id);
      var step, before := steps[j - 1], Delivered(steps, node, i, j - 1);
      if step.Round? && step.node == node {
        NoneInBoth(before, step.r.committed + step.r.light, id);
      } else {
        assert before + [] == before;
      }
    }
  }

  lemma NobodyCarries<C>(id: nat)
    ensures NoneCarries<C>([], id)
  {
  }
}
