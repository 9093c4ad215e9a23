/** The replica loop as a value: applying committed entries, installing and taking snapshots,
    completing waiters; over any state machine whose snapshots preserve its view. */
module Replication {
  import opened Wrappers
  import opened ProposalContext

  /** A replicated state machine. `view` is the part of the state that replication promises. */
  datatype Machine<!S, !C, !D, !V> = Machine(
    init: S,
    apply: (S, C) -> (S, bool),
    snap: S -> D,
    restore: (S, D) -> S,
    view: S -> V)

  /** Snapshots preserve the view, and the view alone decides the effect and result of a command. */
  ghost predicate Faithful<S(!new), C(!new), D(!new), V(!new)>(m: Machine<S, C, D, V>) {
    && (forall s, t :: m.view(m.restore(s, m.snap(t))) == m.view(t))
    && (forall s, t, c :: m.view(s) == m.view(t) ==> m.view(m.apply(s, c).0) == m.view(m.apply(t, c).0))
    && (forall s, t, c :: m.view(s) == m.view(t) ==> m.apply(s, c).1 == m.apply(t, c).1)
  }

  datatype ConfKind = AddNode | RemoveNode | OtherChange

  /** Empty: the no-op of a new leader. A normal entry whose data does not decode has payload None. */
  datatype Entry<+C> =
    | Empty
    | Normal(payload: Option<C>, context: Bytes)
    | Conf(kind: ConfKind, node: nat, context: Bytes, metadataDecodes: bool)

  function SyncIdOf<C>(e: Entry<C>): Option<nat> {
    match e
    case Empty => None
    case Normal(_, context) => NormalSyncId(context)
    case Conf(_, _, context, _) => ConfSyncId(context)
  }

  function ConfResult<C>(e: Entry<C>): bool
    requires e.Conf?
  {
    !(e.kind == AddNode && ConfMetadata(e.context) != [] && !e.metadataDecodes)
  }

  /** State and result after one entry. */
  function Effect<S, C, D, V>(m: Machine<S, C, D, V>, s: S, e: Entry<C>): (S, bool) {
    match e
    case Empty => (s, true)
    case Normal(Some(c), _) => m.apply(s, c)
    case Normal(None, _) => (s, false)
    case Conf(_, _, _, _) => (s, ConfResult(e))
  }

  function Replay<S, C, D, V>(m: Machine<S, C, D, V>, log: seq<Entry<C>>): S {
    if log == [] then m.init else Effect(m, Replay(m, log[..|log| - 1]), log[|log| - 1]).0
  }

  datatype Snap<+D> = Snap(index: nat, term: nat, data: D)

  /** A waiter was completed with this result while entry number `index` was applied. */
  datatype Completion = Completion(id: nat, index: nat, ok: bool)

  /** `applied` counts the log entries behind the replica; raft index = position + 1. */
  datatype Node<+S, +D> = Node(
    sm: S,
    applied: nat,
    committed: nat,
    lastSnap: nat,
    pending: set<nat>,
    registered: set<nat>,
    done: seq<Completion>,
    stored: Option<Snap<D>>)

  /** `interval` 0 switches snapshots off; `overflowChecks` makes an unsigned underflow a panic. */
  datatype Settings = Settings(interval: u64, overflowChecks: bool)

  /** `preCandidate`: the role changed to pre-candidate, which ends the round before the light entries. */
  datatype Ready<+C, +D> = Ready(
    snapshot: Option<Snap<D>>,
    committed: seq<Entry<C>>,
    light: seq<Entry<C>>,
    hardTerm: nat,
    preCandidate: bool)

  function NewNode<S, C, D, V>(m: Machine<S, C, D, V>): Node<S, D> {
    Node(m.init, 0, 0, 0, {}, {}, [], None)
  }

  // ----- The loop -----

  function Register<S, D>(n: Node<S, D>, id: nat): Node<S, D> {
    n.(pending := n.pending + {id}, registered := n.registered + {id})
  }

  function Complete<S, D>(n: Node<S, D>, id: Option<nat>, ok: bool): Node<S, D> {
    if id.Some? && id.value in n.pending
    then n.(pending := n.pending - {id.value}, done := n.done + [Completion(id.value, n.applied, ok)])
    else n
  }

  function ApplyEntry<S, C, D, V>(m: Machine<S, C, D, V>, n: Node<S, D>, e: Entry<C>): Node<S, D> {
    var (s, ok) := Effect(m, n.sm, e);
    var n1 := Complete(n.(sm := s), SyncIdOf(e), ok);
    n1.(applied := n.applied + 1, committed := if e.Normal? then n.applied + 1 else n.committed)
  }

  function ApplyAll<S, C, D, V>(m: Machine<S, C, D, V>, n: Node<S, D>, es: seq<Entry<C>>): Node<S, D> {
    if es == [] then n else ApplyEntry(m, ApplyAll(m, n, es[..|es| - 1]), es[|es| - 1])
  }

  function Install<S, C, D, V>(m: Machine<S, C, D, V>, n: Node<S, D>, s: Option<Snap<D>>): Node<S, D> {
    if s.None? then n
    else n.(sm := m.restore(n.sm, s.value.data), applied := s.value.index, lastSnap := s.value.index, stored := s)
  }

  function WrappingSub(a: nat, b: nat): int {
    if b <= a then a - b else a + 0x1_0000_0000_0000_0000 - b
  }

  /** None: the subtraction of the indices panicked. */
  function MaybeSnapshot<S, C, D, V>(
    m: Machine<S, C, D, V>, g: Settings, n: Node<S, D>, hardTerm: nat): Option<Node<S, D>> {
    if g.interval == 0 then Some(n)
    else if n.committed < n.lastSnap && g.overflowChecks then None
    else if WrappingSub(n.committed, n.lastSnap) < g.interval then Some(n)
    else Some(n.(stored := Some(Snap(n.committed, hardTerm, m.snap(n.sm))), lastSnap := n.committed))
  }

  function BeforeSnapshot<S, C, D, V>(m: Machine<S, C, D, V>, n: Node<S, D>, r: Ready<C, D>): Node<S, D> {
    ApplyAll(m, ApplyAll(m, Install(m, n, r.snapshot), r.committed), r.light)
  }

  function OnReady<S, C, D, V>(m: Machine<S, C, D, V>, g: Settings, n: Node<S, D>, r: Ready<C, D>): Option<Node<S, D>> {
    if r.preCandidate then Some(ApplyAll(m, Install(m, n, r.snapshot), r.committed))
    else MaybeSnapshot(m, g, BeforeSnapshot(m, n, r), r.hardTerm)
  }

  // ----- Against the one committed log -----

  function Start<S, C, D>(n: Node<S, D>, r: Ready<C, D>): nat {
    if r.snapshot.Some? then r.snapshot.value.index else n.applied
  }

  /** Raft delivers newer snapshots only, and after them the log in order, without gaps; a round that
      ends early asks for no light entries. */
  ghost predicate Delivers<S, C, D>(log: seq<Entry<C>>, n: Node<S, D>, r: Ready<C, D>) {
    && (r.preCandidate ==> r.light == [])
    && (r.snapshot.Some? ==> n.applied < r.snapshot.value.index)
    && Start(n, r) + |r.committed| + |r.light| <= |log|
    && r.committed + r.light == log[Start(n, r)..Start(n, r) + |r.committed| + |r.light|]
  }

  /** The snapshot holds the view of the log up to its label. */
  ghost predicate SnapOk<S(!new), C, D, V>(m: Machine<S, C, D, V>, log: seq<Entry<C>>, s: Snap<D>) {
    s.index <= |log| && forall before :: m.view(m.restore(before, s.data)) == m.view(Replay(m, log[..s.index]))
  }

  ghost predicate CompletionOk<S, C, D, V>(m: Machine<S, C, D, V>, log: seq<Entry<C>>, applied: nat, c: Completion) {
    && c.index < applied <= |log|
    && SyncIdOf(log[c.index]) == Some(c.id)
    && c.ok == Effect(m, Replay(m, log[..c.index]), log[c.index]).1
  }

  /** Every waiter was registered on this node, is waiting or completed, and completed at most once,
      with the result of applying the entry that carries its id. */
  ghost predicate WaitersOk<S, C, D, V>(m: Machine<S, C, D, V>, log: seq<Entry<C>>, n: Node<S, D>) {
    && n.pending <= n.registered
    && (forall i :: 0 <= i < |n.done| ==>
          n.done[i].id in n.registered && n.done[i].id !in n.pending && CompletionOk(m, log, n.applied, n.done[i]))
    && (forall i, j :: 0 <= i < j < |n.done| ==> n.done[i].id != n.done[j].id)
  }

  /** No normal entry in [lo, hi). */
  ghost predicate Inert<C>(log: seq<Entry<C>>, lo: nat, hi: nat) {
    hi <= |log| && forall i :: lo <= i < hi ==> !log[i].Normal?
  }

  ghost predicate NodeOk<S(!new), C, D, V>(m: Machine<S, C, D, V>, log: seq<Entry<C>>, n: Node<S, D>) {
    && n.applied <= |log| && n.committed <= n.applied && n.lastSnap <= n.applied
    && m.view(n.sm) == m.view(Replay(m, log[..n.applied]))
    && (n.lastSnap < n.committed ==> Inert(log, n.committed, n.applied))
    && WaitersOk(m, log, n)
  }

  ghost predicate StoredOk<S(!new), C, D, V>(m: Machine<S, C, D, V>, log: seq<Entry<C>>, n: Node<S, D>) {
    n.stored.Some? ==> SnapOk(m, log, n.stored.value)
  }

  // ----- One entry, many entries -----

  lemma {:induction false} AppliedAdvances<S, C, D, V>(m: Machine<S, C, D, V>, n: Node<S, D>, es: seq<Entry<C>>)
    ensures ApplyAll(m, n, es).applied == n.applied + |es|
  {
    if es != [] {
      AppliedAdvances(m, n, es[..|es| - 1]);
    }
  }

  lemma ReplayExtends<S, C, D, V>(m: Machine<S, C, D, V>, log: seq<Entry<C>>, i: nat)
    requires i < |log|
    ensures Replay(m, log[..i + 1]) == Effect(m, Replay(m, log[..i]), log[i]).0
  {
    assert log[..i + 1][..i] == log[..i];
  }

  /** The commands of a log that decode, in order. */
  function Payloads<C>(log: seq<Entry<C>>): seq<C> {
    if log == [] then []
    else
      Payloads(log[..|log| - 1])
      + match log[|log| - 1]
        case Normal(Some(c), _) => [c]
        case _ => []
  }

  /** The machine alone, fed with commands. */
  function Fed<S, C, D, V>(m: Machine<S, C, D, V>, cs: seq<C>): S {
    if cs == [] then m.init else m.apply(Fed(m, cs[..|cs| - 1]), cs[|cs| - 1]).0
  }

  /** Replaying a log is applying its decodable commands one after the other, failing ones included. */
  lemma {:induction false} ReplayFeedsPayloads<S, C, D, V>(m: Machine<S, C, D, V>, log: seq<Entry<C>>)
    ensures Replay(m, log) == Fed(m, Payloads(log))
  {
    if log != [] {
      var front, last := log[..|log| - 1], log[|log| - 1];
      ReplayFeedsPayloads(m, front);
      match last
      case Normal(Some(c), _) => assert Payloads(log)[..|Payloads(front)|] == Payloads(front);
      case _ => assert Payloads(log) == Payloads(front);
    }
  }

  lemma {:induction false} InertKeepsState<S, C, D, V>(m: Machine<S, C, D, V>, log: seq<Entry<C>>, lo: nat, hi: nat)
    requires lo <= hi && Inert(log, lo, hi)
    ensures Replay(m, log[..hi]) == Replay(m, log[..lo])
  {
    if lo < hi {
      InertKeepsState(m, log, lo, hi - 1);
      ReplayExtends(m, log, hi - 1);
      assert !log[hi - 1].Normal?;
    }
  }

  lemma EffectRespectsView<S(!new), C(!new), D(!new), V(!new)>(m: Machine<S, C, D, V>, s: S, t: S, e: Entry<C>)
    requires Faithful(m) && m.view(s) == m.view(t)
    ensures m.view(Effect(m, s, e).0) == m.view(Effect(m, t, e).0) && Effect(m, s, e).1 == Effect(m, t, e).1
  {
  }

  lemma ApplyEntryWaiters<S(!new), C(!new), D(!new), V(!new)>(m: Machine<S, C, D, V>, log: seq<Entry<C>>, n: Node<S, D>)
    requires Faithful(m) && NodeOk(m, log, n) && n.applied < |log|
    ensures WaitersOk(m, log, ApplyEntry(m, n, log[n.applied]))
  {
    var e := log[n.applied];
    var n1 := ApplyEntry(m, n, e);
    EffectRespectsView(m, n.sm, Replay(m, log[..n.applied]), e);
    var id := SyncIdOf(e);
    if id.Some? && id.value in n.pending {
      assert n1.done[..|n.done|] == n.done;
      forall i | 0 <= i < |n1.done|
        ensures n1.done[i].id in n1.registered && n1.done[i].id !in n1.pending
        ensures CompletionOk(m, log, n1.applied, n1.done[i])
      {
        if i < |n.done| {
          assert n.done[i].id in n.registered && n.done[i].id !in n.pending
                 && CompletionOk(m, log, n.applied, n.done[i]);
        }
      }
    }
  }

  lemma ApplyEntryOk<S(!new), C(!new), D(!new), V(!new)>(m: Machine<S, C, D, V>, log: seq<Entry<C>>, n: Node<S, D>)
    requires Faithful(m) && NodeOk(m, log, n) && n.applied < |log|
    ensures NodeOk(m, log, ApplyEntry(m, n, log[n.applied]))
  {
    ApplyEntryWaiters(m, log, n);
    hide WaitersOk;
    EffectRespectsView(m, n.sm, Replay(m, log[..n.applied]), log[n.applied]);
    ReplayExtends(m, log, n.applied);
  }

  /** Some entry of the batch is a normal one. */
  predicate HasNormal<C>(es: seq<Entry<C>>) {
    exists i :: 0 <= i < |es| && es[i].Normal?
  }

  lemma HasNormalStep<C>(es: seq<Entry<C>>)
    requires es != []
    ensures HasNormal(es) <==> HasNormal(es[..|es| - 1]) || es[|es| - 1].Normal?
  {
    assert es == es[..|es| - 1] + [es[|es| - 1]];
  }

  /** After a batch the committed index is that of the batch's last normal entry, if it has one. */
  lemma {:induction false} CommittedIsLastNormal<S, C, D, V>(
    m: Machine<S, C, D, V>, n: Node<S, D>, es: seq<Entry<C>>, k: nat)
    requires k < |es| && es[k].Normal? && forall i :: k < i < |es| ==> !es[i].Normal?
    ensures ApplyAll(m, n, es).committed == n.applied + k + 1
  {
    hide Effect;
    AppliedAdvances(m, n, es[..|es| - 1]);
    if k < |es| - 1 {
      CommittedIsLastNormal(m, n, es[..|es| - 1], k);
    }
  }

  lemma NodeBounds<S(!new), C, D, V>(m: Machine<S, C, D, V>, log: seq<Entry<C>>, n: Node<S, D>)
    requires NodeOk(m, log, n)
    ensures n.committed <= n.applied <= |log|
  {
    hide WaitersOk, SnapOk, Inert, Replay;
  }

  lemma ApplyEntryIndices<S(!new), C(!new), D(!new), V(!new)>(m: Machine<S, C, D, V>, n: Node<S, D>, e: Entry<C>)
    ensures var n1 := ApplyEntry(m, n, e);
            && n1.applied == n.applied + 1 && n1.lastSnap == n.lastSnap && n1.stored == n.stored
            && n1.committed == if e.Normal? then n.applied + 1 else n.committed
  {
  }

  /** What a batch of entries does to the indices: committed_index moves exactly when the batch holds
      a command. */
  lemma {:induction false} ApplyAllOk<S(
    !new), C(!new), D(!new), V(!new)>(m: Machine<S, C, D, V>, log: seq<Entry<C>>, n: Node<S, D>, es: seq<Entry<C>>)
    requires Faithful(m) && NodeOk(m, log, n)
    requires n.applied + |es| <= |log| && es == log[n.applied..n.applied + |es|]
    ensures var n1 := ApplyAll(m, n, es);
            && NodeOk(m, log, n1)
            && n1.applied == n.applied + |es| && n1.lastSnap == n.lastSnap && n1.stored == n.stored
            && (n1.committed != n.committed <==> HasNormal(es))
            && (n1.committed != n.committed ==> n.applied < n1.committed)
  {
    if es != [] {
      hide Faithful, ApplyEntry, HasNormal;
      var k := |es| - 1;
      var before := es[..k];
      ApplyAllOk(m, log, n, before);
      var n0 := ApplyAll(m, n, before);
      assert es[k] == log[n0.applied];
      ApplyEntryOk(m, log, n0);
      ApplyEntryIndices(m, n0, es[k]);
      HasNormalStep(es);
      NodeBounds(m, log, n);
      NodeBounds(m, log, n0);
      hide NodeOk;
    }
  }
}
