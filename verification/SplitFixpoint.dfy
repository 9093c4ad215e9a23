/** Repeated split rounds: a strictly falling excess, a fixpoint below the maximum size, and
    memberships that do not depend on the hash map's iteration order. */
module SplitFixpoint {
  import opened MapSums
  import opened ManagementState
  import opened ClusterManager
  import opened Splits

  // ----- The shape of a round, whatever the memberships -----

  /** Clusters not split by the round are as before. */
  ghost predicate Untouched(cfg: Config, s: State, order: seq<nat>, t: State) {
    && s.nextId <= t.nextId && IdsOk(t)
    && forall k :: k in s.clusters ==>
         k in t.clusters && (k !in order || !WillSplit(cfg, s, k) ==> t.clusters[k] == s.clusters[k])
  }

  function AfterSplit(cfg: Config, t: State, k: nat): State
    requires k in t.clusters
  {
    MidSplit(t, k, Moved(cfg, t.clusters[k]), |Moved(cfg, t.clusters[k])|)
  }

  lemma RoundStep(cfg: Config, s: State, order: seq<nat>)
    requires IdsOk(s) && NoDuplicates(order) && order != []
    requires Untouched(cfg, s, order[..|order| - 1], Round(cfg, s, order[..|order| - 1]))
    ensures Untouched(cfg, s, order, Round(cfg, s, order))
    ensures var k, t := order[|order| - 1], Round(cfg, s, order[..|order| - 1]);
            && (k in s.clusters ==> k in t.clusters && t.clusters[k] == s.clusters[k])
            && Round(cfg, s, order) == if WillSplit(cfg, s, k) then AfterSplit(cfg, t, k) else t
  {
    hide Moved, NeedsSplit, Round, ApplyAll, SplitCommands;
    var front, k := order[..|order| - 1], order[|order| - 1];
    assert order == front + [k] && k !in front;
    var t := Round(cfg, s, front);
    RoundUnfolds(cfg, s, order);
    if WillSplit(cfg, s, k) {
      var moved := Moved(cfg, s.clusters[k]);
      SplitPrefix(t, k, moved, |moved|);
      assert SplitCommands(k, moved)[..|moved| + 1] == SplitCommands(k, moved);
    } else {
      NoCommands(t, []);
    }
  }

  lemma {:induction false} RoundUntouched(cfg: Config, s: State, order: seq<nat>)
    requires IdsOk(s) && NoDuplicates(order)
    ensures Untouched(cfg, s, order, Round(cfg, s, order))
  {
    if order != [] {
      RoundUntouched(cfg, s, order[..|order| - 1]);
      RoundStep(cfg, s, order);
    }
  }

  // ----- What a round makes of each cluster -----

  /** A split of sub: `part` has the splitSize lowest ids in ascending order, `kept` all others. */
  ghost predicate SplitInto(cfg: Config, sub: SubCluster, kept: SubCluster, part: SubCluster) {
    && |part.nodes| == (if cfg.splitSize <= |sub.nodes| then cfg.splitSize else |sub.nodes|)
    && Sorted(part.nodes)
    && (forall n :: n in sub.nodes <==> n in kept.nodes || n in part.nodes)
    && (forall low, high :: low in part.nodes && high in kept.nodes ==> low < high)
    && kept.metadata == sub.metadata && part.metadata == map[]
  }

  /** Cluster k of s was split, and `part` is the new cluster with its lowest ids. */
  ghost predicate Splitting(cfg: Config, s: State, t: State, k: nat, part: nat) {
    && k in s.clusters && k in t.clusters && part in t.clusters && s.nextId <= part < t.nextId
    && !IsDraining(s.clusters[k]) && |s.clusters[k].nodes| >= cfg.maxSize
    && SplitInto(cfg, s.clusters[k], t.clusters[k], t.clusters[part])
  }

  /** Exactly the active clusters of at least the maximum size among `done` are split; all others are as
      before, and there are no new clusters but the split off parts. */
  ghost predicate SplitUp(cfg: Config, s: State, done: seq<nat>, t: State) {
    && t.addresses == s.addresses && s.nextId <= t.nextId
    && (forall k :: k in s.clusters && k in done && WillSplit(cfg, s, k) ==> exists x :: Splitting(cfg, s, t, k, x))
    && (forall k :: k in s.clusters && !(k in done && WillSplit(cfg, s, k)) ==>
          k in t.clusters && t.clusters[k] == s.clusters[k])
    && (forall x :: x in t.clusters && x !in s.clusters ==> exists k :: k in done && Splitting(cfg, s, t, k, x))
  }

  lemma MovedParts(cfg: Config, t: State, k: nat)
    requires k in t.clusters && t.nextId != k
    ensures var u := AfterSplit(cfg, t, k);
            && u.clusters.Keys == t.clusters.Keys + {t.nextId} && u.nextId == t.nextId + 1
            && u.addresses == t.addresses
            && (forall x :: x in t.clusters && x != k && x != t.nextId ==> u.clusters[x] == t.clusters[x])
            && SplitInto(cfg, t.clusters[k], u.clusters[k], u.clusters[t.nextId])
  {
    hide Sort;
    var sub := t.clusters[k];
    var moved := Moved(cfg, sub);
    assert moved[..|moved|] == moved;
    WithoutAllMembers(sub.nodes, moved);
    LowestAreLowest(sub.nodes, cfg.splitSize);
    SortSorts(sub.nodes);
  }

  lemma SplittingStays(cfg: Config, s: State, t: State, u: State, x: nat, part: nat)
    requires Splitting(cfg, s, t, x, part) && x in u.clusters && part in u.clusters && t.nextId <= u.nextId
    requires u.clusters[x] == t.clusters[x] && u.clusters[part] == t.clusters[part]
    ensures Splitting(cfg, s, u, x, part)
  {
    hide SplitInto, IsDraining;
  }

  lemma NewSplitting(cfg: Config, s: State, t: State, k: nat)
    requires IdsOk(s) && IdsOk(t) && s.nextId <= t.nextId && WillSplit(cfg, s, k)
    requires k in t.clusters && t.clusters[k] == s.clusters[k]
    ensures Splitting(cfg, s, AfterSplit(cfg, t, k), k, t.nextId)
  {
    hide SplitInto, AfterSplit, IsDraining;
    MovedParts(cfg, t, k);
  }

  lemma OneMoreSplit(cfg: Config, s: State, front: seq<nat>, t: State, k: nat)
    requires IdsOk(s) && IdsOk(t) && SplitUp(cfg, s, front, t) && k !in front && WillSplit(cfg, s, k)
    ensures k in t.clusters && SplitUp(cfg, s, front + [k], AfterSplit(cfg, t, k))
  {
    hide SplitInto, AfterSplit, Splitting, NeedsSplit;
    var u := AfterSplit(cfg, t, k);
    MovedParts(cfg, t, k);
    NewSplitting(cfg, s, t, k);
    forall x | x in s.clusters && x in front && WillSplit(cfg, s, x) ensures exists y :: Splitting(cfg, s, u, x, y) {
      var y :| Splitting(cfg, s, t, x, y);
      SplittingIds(cfg, s, t, x, y);
      SplittingStays(cfg, s, t, u, x, y);
    }
    forall y | y in u.clusters && y !in s.clusters ensures exists x :: x in front + [k] && Splitting(cfg, s, u, x, y) {
      if y == t.nextId {
        assert k in front + [k];
      } else {
        var x :| x in front && Splitting(cfg, s, t, x, y);
        assert x in front + [k];
        SplittingIds(cfg, s, t, x, y);
        SplittingStays(cfg, s, t, u, x, y);
      }
    }
  }

  lemma SplittingIds(cfg: Config, s: State, t: State, x: nat, y: nat)
    requires Splitting(cfg, s, t, x, y)
    ensures x in s.clusters && x in t.clusters && y in t.clusters && s.nextId <= y < t.nextId
  {
    hide SplitInto, IsDraining;
  }

  /** A round splits exactly the active clusters of at least the maximum size: the lowest ids move to a new
      cluster, and every id that stays is above them. */
  lemma {:induction false} RoundSplitsUp(cfg: Config, s: State, order: seq<nat>)
    requires IdsOk(s) && NoDuplicates(order)
    ensures SplitUp(cfg, s, order, Round(cfg, s, order)) && IdsOk(Round(cfg, s, order))
  {
    hide Round, NeedsSplit, SplitInto, AfterSplit;
    if order == [] {
      EmptyRoundStays(cfg, s);
    } else {
      var front, k := order[..|order| - 1], order[|order| - 1];
      assert order == front + [k] && k !in front;
      RoundSplitsUp(cfg, s, front);
      RoundUntouched(cfg, s, front);
      RoundUntouched(cfg, s, order);
      RoundStep(cfg, s, order);
      if WillSplit(cfg, s, k) {
        OneMoreSplit(cfg, s, front, Round(cfg, s, front), k);
      } else {
        NoMoreSplit(cfg, s, front, Round(cfg, s, front), k);
      }
    }
  }

  lemma NoMoreSplit(cfg: Config, s: State, front: seq<nat>, t: State, k: nat)
    requires SplitUp(cfg, s, front, t) && !WillSplit(cfg, s, k)
    ensures SplitUp(cfg, s, front + [k], t)
  {
    hide Splitting, NeedsSplit;
    forall x | x in t.clusters && x !in s.clusters ensures exists y :: y in front + [k] && Splitting(cfg, s, t, y, x) {
      var y :| y in front && Splitting(cfg, s, t, y, x);
      assert y in front + [k];
    }
  }

  // ----- The measure -----

  /** By how much a size reaches the maximum or exceeds it. */
  function Over(cfg: Config, size: nat): nat {
    if size < cfg.maxSize then 0 else size + 1 - cfg.maxSize
  }

  ghost function OverSizes(cfg: Config, s: State): map<nat, nat> {
    map k | k in s.clusters && !IsDraining(s.clusters[k]) :: Over(cfg, |s.clusters[k].nodes|)
  }

  ghost function Excess(cfg: Config, s: State): nat {
    Sum(OverSizes(cfg, s))
  }

  predicate SplitSizesOk(cfg: Config) {
    1 <= cfg.splitSize < cfg.maxSize
  }

  lemma SplitLowersExcess(cfg: Config, t: State, k: nat)
    requires SplitSizesOk(cfg) && IdsOk(t) && k in t.clusters && NeedsSplit(cfg, t.clusters[k])
    ensures Excess(cfg, AfterSplit(cfg, t, k)) < Excess(cfg, t)
  {
    hide Sum, Lowest, WithoutAll, Moved;
    var sub := t.clusters[k];
    var moved, t1 := Moved(cfg, sub), AfterSplit(cfg, t, k);
    MovedSize(cfg, sub);
    WithoutAllShrinks(sub.nodes, moved);
    assert moved[..|moved|] == moved;
    var kept := |WithoutAll(sub.nodes, moved)|;
    var m := OverSizes(cfg, t);
    var m1 := m[k := Over(cfg, kept)];
    assert t.nextId !in m1;
    assert OverSizes(cfg, t1) == m1[t.nextId := Over(cfg, |moved|)];
    SumReplaces(m, k, Over(cfg, kept));
    SumPutsIn(m1, t.nextId, Over(cfg, |moved|));
  }

  lemma MovedSize(cfg: Config, sub: SubCluster)
    requires SplitSizesOk(cfg) && NeedsSplit(cfg, sub)
    ensures |Moved(cfg, sub)| == cfg.splitSize && Moved(cfg, sub)[0] in sub.nodes
  {
    LowestAreLowest(sub.nodes, cfg.splitSize);
    assert Moved(cfg, sub)[0] in Lowest(sub.nodes, cfg.splitSize);
  }

  /** A round never raises the excess, and lowers it if it splits anything. */
  lemma {:induction false} RoundLowersExcess(cfg: Config, s: State, order: seq<nat>)
    requires SplitSizesOk(cfg) && IdsOk(s) && NoDuplicates(order)
    ensures Excess(cfg, Round(cfg, s, order)) <= Excess(cfg, s)
    ensures (exists k :: k in order && WillSplit(cfg, s, k)) ==> Excess(cfg, Round(cfg, s, order)) < Excess(cfg, s)
  {
    hide Excess, Round, NeedsSplit;
    if order == [] {
      EmptyRoundStays(cfg, s);
    } else {
      var front, k := order[..|order| - 1], order[|order| - 1];
      RoundLowersExcess(cfg, s, front);
      RoundUntouched(cfg, s, front);
      RoundStep(cfg, s, order);
      assert order == front + [k];
      if WillSplit(cfg, s, k) {
        SplitLowersExcess(cfg, Round(cfg, s, front), k);
      }
    }
  }

  lemma EmptyRoundStays(cfg: Config, s: State)
    ensures Round(cfg, s, []) == s
  {
  }

  // ----- The fixpoint -----

  /** Every cluster that is not draining is below the maximum size. */
  ghost predicate Stable(cfg: Config, s: State) {
    forall k :: k in s.clusters && !IsDraining(s.clusters[k]) ==> |s.clusters[k].nodes| < cfg.maxSize
  }

  /** A round decides nothing exactly on the stable states. */
  lemma {:induction false} NoActionsExactlyWhenBelow(cfg: Config, s: State, order: seq<nat>)
    ensures SplitActions(cfg, s, order) == [] <==> forall k :: k in order ==> !WillSplit(cfg, s, k)
  {
    if order != [] {
      hide NeedsSplit;
      var front, last := order[..|order| - 1], order[|order| - 1];
      NoActionsExactlyWhenBelow(cfg, s, front);
      assert order == front + [last];
      assert forall k :: k in order <==> k in front || k == last;
      if WillSplit(cfg, s, last) {
        assert |SplitActions(cfg, s, order)| == |SplitActions(cfg, s, front)| + 2;
      } else {
        assert SplitActions(cfg, s, order) == SplitActions(cfg, s, front);
      }
    }
  }

  lemma StableExactlyWithoutActions(cfg: Config, s: State, order: seq<nat>)
    requires IsOrder(order, s)
    ensures SplitActions(cfg, s, order) == [] <==> Stable(cfg, s)
  {
    hide SplitActions;
    NoActionsExactlyWhenBelow(cfg, s, order);
  }

  function Rounds(cfg: Config, s: State, orders: seq<seq<nat>>): State {
    if orders == [] then s else Round(cfg, Rounds(cfg, s, orders[..|orders| - 1]), orders[|orders| - 1])
  }

  /** Every round sees the clusters of its own state, in any order. */
  ghost predicate ValidOrders(cfg: Config, s: State, orders: seq<seq<nat>>) {
    forall i :: 0 <= i < |orders| ==> IsOrder(orders[i], Rounds(cfg, s, orders[..i]))
  }

  lemma NoExcessIsStable(cfg: Config, s: State)
    requires SplitSizesOk(cfg) && Excess(cfg, s) == 0
    ensures Stable(cfg, s)
  {
    hide Sum;
    SumZero(OverSizes(cfg, s));
    forall k | k in s.clusters && !IsDraining(s.clusters[k]) ensures |s.clusters[k].nodes| < cfg.maxSize {
      assert OverSizes(cfg, s)[k] == 0;
    }
  }

  /** Each round either finds the excess used up or uses up some more of it. */
  lemma {:induction false} RoundsUseUpExcess(cfg: Config, s: State, orders: seq<seq<nat>>)
    requires SplitSizesOk(cfg) && IdsOk(s) && ValidOrders(cfg, s, orders)
    ensures var t := Rounds(cfg, s, orders);
            IdsOk(t) && (Stable(cfg, t) || Excess(cfg, t) + |orders| <= Excess(cfg, s))
  {
    if orders != [] {
      hide Excess, Round, Stable;
      var front, order := orders[..|orders| - 1], orders[|orders| - 1];
      forall i | 0 <= i < |front| ensures IsOrder(front[i], Rounds(cfg, s, front[..i])) {
        assert front[..i] == orders[..i] && front[i] == orders[i];
      }
      RoundsUseUpExcess(cfg, s, front);
      var t := Rounds(cfg, s, front);
      RoundUntouched(cfg, t, order);
      RoundLowersExcess(cfg, t, order);
      StableExactlyWithoutActions(cfg, t, order);
      NoActionsExactlyWhenBelow(cfg, t, order);
      if Stable(cfg, t) {
        NothingToDo(cfg, t, order);
      }
    }
  }

  lemma NothingToDo(cfg: Config, s: State, order: seq<nat>)
    requires SplitActions(cfg, s, order) == []
    ensures Round(cfg, s, order) == s
  {
  }

  /** As many rounds as there is excess always reach a state with every non-draining cluster
      below the maximum, and it stays that way. */
  lemma SplitsReachFixpoint(cfg: Config, s: State, orders: seq<seq<nat>>)
    requires SplitSizesOk(cfg) && IdsOk(s) && ValidOrders(cfg, s, orders) && |orders| >= Excess(cfg, s)
    ensures Stable(cfg, Rounds(cfg, s, orders))
  {
    RoundsUseUpExcess(cfg, s, orders);
    hide Excess, Rounds;
    if Excess(cfg, Rounds(cfg, s, orders)) == 0 {
      NoExcessIsStable(cfg, Rounds(cfg, s, orders));
    }
  }

  // ----- Sizes that never settle -----

  /** With any other sizes a split leaves a cluster that needs splitting: the old one if nothing is
      moved, the new one if at least the maximum is. */
  lemma SplitLeavesLarge(cfg: Config, t: State, k: nat, x: nat)
    requires !SplitSizesOk(cfg) && IdsOk(t) && k in t.clusters && NeedsSplit(cfg, t.clusters[k])
    requires WillSplit(cfg, t, x)
    ensures exists y :: WillSplit(cfg, AfterSplit(cfg, t, k), y)
  {
    hide Lowest, WithoutAll, Moved;
    var sub, t1 := t.clusters[k], AfterSplit(cfg, t, k);
    MovedAtMost(cfg, sub);
    if x != k {
      assert WillSplit(cfg, t1, x);
    } else if cfg.splitSize == 0 {
      NothingMoved(sub.nodes);
      assert Moved(cfg, sub) == [];
      assert WillSplit(cfg, t1, k);
    } else {
      assert WillSplit(cfg, t1, t.nextId);
    }
  }

  lemma NothingMoved(nodes: seq<nat>)
    ensures WithoutAll(nodes, []) == nodes
  {
  }

  lemma MovedAtMost(cfg: Config, sub: SubCluster)
    ensures |Moved(cfg, sub)| == if cfg.splitSize <= |sub.nodes| then cfg.splitSize else |sub.nodes|
  {
    LowestAreLowest(sub.nodes, cfg.splitSize);
  }

  lemma {:induction false} RoundLeavesLarge(cfg: Config, s: State, order: seq<nat>)
    requires !SplitSizesOk(cfg) && IdsOk(s) && NoDuplicates(order) && exists x :: WillSplit(cfg, s, x)
    ensures exists y :: WillSplit(cfg, Round(cfg, s, order), y)
  {
    hide Round, NeedsSplit, SplitSizesOk;
    if order == [] {
      EmptyRoundStays(cfg, s);
    } else {
      var front, k := order[..|order| - 1], order[|order| - 1];
      RoundLeavesLarge(cfg, s, front);
      RoundUntouched(cfg, s, front);
      RoundStep(cfg, s, order);
      if WillSplit(cfg, s, k) {
        var x :| WillSplit(cfg, Round(cfg, s, front), x);
        SplitLeavesLarge(cfg, Round(cfg, s, front), k, x);
      }
    }
  }

  /** Unless 1 <= split size < maximum, no number of rounds settles a state that is not settled. */
  lemma {:induction false} OtherSizesNeverSettle(cfg: Config, s: State, orders: seq<seq<nat>>)
    requires !SplitSizesOk(cfg) && IdsOk(s) && ValidOrders(cfg, s, orders)
    ensures IdsOk(Rounds(cfg, s, orders))
    ensures Stable(cfg, Rounds(cfg, s, orders)) <==> Stable(cfg, s)
  {
    if orders != [] {
      hide Round, SplitSizesOk, NeedsSplit, Stable;
      var front, order := orders[..|orders| - 1], orders[|orders| - 1];
      forall i | 0 <= i < |front| ensures IsOrder(front[i], Rounds(cfg, s, front[..i])) {
        assert front[..i] == orders[..i] && front[i] == orders[i];
      }
      OtherSizesNeverSettle(cfg, s, front);
      var t := Rounds(cfg, s, front);
      RoundUntouched(cfg, t, order);
      StableMeansNoSplit(cfg, t);
      StableMeansNoSplit(cfg, Round(cfg, t, order));
      if Stable(cfg, t) {
        StableExactlyWithoutActions(cfg, t, order);
        NothingToDo(cfg, t, order);
      } else {
        RoundLeavesLarge(cfg, t, order);
      }
    }
  }

  lemma StableMeansNoSplit(cfg: Config, s: State)
    ensures Stable(cfg, s) <==> forall x :: !WillSplit(cfg, s, x)
  {
    assert forall x :: WillSplit(cfg, s, x) <==>
        x in s.clusters && !IsDraining(s.clusters[x]) && |s.clusters[x].nodes| >= cfg.maxSize;
  }

  // ----- Independence of the iteration order -----

  /** The memberships of all clusters, with multiplicity, without the ids. */
  ghost function Memberships(s: State): multiset<seq<nat>> {
    var m: map<nat, seq<nat>> := map k | k in s.clusters :: s.clusters[k].nodes;
    Bag(m)
  }

  /** What a split takes away and what it leaves, cluster by cluster. */
  ghost function Wholes(cfg: Config, s: State): map<nat, multiset<seq<nat>>> {
    map k | k in s.clusters && WillSplit(cfg, s, k) :: multiset{s.clusters[k].nodes}
  }

  ghost function Parts(cfg: Config, s: State): map<nat, multiset<seq<nat>>> {
    map k | k in s.clusters && WillSplit(cfg, s, k) ::
      multiset{WithoutAll(s.clusters[k].nodes, Moved(cfg, s.clusters[k])), Moved(cfg, s.clusters[k])}
  }

  lemma SplitMemberships(cfg: Config, t: State, k: nat)
    requires IdsOk(t) && k in t.clusters
    ensures var sub := t.clusters[k];
            var moved := Moved(cfg, sub);
            Memberships(AfterSplit(cfg, t, k)) + multiset{sub.nodes}
            == Memberships(t) + multiset{WithoutAll(sub.nodes, moved), moved}
  {
    hide Bag, Moved, WithoutAll;
    var sub := t.clusters[k];
    var moved := Moved(cfg, sub);
    assert moved[..|moved|] == moved;
    var kept := WithoutAll(sub.nodes, moved);
    var m: map<nat, seq<nat>> := map x | x in t.clusters :: t.clusters[x].nodes;
    var m1: map<nat, seq<nat>>, t1 := m[k := kept], AfterSplit(cfg, t, k);
    var n: map<nat, seq<nat>> := map x | x in t1.clusters :: t1.clusters[x].nodes;
    assert n == m1[t.nextId := moved];
    BagReplaces(m, k, kept);
    BagPutsIn(m1, t.nextId, moved);
    Regroup(Bag(m1), multiset{moved}, multiset{sub.nodes}, Bag(m), multiset{kept});
    assert multiset{kept, moved} == multiset{kept} + multiset{moved};
    assert Memberships(t) == Bag(m) && Memberships(t1) == Bag(n);
  }

  lemma Regroup(
    a: multiset<seq<nat>>, b: multiset<seq<nat>>, c: multiset<seq<nat>>, d: multiset<seq<nat>>,
    e: multiset<seq<nat>>)
    requires a + c == d + e
    ensures (b + a) + c == d + (e + b)
  {
    assert (b + a) + c == b + (a + c);
    assert d + (e + b) == b + (d + e);
  }

  lemma {:induction false} RoundMemberships(cfg: Config, s: State, order: seq<nat>)
    requires IdsOk(s) && NoDuplicates(order)
    ensures Memberships(Round(cfg, s, order)) + Gather(Wholes(cfg, s), order)
            == Memberships(s) + Gather(Parts(cfg, s), order)
  {
    hide Memberships, Round, NeedsSplit, WithoutAll, Moved;
    if order == [] {
      EmptyRoundStays(cfg, s);
    } else {
      var front, k := order[..|order| - 1], order[|order| - 1];
      RoundMemberships(cfg, s, front);
      RoundUntouched(cfg, s, front);
      RoundStep(cfg, s, order);
      var t := Round(cfg, s, front);
      if WillSplit(cfg, s, k) {
        SplitMemberships(cfg, t, k);
        Balance(Memberships(Round(cfg, s, order)), Wholes(cfg, s)[k], Memberships(t), Parts(cfg, s)[k],
                Gather(Wholes(cfg, s), front), Memberships(s), Gather(Parts(cfg, s), front));
      } else {
        assert Gather(Wholes(cfg, s), order) == Gather(Wholes(cfg, s), front);
        assert Gather(Parts(cfg, s), order) == Gather(Parts(cfg, s), front);
      }
    }
  }

  lemma Balance(a: multiset<seq<nat>>, w: multiset<seq<nat>>, b: multiset<seq<nat>>, p: multiset<seq<nat>>,
                gw: multiset<seq<nat>>, s: multiset<seq<nat>>, gp: multiset<seq<nat>>)
    requires a + w == b + p && b + gw == s + gp
    ensures a + (gw + w) == s + (gp + p)
  {
    assert a + (gw + w) == (a + w) + gw;
    assert (b + p) + gw == (b + gw) + p;
    assert (s + gp) + p == s + (gp + p);
  }

  lemma {:induction false} SameMembersSameBag(a: seq<nat>, b: seq<nat>)
    requires NoDuplicates(a) && NoDuplicates(b) && forall x :: x in a <==> x in b
    ensures multiset(a) == multiset(b)
  {
    forall x ensures multiset(a)[x] == multiset(b)[x] {
      OnceCounts(a, x);
      OnceCounts(b, x);
      assert x in a <==> x in multiset(a);
      assert x in b <==> x in multiset(b);
    }
  }

  /** The memberships after a round do not depend on the order in which the hash map was iterated. */
  lemma RoundIgnoresOrder(cfg: Config, s: State, order1: seq<nat>, order2: seq<nat>)
    requires IdsOk(s) && IsOrder(order1, s) && IsOrder(order2, s)
    ensures Memberships(Round(cfg, s, order1)) == Memberships(Round(cfg, s, order2))
  {
    SameMembersSameBag(order1, order2);
    hide Memberships, Round, Wholes, Parts, Gather;
    RoundMemberships(cfg, s, order1);
    RoundMemberships(cfg, s, order2);
    GatherIgnoresOrder(Wholes(cfg, s), order1, order2);
    GatherIgnoresOrder(Parts(cfg, s), order1, order2);
    Cancel(Memberships(Round(cfg, s, order1)), Memberships(Round(cfg, s, order2)), Gather(Wholes(cfg, s), order1));
  }

  lemma Cancel(a: multiset<seq<nat>>, b: multiset<seq<nat>>, c: multiset<seq<nat>>)
    requires a + c == b + c
    ensures a == b
  {
    assert a == (a + c) - c;
    assert b == (b + c) - c;
  }
}
