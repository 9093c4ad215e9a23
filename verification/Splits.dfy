/** Executing a round of split decisions command by command: nobody loses its place at any log
    prefix, everybody ends in one place, and repeated rounds reach a fixpoint. */
module Splits {
  import opened ManagementState
  import opened ClusterManager

  /** The list without any of the given nodes. */
  function WithoutAll(nodes: seq<nat>, gone: seq<nat>): seq<nat> {
    if gone == [] then nodes else Without(WithoutAll(nodes, gone[..|gone| - 1]), gone[|gone| - 1])
  }

  lemma {:induction false} WithoutAllMembers(nodes: seq<nat>, gone: seq<nat>)
    ensures forall n :: n in WithoutAll(nodes, gone) <==> n in nodes && n !in gone
    ensures NoDuplicates(nodes) ==> NoDuplicates(WithoutAll(nodes, gone))
  {
    if gone != [] {
      WithoutAllMembers(nodes, gone[..|gone| - 1]);
      assert gone == gone[..|gone| - 1] + [gone[|gone| - 1]];
      if NoDuplicates(nodes) {
        WithoutKeepsDistinct(WithoutAll(nodes, gone[..|gone| - 1]), gone[|gone| - 1]);
      }
    }
  }

  lemma {:induction false} WithoutShrinks(nodes: seq<nat>, n: nat)
    ensures |Without(nodes, n)| <= |nodes|
    ensures n in nodes ==> |Without(nodes, n)| < |nodes|
  {
    if nodes != [] {
      WithoutShrinks(nodes[..|nodes| - 1], n);
      assert nodes == nodes[..|nodes| - 1] + [nodes[|nodes| - 1]];
    }
  }

  lemma {:induction false} WithoutAllShrinks(nodes: seq<nat>, gone: seq<nat>)
    ensures |WithoutAll(nodes, gone)| <= |nodes|
    ensures gone != [] && gone[0] in nodes ==> |WithoutAll(nodes, gone)| < |nodes|
  {
    if gone != [] {
      var front, last := gone[..|gone| - 1], gone[|gone| - 1];
      WithoutAllShrinks(nodes, front);
      WithoutShrinks(WithoutAll(nodes, front), last);
      if front == [] {
        assert WithoutAll(nodes, front) == nodes;
      }
    }
  }

  // ----- One split -----

  function SplitCommands(k: nat, moved: seq<nat>): seq<Command> {
    [CreateSubCluster(moved)] + Removes(k, moved)
  }

  /** Where j of the removals of a split have been applied. */
  function MidSplit(s: State, k: nat, moved: seq<nat>, j: nat): State
    requires k in s.clusters && j <= |moved|
  {
    var sub := s.clusters[k];
    s.(clusters := s.clusters[k := sub.(nodes := WithoutAll(sub.nodes, moved[..j]))]
                                 [s.nextId := SubCluster(moved, map[])],
       nextId := s.nextId + 1)
  }

  lemma {:induction false} RemovesLength(k: nat, moved: seq<nat>, j: nat)
    requires j <= |moved|
    ensures |Removes(k, moved)| == |moved| && Removes(k, moved)[..j] == Removes(k, moved[..j])
  {
    if moved != [] {
      var front := moved[..|moved| - 1];
      if j < |moved| {
        RemovesLength(k, front, j);
        assert front[..j] == moved[..j];
      } else {
        RemovesLength(k, front, |front|);
        assert moved[..j] == moved;
      }
    }
  }

  /** The state after the creation and j removals. */
  lemma {:induction false} SplitPrefix(s: State, k: nat, moved: seq<nat>, j: nat)
    requires k in s.clusters && k != s.nextId && j <= |moved|
    ensures |SplitCommands(k, moved)| == |moved| + 1
    ensures ApplyAll(s, SplitCommands(k, moved)[..j + 1]) == MidSplit(s, k, moved, j)
  {
    RemovesLength(k, moved, j);
    var cs := SplitCommands(k, moved);
    if j == 0 {
      assert cs[..1] == [CreateSubCluster(moved)];
      assert ApplyAll(s, cs[..1][..0]) == s;
      assert ApplyAll(s, cs[..1]) == Apply(s, CreateSubCluster(moved));
      assert s.clusters[k := s.clusters[k]] == s.clusters;
      assert MidSplit(s, k, moved, 0) == Apply(s, CreateSubCluster(moved));
    } else {
      SplitPrefix(s, k, moved, j - 1);
      RemovesAt(k, moved, j - 1);
      assert cs[..j + 1] == cs[..j] + [RemoveNodeFromSubCluster(k, moved[j - 1])];
      assert cs[..j + 1][..j] == cs[..j];
      assert moved[..j][..j - 1] == moved[..j - 1];
      assert ApplyAll(s, cs[..j + 1]) == Apply(MidSplit(s, k, moved, j - 1), RemoveNodeFromSubCluster(k, moved[j - 1]));
      OneMoreRemoval(s, k, moved, j);
    }
  }

  lemma {:induction false} RemovesAt(k: nat, moved: seq<nat>, i: nat)
    requires i < |moved|
    ensures |Removes(k, moved)| == |moved| && Removes(k, moved)[i] == RemoveNodeFromSubCluster(k, moved[i])
  {
    RemovesLength(k, moved, |moved|);
    RemovesLength(k, moved[..|moved| - 1], |moved| - 1);
    if i < |moved| - 1 {
      RemovesAt(k, moved[..|moved| - 1], i);
    }
  }

  lemma OneMoreRemoval(s: State, k: nat, moved: seq<nat>, j: nat)
    requires k in s.clusters && k != s.nextId && 0 < j <= |moved|
    ensures Apply(MidSplit(s, k, moved, j - 1), RemoveNodeFromSubCluster(k, moved[j - 1])) == MidSplit(s, k, moved, j)
  {
    assert moved[..j][..j - 1] == moved[..j - 1];
    var a, b := Apply(MidSplit(s, k, moved, j - 1), RemoveNodeFromSubCluster(k, moved[j - 1])),
                MidSplit(s, k, moved, j);
    assert a.clusters == b.clusters;
  }

  /** At every point inside a split the same nodes are placed. */
  lemma MidSplitKeepsPlaced(s: State, k: nat, moved: seq<nat>, j: nat)
    requires k in s.clusters && s.nextId !in s.clusters && j <= |moved|
    requires forall n :: n in moved ==> n in s.clusters[k].nodes
    ensures Placed(MidSplit(s, k, moved, j)) == Placed(s)
  {
    var t := MidSplit(s, k, moved, j);
    WithoutAllMembers(s.clusters[k].nodes, moved[..j]);
    forall n ensures n in Placed(t) <==> n in Placed(s) {
      if n in Placed(s) {
        var x :| x in s.clusters && n in s.clusters[x].nodes;
        if x == k && n in moved {
          assert n in t.clusters[s.nextId].nodes;
        } else {
          assert x in t.clusters && n in t.clusters[x].nodes;
        }
      }
      if n in Placed(t) {
        var x :| x in t.clusters && n in t.clusters[x].nodes;
        var y := if x == s.nextId then k else x;
        assert y in s.clusters && n in s.clusters[y].nodes;
      }
    }
  }

  /** A completed split keeps memberships disjoint and free of duplicates. */
  lemma SplitKeepsPartition(s: State, k: nat, moved: seq<nat>)
    requires IdsOk(s) && Partitioned(s) && k in s.clusters && NoDuplicates(moved)
    requires forall n :: n in moved ==> n in s.clusters[k].nodes
    ensures Partitioned(MidSplit(s, k, moved, |moved|)) && IdsOk(MidSplit(s, k, moved, |moved|))
  {
    var t := MidSplit(s, k, moved, |moved|);
    assert moved[..|moved|] == moved;
    WithoutAllMembers(s.clusters[k].nodes, moved);
    forall k1, k2, n | k1 in t.clusters && k2 in t.clusters && n in t.clusters[k1].nodes && n in t.clusters[k2].nodes
      ensures k1 == k2
    {
      var o1, o2 := if k1 == s.nextId then k else k1, if k2 == s.nextId then k else k2;
      assert n in s.clusters[o1].nodes && n in s.clusters[o2].nodes;
    }
  }

  // ----- One round -----

  function RoundCommands(cfg: Config, s: State, order: seq<nat>): seq<Command> {
    Commands(SplitActions(cfg, s, order))
  }

  /** The state after a round over (part of) an iteration order: decide on s, then execute. */
  function Round(cfg: Config, s: State, order: seq<nat>): State {
    ApplyAll(s, RoundCommands(cfg, s, order))
  }

  predicate WillSplit(cfg: Config, s: State, k: nat) {
    k in s.clusters && NeedsSplit(cfg, s.clusters[k])
  }

  lemma RoundUnfolds(cfg: Config, s: State, order: seq<nat>)
    requires order != []
    ensures var front, k := order[..|order| - 1], order[|order| - 1];
            && RoundCommands(cfg, s, order)
               == RoundCommands(cfg, s, front)
                  + (if WillSplit(cfg, s, k) then SplitCommands(k, Moved(cfg, s.clusters[k])) else [])
            && Round(cfg, s, order)
               == ApplyAll(Round(cfg, s, front),
                           if WillSplit(cfg, s, k) then SplitCommands(k, Moved(cfg, s.clusters[k])) else [])
  {
    hide ApplyAll, Moved, NeedsSplit;
    var front, k := order[..|order| - 1], order[|order| - 1];
    var acts := SplitActions(cfg, s, front);
    if WillSplit(cfg, s, k) {
      var moved := Moved(cfg, s.clusters[k]);
      TwoActions(acts, CreateCluster(moved), RemoveNodesFromCluster(k, moved));
      assert RoundCommands(cfg, s, order) == RoundCommands(cfg, s, front) + SplitCommands(k, moved);
      ApplyConcat(s, RoundCommands(cfg, s, front), SplitCommands(k, moved));
    } else {
      assert acts + [] == acts;
      ApplyConcat(s, RoundCommands(cfg, s, front), []);
    }
  }

  lemma TwoActions(acts: seq<Action>, a: Action, b: Action)
    ensures Commands(acts + [a, b]) == Commands(acts) + (CommandsOf(a) + CommandsOf(b))
  {
    hide Commands, CommandsOf;
    OneAction(acts, a);
    OneAction(acts + [a], b);
    assert acts + [a, b] == (acts + [a]) + [b];
  }

  /** What a round over a duplicate-free list of clusters leaves: untouched clusters as they were,
      split ones without the moved nodes. */
  ghost predicate RoundOk(cfg: Config, s: State, order: seq<nat>, t: State) {
    && s.nextId <= t.nextId && IdsOk(t) && Partitioned(t) && Placed(t) == Placed(s)
    && forall k :: k in s.clusters ==>
         && k in t.clusters
         && (k !in order || !WillSplit(cfg, s, k) ==> t.clusters[k] == s.clusters[k])
  }

  /** After every single command the same nodes are placed as in `goal`. */
  ghost predicate PlacedThroughout(s: State, cs: seq<Command>, goal: State) {
    forall n: nat :: n <= |cs| ==> Placed(ApplyAll(s, cs[..n])) == Placed(goal)
  }

  lemma SplitInRound(cfg: Config, s: State, front: seq<nat>, k: nat, t: State)
    requires RoundOk(cfg, s, front, t) && k !in front && WillSplit(cfg, s, k)
    ensures var moved := Moved(cfg, s.clusters[k]);
            && ApplyAll(t, SplitCommands(k, moved)) == MidSplit(t, k, moved, |moved|)
            && RoundOk(cfg, s, front + [k], MidSplit(t, k, moved, |moved|))
            && PlacedThroughout(t, SplitCommands(k, moved), s)
  {
    hide Placed, NeedsSplit, ApplyAll, SplitCommands;
    var moved := Moved(cfg, s.clusters[k]);
    assert t.clusters[k] == s.clusters[k];
    LowestAreLowest(s.clusters[k].nodes, cfg.splitSize);
    SplitPrefix(t, k, moved, |moved|);
    assert SplitCommands(k, moved)[..|moved| + 1] == SplitCommands(k, moved);
    SplitKeepsPartition(t, k, moved);
    MidSplitKeepsPlaced(t, k, moved, |moved|);
    forall n: nat | n <= |SplitCommands(k, moved)|
      ensures Placed(ApplyAll(t, SplitCommands(k, moved)[..n])) == Placed(s)
    {
      if n == 0 {
        NoCommands(t, SplitCommands(k, moved));
      } else {
        SplitPrefix(t, k, moved, n - 1);
        MidSplitKeepsPlaced(t, k, moved, n - 1);
      }
    }
  }

  lemma NoCommands(s: State, cs: seq<Command>)
    ensures ApplyAll(s, cs[..0]) == s
  {
  }

  /** Split safety. After every single command of a round the same nodes are placed, so no node is
      without a cluster midway, and from duplicate-free, pairwise disjoint memberships the round
      ends with every node in exactly one cluster again. */
  lemma {:induction false} SplitsAreSafe(cfg: Config, s: State, order: seq<nat>)
    requires IdsOk(s) && Partitioned(s) && NoDuplicates(order)
    ensures RoundOk(cfg, s, order, Round(cfg, s, order))
    ensures PlacedThroughout(s, RoundCommands(cfg, s, order), s)
  {
    hide Placed, Partitioned, IdsOk, NeedsSplit, ApplyAll, RoundCommands, SplitCommands, Moved;
    if order == [] {
      EmptyRound(cfg, s);
    } else {
      var front, k := order[..|order| - 1], order[|order| - 1];
      SplitsAreSafe(cfg, s, front);
      RoundUnfolds(cfg, s, order);
      assert order == front + [k] && k !in front;
      var before, all := RoundCommands(cfg, s, front), RoundCommands(cfg, s, order);
      var t := Round(cfg, s, front);
      var own := if WillSplit(cfg, s, k) then SplitCommands(k, Moved(cfg, s.clusters[k])) else [];
      if WillSplit(cfg, s, k) {
        SplitInRound(cfg, s, front, k, t);
      } else {
        NoCommands(t, own);
        assert own == own[..0];
      }
      forall n: nat | n <= |all| ensures Placed(ApplyAll(s, all[..n])) == Placed(s) {
        if n <= |before| {
          assert all[..n] == before[..n];
        } else {
          assert all[..n] == before + own[..n - |before|];
          ApplyConcat(s, before, own[..n - |before|]);
        }
      }
    }
  }

  lemma EmptyRound(cfg: Config, s: State)
    requires IdsOk(s) && Partitioned(s)
    ensures RoundOk(cfg, s, [], Round(cfg, s, [])) && RoundCommands(cfg, s, []) == []
    ensures ApplyAll(s, []) == s
  {
  }
}
