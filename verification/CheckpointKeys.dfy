/** The flat key space of the checkpoint maps: one string "workflow:key" per
    (workflow id, checkpoint key) pair, and the prefix sweep of a finished workflow. */
module CheckpointKeys {

  /** The composite key of the checkpoint maps. */
  function MakeQueueKey(workflow: string, key: string): string {
    workflow + ":" + key
  }

  /** The prefix by which the entries of a finished workflow are found. */
  function SweepPrefix(workflow: string): string {
    workflow + ":"
  }

  /** The test of the sweep: does the flat key start with the workflow's prefix? */
  predicate Sweeps(workflow: string, flat: string) {
    SweepPrefix(workflow) <= flat
  }

  /** Two ids that cannot both be used safely: one prefix extends the other. */
  predicate Conflict(w1: string, w2: string) {
    SweepPrefix(w1) <= SweepPrefix(w2) || SweepPrefix(w2) <= SweepPrefix(w1)
  }

  predicate ColonFree(s: string) {
    ':' !in s
  }

  /** For one workflow the flat key determines the checkpoint key. */
  lemma KeyDeterminesCheckpoint(w: string, k1: string, k2: string)
    ensures MakeQueueKey(w, k1) == MakeQueueKey(w, k2) ==> k1 == k2
  {
    assert MakeQueueKey(w, k1)[|w| + 1..] == k1;
    assert MakeQueueKey(w, k2)[|w| + 1..] == k2;
  }

  /** A sweep of w1 can reach an entry of w2 only if the ids conflict. */
  lemma SweepReaches(w1: string, w2: string, k2: string)
    requires Sweeps(w1, MakeQueueKey(w2, k2))
    ensures Conflict(w1, w2)
  {
    var flat := MakeQueueKey(w2, k2);
    assert SweepPrefix(w2) == flat[..|w2| + 1];
    assert SweepPrefix(w1) == flat[..|w1| + 1];
  }

  /** Exactly the conflicting ids can share a flat key. */
  lemma CollisionExactlyOnConflict(w1: string, w2: string)
    ensures (exists k1, k2 :: MakeQueueKey(w1, k1) == MakeQueueKey(w2, k2)) <==> Conflict(w1, w2)
  {
    if k1, k2 :| MakeQueueKey(w1, k1) == MakeQueueKey(w2, k2) {
      assert SweepPrefix(w1) <= MakeQueueKey(w1, k1);
      SweepReaches(w1, w2, k2);
    }
    if SweepPrefix(w1) <= SweepPrefix(w2) {
      var k1 := SweepPrefix(w2)[|w1| + 1..];
      assert MakeQueueKey(w1, k1) == MakeQueueKey(w2, "");
    } else if SweepPrefix(w2) <= SweepPrefix(w1) {
      var k2 := SweepPrefix(w1)[|w2| + 1..];
      assert MakeQueueKey(w1, "") == MakeQueueKey(w2, k2);
    }
  }

  /** Exactly the conflicting ids can lose entries to each other's sweep. */
  lemma SweepExactlyOnConflict(w1: string, w2: string)
    ensures (exists k2 :: Sweeps(w1, MakeQueueKey(w2, k2))) <==> Conflict(w1, w2)
  {
    if k2 :| Sweeps(w1, MakeQueueKey(w2, k2)) {
      SweepReaches(w1, w2, k2);
    }
    if SweepPrefix(w1) <= SweepPrefix(w2) {
      assert MakeQueueKey(w2, "") == SweepPrefix(w2);
      assert Sweeps(w1, MakeQueueKey(w2, ""));
    } else if SweepPrefix(w2) <= SweepPrefix(w1) {
      var k2 := SweepPrefix(w1)[|w2| + 1..];
      assert MakeQueueKey(w2, k2) == SweepPrefix(w1);
      assert Sweeps(w1, MakeQueueKey(w2, k2));
    }
  }

  /** A colon-free id whose prefix extends another colon-free id's prefix is that id. */
  lemma ColonFreePrefix(w1: string, w2: string)
    requires ColonFree(w1) && ColonFree(w2) && SweepPrefix(w1) <= SweepPrefix(w2)
    ensures w1 == w2
  {
    assert SweepPrefix(w2)[|w1|] == SweepPrefix(w1)[|w1|] == ':';
    assert |w1| == |w2|;
    assert w1 == SweepPrefix(w1)[..|w1|] == SweepPrefix(w2)[..|w2|] == w2;
  }

  /** Colon-free ids conflict only with themselves. */
  lemma ColonFreeIdsNeverConflict(w1: string, w2: string)
    requires ColonFree(w1) && ColonFree(w2)
    ensures Conflict(w1, w2) <==> w1 == w2
  {
    if SweepPrefix(w1) <= SweepPrefix(w2) {
      ColonFreePrefix(w1, w2);
    } else if SweepPrefix(w2) <= SweepPrefix(w1) {
      ColonFreePrefix(w2, w1);
    }
  }

  /** On pairwise compatible ids the flat key is injective, whatever the checkpoint keys contain,
      and the sweep of w1 touches exactly the entries of w1. */
  lemma FlatKeysAreFaithful(w1: string, k1: string, w2: string, k2: string)
    requires w1 != w2 ==> !Conflict(w1, w2)
    ensures MakeQueueKey(w1, k1) == MakeQueueKey(w2, k2) <==> w1 == w2 && k1 == k2
    ensures Sweeps(w1, MakeQueueKey(w2, k2)) <==> w1 == w2
  {
    if w1 == w2 {
      KeyDeterminesCheckpoint(w1, k1, k2);
      assert SweepPrefix(w1) <= MakeQueueKey(w2, k2);
    } else {
      CollisionExactlyOnConflict(w1, w2);
      SweepExactlyOnConflict(w1, w2);
    }
  }

  /** With a colon in an id the flat key space does break: "a" and "a:b" share a key,
      and ending "a" sweeps an entry of "a:b". */
  lemma ColonIdsCollide()
    ensures MakeQueueKey("a", "b:c") == MakeQueueKey("a:b", "c")
    ensures Sweeps("a", MakeQueueKey("a:b", "c"))
  {
    assert MakeQueueKey("a", "b:c") == "a:b:c";
    assert MakeQueueKey("a:b", "c") == "a:b:c";
  }
}
