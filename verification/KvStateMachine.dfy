/** The key-value store, the simplest state machine the replica loop replicates. */
module KvStateMachines {

  datatype Command = Set(key: string, value: string) | Delete(key: string)

  datatype Event = KeySet(key: string, value: string) | KeyDeleted(key: string)

  function Effect(store: map<string, string>, c: Command): map<string, string> {
    match c
    case Set(k, v) => store[k := v]
    case Delete(k) => store - {k}
  }

  function Run(cs: seq<Command>): map<string, string> {
    if cs == [] then map[] else Effect(Run(cs[..|cs| - 1]), cs[|cs| - 1])
  }

  /** A key holds the value of the last command about it, and nothing after a delete. */
  lemma {:induction false} ValueIsLastWritten(cs: seq<Command>, i: nat)
    requires i < |cs| && forall j :: i < j < |cs| ==> cs[j].key != cs[i].key
    ensures var store, key := Run(cs), cs[i].key;
            if cs[i].Set? then key in store && store[key] == cs[i].value else key !in store
  {
    if i < |cs| - 1 {
      assert cs[..|cs| - 1][i] == cs[i];
      assert cs[|cs| - 1].key != cs[i].key;
      ValueIsLastWritten(cs[..|cs| - 1], i);
    }
  }

  /** A key no command is about is not there. */
  lemma {:induction false} UnwrittenKeysAreAbsent(cs: seq<Command>, key: string)
    requires forall j :: 0 <= j < |cs| ==> cs[j].key != key
    ensures key !in Run(cs)
  {
    if cs != [] {
      assert cs[|cs| - 1].key != key;
      UnwrittenKeysAreAbsent(cs[..|cs| - 1], key);
    }
  }

  class KvStateMachine {
    var store: map<string, string>

    constructor ()
      ensures store == map[]
    {
      store := map[];
    }

    method Apply(c: Command) returns (event: Event)
      modifies this
      ensures store == Effect(old(store), c)
      ensures event.KeySet? <==> c.Set?
      ensures event.key == c.key && (c.Set? ==> event.value == c.value)
    {
      match c {
        case Set(k, v) =>
          store := store[k := v];
          event := KeySet(k, v);
        case Delete(k) =>
          store := store - {k};
          event := KeyDeleted(k);
      }
    }

    method Snapshot() returns (d: map<string, string>)
      ensures d == store
    {
      d := store;
    }

    method Restore(d: map<string, string>)
      modifies this
      ensures store == d
    {
      store := d;
    }
  }
}
