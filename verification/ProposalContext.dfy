/** The hand-written proposal context: eight little-endian bytes of the sync id, followed by
    node metadata in an add-node change. */
module ProposalContext {
  import opened Wrappers

  type u64 = n: nat | n < 0x1_0000_0000_0000_0000

  function ToLittleEndian(n: nat, width: nat): (b: Bytes)
    ensures |b| == width
  {
    if width == 0 then [] else [(n % 256) as byte] + ToLittleEndian(n / 256, width - 1)
  }

  function FromLittleEndian(b: Bytes): nat {
    if b == [] then 0 else b[0] as nat + 256 * FromLittleEndian(b[1..])
  }

  function Pow256(k: nat): nat {
    if k == 0 then 1 else 256 * Pow256(k - 1)
  }

  lemma {:induction false} DecodesToEncoded(n: nat, width: nat)
    requires n < Pow256(width)
    ensures FromLittleEndian(ToLittleEndian(n, width)) == n
  {
    if width > 0 {
      DecodesToEncoded(n / 256, width - 1);
      assert ToLittleEndian(n, width)[1..] == ToLittleEndian(n / 256, width - 1);
    }
  }

  lemma LowByte(d: nat, q: nat)
    requires d < 256
    ensures (d + 256 * q) % 256 == d && (d + 256 * q) / 256 == q
  {
  }

  lemma {:induction false} EncodesToDecoded(b: Bytes)
    ensures FromLittleEndian(b) < Pow256(|b|)
    ensures ToLittleEndian(FromLittleEndian(b), |b|) == b
  {
    if b != [] {
      var rest := b[1..];
      EncodesToDecoded(rest);
      LowByte(b[0] as nat, FromLittleEndian(rest));
      calc {
        ToLittleEndian(FromLittleEndian(b), |b|);
        [b[0]] + ToLittleEndian(FromLittleEndian(rest), |rest|);
        [b[0]] + rest;
        b;
      }
    }
  }

  lemma EightBytes()
    ensures Pow256(8) == 0x1_0000_0000_0000_0000
  {
    assert Pow256(4) == 0x1_0000_0000;
    assert Pow256(6) == 0x1_0000_0000_0000;
  }

  /** The context of a local proposal, of a node removal, and the head of an add-node context. */
  function SyncContext(id: u64): Bytes {
    ToLittleEndian(id, 8)
  }

  function AddNodeContext(id: u64, metadata: Bytes): Bytes {
    SyncContext(id) + metadata
  }

  /** The leader gives a forwarded proposal a context only if its id is not zero. */
  function ForwardedContext(id: u64): Bytes {
    if id != 0 then SyncContext(id) else []
  }

  /** A normal entry carries an id if its context has exactly eight bytes. */
  function NormalSyncId(context: Bytes): Option<nat> {
    if |context| == 8 then Some(FromLittleEndian(context)) else None
  }

  /** A configuration change carries an id if its context has at least eight bytes. */
  function ConfSyncId(context: Bytes): Option<nat> {
    if |context| >= 8 then Some(FromLittleEndian(context[..8])) else None
  }

  function ConfMetadata(context: Bytes): Bytes {
    if |context| >= 8 then context[8..] else context
  }

  /** What is put into a context is what is found in it: ids of both kinds of entries, the
      metadata behind the id, and a forwarded id exactly if it is not zero. */
  lemma ContextRoundTrip(id: u64, metadata: Bytes)
    ensures NormalSyncId(SyncContext(id)) == Some(id)
    ensures ConfSyncId(AddNodeContext(id, metadata)) == Some(id)
    ensures ConfMetadata(AddNodeContext(id, metadata)) == metadata
    ensures NormalSyncId(ForwardedContext(id)) == Some(id) <==> id != 0
    ensures NormalSyncId(AddNodeContext(id, metadata)) == Some(id) <==> metadata == []
  {
    EightBytes();
    DecodesToEncoded(id, 8);
    var context := AddNodeContext(id, metadata);
    assert context[..8] == SyncContext(id) && context[8..] == metadata;
    if metadata == [] {
      assert context == SyncContext(id);
    }
  }

  /** Different eight-byte contexts carry different ids, and every such context is some id's. */
  lemma ContextsAreIds(context: Bytes)
    requires |context| == 8
    ensures exists id: u64 :: NormalSyncId(context) == Some(id) && SyncContext(id) == context
  {
    EightBytes();
    EncodesToDecoded(context);
    var id: u64 := FromLittleEndian(context);
    assert SyncContext(id) == context;
  }
}
