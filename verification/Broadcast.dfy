/** `IPv6Address::broadcastAddress`, against the bits of the address. */
module Broadcast {
  import opened IPv6

  /** Bit `j` of a byte, counted from the most significant one. */
  predicate ByteBit(b: bv8, j: nat)
    requires j < 8
  {
    b & ((0x80 as bv8) >> j) != 0
  }

  predicate Bit(bytes: seq<bv8>, k: nat)
    requires Valid(bytes) && k < 128
  {
    ByteBit(bytes[k / 8], k % 8)
  }

  /** `CreateMask<uint8_t>`: the shift and the subtraction are done in a wider type, then cut to a byte. */
  function CreateMask(bits: nat): bv8
    requires bits < 8
  {
    ((((1 as bv16) << (8 - bits)) - 1) & 0xff) as bv8
  }

  lemma MaskBits(bits: nat, b: bv8, j: nat)
    requires bits < 8 && j < 8
    ensures ByteBit(b | CreateMask(bits), j) <==> (j >= bits || ByteBit(b, j))
  {
    assert bits in {0, 1, 2, 3, 4, 5, 6, 7};
    assert j in {0, 1, 2, 3, 4, 5, 6, 7};
  }

  lemma OnesBits(j: nat)
    requires j < 8
    ensures ByteBit(0xff, j)
  {
    assert j in {0, 1, 2, 3, 4, 5, 6, 7};
  }

  /** The first `prefix` bits kept, all others set. */
  ghost predicate BroadcastOf(bytes: seq<bv8>, prefix: nat, result: seq<bv8>)
    requires Valid(bytes)
  {
    Valid(result) && forall k | 0 <= k < 128 :: Bit(result, k) <==> (k >= prefix || Bit(bytes, k))
  }

  method BroadcastAddress(bytes: seq<bv8>, prefix_len: nat) returns (baddr: seq<bv8>)
    requires Valid(bytes) && prefix_len < 128
    ensures BroadcastOf(bytes, prefix_len, baddr)
  {
    var p := prefix_len / 8;
    baddr := bytes;
    baddr := baddr[p := baddr[p] | CreateMask(prefix_len % 8)];
    for i := p + 1 to 16
      invariant Valid(baddr)
      invariant forall m | 0 <= m < p || i <= m < 16 :: baddr[m] == bytes[m]
      invariant baddr[p] == bytes[p] | CreateMask(prefix_len % 8)
      invariant forall m | p < m < i :: baddr[m] == 0xff
    {
      baddr := baddr[i := 0xff];
    }
    forall k | 0 <= k < 128
      ensures Bit(baddr, k) <==> (k >= prefix_len || Bit(bytes, k))
    {
      MaskBits(prefix_len % 8, bytes[p], k % 8);
      OnesBits(k % 8);
    }
  }

  lemma ByteEqual(a: bv8, b: bv8)
    requires forall j | 0 <= j < 8 :: ByteBit(a, j) <==> ByteBit(b, j)
    ensures a == b
  {
    assert ByteBit(a, 0) == ByteBit(b, 0) && ByteBit(a, 1) == ByteBit(b, 1) && ByteBit(a, 2) == ByteBit(b, 2)
        && ByteBit(a, 3) == ByteBit(b, 3) && ByteBit(a, 4) == ByteBit(b, 4) && ByteBit(a, 5) == ByteBit(b, 5)
        && ByteBit(a, 6) == ByteBit(b, 6) && ByteBit(a, 7) == ByteBit(b, 7);
  }

  /** The bits determine the address. */
  lemma BitsDetermine(a: seq<bv8>, b: seq<bv8>)
    requires Valid(a) && Valid(b) && forall k | 0 <= k < 128 :: Bit(a, k) <==> Bit(b, k)
    ensures a == b
  {
    forall m | 0 <= m < 16 ensures a[m] == b[m] {
      forall j | 0 <= j < 8 ensures ByteBit(a[m], j) <==> ByteBit(b[m], j) {
        assert (8 * m + j) / 8 == m && (8 * m + j) % 8 == j;
        assert Bit(a, 8 * m + j) <==> Bit(b, 8 * m + j);
      }
      ByteEqual(a[m], b[m]);
    }
  }

  /** Two broadcasts in a row are one with the shorter prefix; so broadcasting is idempotent, and the bits fix it. */
  lemma BroadcastsCompose(bytes: seq<bv8>, p: nat, once: seq<bv8>, q: nat, twice: seq<bv8>, direct: seq<bv8>)
    requires Valid(bytes) && BroadcastOf(bytes, p, once) && BroadcastOf(once, q, twice)
    requires BroadcastOf(bytes, if p <= q then p else q, direct)
    ensures twice == direct
  {
    BitsDetermine(twice, direct);
  }
}
