/** Narrow IO writes: the strobes select the bytes of the operation, and those lanes carry its data. */
module IoLanes {
  import opened Bits
  import opened LineBus

  /** Byte k of the data. */
  function ByteOf(data: seq<bool>, k: nat): seq<bool>
    requires 8 * k + 8 <= |data|
  {
    data[8 * k..8 * k + 8]
  }

  lemma {:induction false} OnesAt(d: nat, n: nat, i: nat)
    requires i < d
    ensures ToBits(d, Pow2(n) - 1)[i] <==> i < n
    decreases d
  {
    if i > 0 {
      OnesAt(d - 1, if n == 0 then 0 else n - 1, i - 1);
    }
  }

  lemma {:induction false} ToBitsPrefix(m: nat, n: nat, v: int, i: nat)
    requires i < m <= n
    ensures ToBits(m, v)[i] == ToBits(n, v)[i]
    decreases i
  {
    if i > 0 {
      ToBitsPrefix(m - 1, n - 1, v / 2, i - 1);
    }
  }

  /** The operation fits into a beat and its address is aligned, as stage 3 has checked. */
  predicate Aligned(g: Geometry, address: nat, size: nat) {
    2 <= g.logWords <= 3 && Bytes(g, size) <= Dwords(g) && address % Bytes(g, size) == 0
  }

  lemma Sizes(g: Geometry, address: nat, size: nat)
    requires Aligned(g, address, size)
    ensures ByteOffset(g, address) == address % Dwords(g) && BeatBits(g) == 8 * Dwords(g)
    ensures ByteOffset(g, address) % Bytes(g, size) == 0
    ensures ByteOffset(g, address) + Bytes(g, size) <= Dwords(g)
  {
    assert Pow2(1) == 2 && Pow2(2) == 4 && Pow2(3) == 8;
  }

  /** The lanes behind an offset that is a multiple of n show the low n bytes in order. */
  lemma Lane(n: nat, off: nat, k: nat, j: nat)
    requires (n == 1 || n == 2 || n == 4 || n == 8) && off % n == 0 && k < n && j < 8
    ensures (8 * (off + k) + j) % (8 * n) == 8 * k + j
  {
    var q := off / n;
    assert off == q * n;
    assert q * (8 * n) == 8 * (q * n);
    ModUnique(8 * (off + k) + j, 8 * n, q, 8 * k + j);
  }

  lemma LaneBit(g: Geometry, address: nat, data: nat, size: nat, k: nat, j: nat)
    requires Aligned(g, address, size) && k < Bytes(g, size) && j < 8
    ensures var off := address % Dwords(g);
      && 8 * (off + k) + 8 <= BeatBits(g)
      && Duplicated(g, data, size)[8 * (off + k) + j] == ToBits(BeatBits(g), data)[8 * k + j]
  {
    Sizes(g, address, size);
    var (off, n) := (address % Dwords(g), Bytes(g, size));
    assert n == 1 || n == 2 || n == 4 || n == 8 by {
      assert Pow2(1) == 2 && Pow2(2) == 4 && Pow2(3) == 8;
    }
    Lane(n, off, k, j);
    ToBitsPrefix(8 * n, BeatBits(g), data, 8 * k + j);
  }

  lemma {:induction false} LaneData(g: Geometry, address: nat, data: nat, size: nat, k: nat)
    requires Aligned(g, address, size) && k < Bytes(g, size)
    ensures var off := address % Dwords(g);
      && 8 * (off + k) + 8 <= BeatBits(g)
      && ByteOf(Duplicated(g, data, size), off + k) == ByteOf(ToBits(BeatBits(g), data), k)
  {
    LaneBit(g, address, data, size, k, 0);
    var (a, b) := (ByteOf(Duplicated(g, data, size), address % Dwords(g) + k), ByteOf(ToBits(BeatBits(g), data), k));
    forall j | 0 <= j < 8
      ensures a[j] == b[j]
    {
      LaneBit(g, address, data, size, k, j);
    }
  }

  lemma EnabledLanes(g: Geometry, address: nat, size: nat, i: nat)
    requires Aligned(g, address, size) && i < Dwords(g)
    ensures var off := address % Dwords(g);
      Strobe(g, address, size)[i] <==> off <= i < off + Bytes(g, size)
  {
    Sizes(g, address, size);
    var (off, n) := (address % Dwords(g), Bytes(g, size));
    if i >= off {
      OnesAt(Dwords(g), n, i - off);
    }
  }

  /** The beat enables the bytes address to address + n - 1, and the lane of address + k carries byte k of the
      data. */
  predicate Carries(g: Geometry, beat: Beat, address: nat, data: nat, n: nat) {
    var (lanes, off) := (Dwords(g), address % Dwords(g));
    && off + n <= lanes == |beat.strobe| && beat.last
    && (forall i :: 0 <= i < lanes ==> (beat.strobe[i] <==> off <= i < off + n))
    && (forall k :: 0 <= k < n ==>
          ByteOf(ToBits(8 * lanes, beat.data), off + k) == ByteOf(ToBits(8 * lanes, data), k))
  }

  lemma LanesCarry(g: Geometry, address: nat, data: nat, size: nat)
    requires Aligned(g, address, size)
    ensures Carries(g, IoBeat(g, address, data, size), address, data, Bytes(g, size))
  {
    Sizes(g, address, size);
    var wide := Duplicated(g, data, size);
    ValBound(wide);
    ModUnique(Val(wide), Pow2(|wide|), 0, Val(wide));
    SameBits(wide, Val(wide));
    forall i | 0 <= i < Dwords(g)
      ensures Strobe(g, address, size)[i] <==> address % Dwords(g) <= i < address % Dwords(g) + Bytes(g, size)
    {
      EnabledLanes(g, address, size, i);
    }
    forall k | 0 <= k < Bytes(g, size)
      ensures ByteOf(wide, address % Dwords(g) + k) == ByteOf(ToBits(BeatBits(g), data), k)
    {
      LaneData(g, address, data, size, k);
    }
  }

  /** An operation of 1, 2, 4 or 8 bytes, by the two bits of its size. */
  function OperationBytes(size: nat): nat {
    if size % 4 == 0 then 1 else if size % 4 == 1 then 2 else if size % 4 == 2 then 4 else 8
  }

  /** RV32 and RV64; the operation fits into a beat and its address is a multiple of its size. */
  predicate Placed(g: Geometry, address: nat, size: nat) {
    2 <= g.logWords <= 3 && OperationBytes(size) <= Dwords(g) && address % OperationBytes(size) == 0
  }

  lemma BytesOfOperation(g: Geometry, size: nat)
    requires 2 <= g.logWords <= 3 && OperationBytes(size) <= Dwords(g)
    ensures Bytes(g, size) == OperationBytes(size)
  {
    assert Pow2(1) == 2 && Pow2(2) == 4 && Pow2(3) == 8;
  }

  /** For every aligned IO write: the enabled lanes are the bytes of the operation, and the lane of address + k
      carries byte k of the data. */
  lemma IoWriteLanes(g: Geometry, address: nat, data: nat, size: nat)
    requires Placed(g, address, size)
    ensures Carries(g, IoBeat(g, address, data, size), address, data, OperationBytes(size))
  {
    BytesOfOperation(g, size);
    LanesCarry(g, address, data, size);
  }
}
