/** Bit vectors of any width, least significant bit first, and their unsigned and two's-complement values. */
module Bits {

  function Pow2(n: nat): (p: nat)
    ensures p > 0
  {
    if n == 0 then 1 else 2 * Pow2(n - 1)
  }

  function Bit(b: bool): (v: nat)
    ensures v == 0 || v == 1
  {
    if b then 1 else 0
  }

  /** The unsigned value. */
  function Val(x: seq<bool>): nat
    decreases |x|
  {
    if x == [] then 0 else Bit(x[0]) + 2 * Val(x[1..])
  }

  /** The two's-complement value: the most significant bit weighs -2^(n-1). */
  function Signed(x: seq<bool>): int
    requires x != []
  {
    Val(x[..|x| - 1]) - Pow2(|x| - 1) * Bit(x[|x| - 1])
  }

  /** The n low bits of v, in two's complement when v is negative. */
  function ToBits(n: nat, v: int): (x: seq<bool>)
    ensures |x| == n
  {
    if n == 0 then [] else [v % 2 == 1] + ToBits(n - 1, v / 2)
  }

  lemma {:induction false} ValBound(x: seq<bool>)
    ensures Val(x) < Pow2(|x|)
    decreases |x|
  {
    if x != [] {
      ValBound(x[1..]);
    }
  }

  lemma {:induction false} Pow2Sum(m: nat, n: nat)
    ensures Pow2(m + n) == Pow2(m) * Pow2(n)
  {
    if m > 0 {
      Pow2Sum(m - 1, n);
      assert Pow2(m + n) == 2 * Pow2(m - 1 + n);
      Double(Pow2(m - 1), Pow2(n));
    }
  }

  lemma Double(p: int, v: int)
    ensures 2 * (p * v) == (2 * p) * v
  {
  }

  lemma Distribute(a: int, b: int, p: int, c: int)
    ensures a * b + p * (c * a) == a * (b + p * c)
  {
  }

  lemma {:induction false} ValConcat(x: seq<bool>, y: seq<bool>)
    ensures Val(x + y) == Val(x) + Pow2(|x|) * Val(y)
    decreases |x|
  {
    if x == [] {
      assert x + y == y;
    } else {
      assert (x + y)[1..] == x[1..] + y;
      ValConcat(x[1..], y);
      Double(Pow2(|x| - 1), Val(y));
    }
  }

  lemma ValSnoc(x: seq<bool>, b: bool)
    ensures Val(x + [b]) == Val(x) + Pow2(|x|) * Bit(b)
  {
    ValConcat(x, [b]);
    assert [b][1..] == [];
    assert Val([b]) == Bit(b);
  }

  lemma {:induction false} ValPad(x: seq<bool>)
    ensures Val(x + [false]) == Val(x)
    decreases |x|
  {
    if x != [] {
      assert (x + [false])[1..] == x[1..] + [false];
      ValPad(x[1..]);
    } else {
      assert ([false])[1..] == [];
    }
  }

  lemma {:induction false} ToBitsVal(n: nat, v: int)
    ensures Val(ToBits(n, v)) == v % Pow2(n)
    decreases n
  {
    if n > 0 {
      var x := ToBits(n, v);
      assert x[1..] == ToBits(n - 1, v / 2);
      ToBitsVal(n - 1, v / 2);
      HalfMod(v, Pow2(n - 1));
    }
  }

  lemma HalfMod(v: int, p: nat)
    requires p > 0
    ensures v % (2 * p) == v % 2 + 2 * ((v / 2) % p)
  {
    var (q, r) := ((v / 2) / p, (v / 2) % p);
    assert v / 2 == q * p + r;
    assert v == 2 * (q * p + r) + v % 2;
    assert 2 * (q * p) == q * (2 * p);
    ModUnique(v, 2 * p, q, v % 2 + 2 * r);
  }

  lemma AtLeast(d: int, m: nat)
    requires d >= 1
    ensures d * m >= m && (-d) * m + m <= 0
  {
  }

  /** The remainder is the only one of its kind. */
  lemma ModUnique(v: int, m: nat, q: int, r: int)
    requires m > 0 && v == q * m + r && 0 <= r < m
    ensures v % m == r
  {
    var d := v / m - q;
    assert d * m == (v / m) * m - q * m;
    assert v == (v / m) * m + v % m;
    assert d * m == r - v % m;
    if d >= 1 {
      AtLeast(d, m);
    } else if d <= -1 {
      AtLeast(-d, m);
    }
  }

  lemma ModShift(v: int, m: nat, k: int)
    requires m > 0
    ensures (v + k * m) % m == v % m
  {
    assert v == (v / m) * m + v % m;
    assert v + k * m == (v / m + k) * m + v % m by {
      assert (v / m + k) * m == (v / m) * m + k * m;
    }
    ModUnique(v + k * m, m, v / m + k, v % m);
  }

  lemma {:induction false} ValInjective(x: seq<bool>, y: seq<bool>)
    requires |x| == |y| && Val(x) == Val(y)
    ensures x == y
    decreases |x|
  {
    if x != [] {
      assert x[0] == y[0];
      ValInjective(x[1..], y[1..]);
      assert x == [x[0]] + x[1..] && y == [y[0]] + y[1..];
    }
  }

  /** A vector is known by its value. */
  lemma SameBits(x: seq<bool>, v: int)
    requires Val(x) == v % Pow2(|x|)
    ensures x == ToBits(|x|, v)
  {
    ToBitsVal(|x|, v);
    ValInjective(x, ToBits(|x|, v));
  }

  /** The least k with n <= 2^k. */
  function CeilLog2(n: nat): nat
    decreases n
  {
    if n <= 1 then 0 else 1 + CeilLog2((n + 1) / 2)
  }

  lemma {:induction false} CeilLog2Spec(n: nat)
    requires n > 0
    ensures n <= Pow2(CeilLog2(n))
    ensures CeilLog2(n) > 0 ==> Pow2(CeilLog2(n) - 1) < n
    decreases n
  {
    if n > 1 {
      CeilLog2Spec((n + 1) / 2);
    }
  }
}
