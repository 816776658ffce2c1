/** The single-adder, single-shifter ALU and the two branch comparators, at every width. */
module BaseAlu {
  import opened Bits

  const FNADD: nat := 0
  const FNSL: nat := 1
  const FNSEQ: nat := 2
  const FNSNE: nat := 3
  const FNSR: nat := 5
  const FNOR: nat := 6
  const FNAND: nat := 7
  const FNSUB: nat := 10
  const FNSRA: nat := 11
  const FNSLT: nat := 12
  const FNSGE: nat := 13
  const FNSLTU: nat := 14
  const FNSGEU: nat := 15

  /** Bit k of a function code. */
  predicate Fn(fn: nat, k: nat) { (fn / Pow2(k)) % 2 == 1 }

  lemma FnBits(fn: nat)
    requires fn < 16
    ensures Fn(fn, 0) == (fn % 2 == 1) && Fn(fn, 1) == ((fn / 2) % 2 == 1) && Fn(fn, 3) == (fn >= 8)
  {
    assert Pow2(1) == 2 && Pow2(2) == 4 && Pow2(3) == 8;
  }

  function XorBits(x: seq<bool>, y: seq<bool>): (z: seq<bool>)
    requires |x| == |y|
    ensures |z| == |x|
  {
    seq(|x|, i requires 0 <= i < |x| => x[i] != y[i])
  }

  /** x ^ duplicate(c) */
  function XorAll(x: seq<bool>, c: bool): (z: seq<bool>)
    ensures |z| == |x|
  {
    seq(|x|, i requires 0 <= i < |x| => x[i] != c)
  }

  function IsZero(x: seq<bool>): bool { forall i :: 0 <= i < |x| ==> !x[i] }

  function Msb(x: seq<bool>): bool
    requires x != []
  {
    x[|x| - 1]
  }

  // ---------- the functions of the ALU ----------

  /** fn_bru2: comparison with the adder. */
  function FnBru2(op1: seq<bool>, op2: seq<bool>, fn: nat): bool
    requires |op1| == |op2| > 0
  {
    var invOp2 := XorAll(op2, Fn(fn, 3));
    var adder := ToBits(|op1|, Val(op1) + Val(invOp2) + Bit(Fn(fn, 3)));
    Fn(fn, 0) !=
    if !Fn(fn, 3) then IsZero(XorBits(op1, invOp2))
    else if Msb(op1) == Msb(op2) then Msb(adder)
    else if Fn(fn, 1) then Msb(op2) else Msb(op1)
  }

  /** {sign & op[msb], op} as a signed number of one more bit */
  function Extended(op: seq<bool>, sign: bool): int
    requires op != []
  {
    Signed(op + [sign && Msb(op)])
  }

  /** fn_bru: comparison with a comparator. */
  function FnBru(op1: seq<bool>, op2: seq<bool>, fn: nat): bool
    requires |op1| == |op2| > 0
  {
    var zero := IsZero(XorBits(op1, op2));
    var less := Extended(op1, !Fn(fn, 1)) < Extended(op2, !Fn(fn, 1));
    if fn == FNSEQ then zero else if fn == FNSNE then !zero
    else if fn == FNSLT || fn == FNSLTU then less else !less
  }

  /** fn_add: one adder of one more bit serves addition and subtraction. */
  function FnAdd(op1: seq<bool>, op2: seq<bool>, sub: bool): (r: seq<bool>)
    requires |op1| == |op2|
    ensures |r| == |op1|
  {
    ToBits(|op1| + 1, Val([true] + op1) + Val(XorAll([false] + op2, sub)))[1..]
  }

  /** fn_compare */
  function FnCompare(op1: seq<bool>, op2: seq<bool>, fn: nat): bool
    requires |op1| == |op2| > 0
  {
    Extended(op1, !Fn(fn, 1)) < Extended(op2, !Fn(fn, 1))
  }

  function Reverse(x: seq<bool>): (r: seq<bool>)
    ensures |r| == |x|
  {
    seq(|x|, i requires 0 <= i < |x| => x[|x| - 1 - i])
  }

  function Fill(n: nat, b: bool): (r: seq<bool>)
    ensures |r| == n
  {
    seq(n, _ => b)
  }

  /** >> on a signed number: the top bit is repeated. */
  function ShiftSigned(t: seq<bool>, amount: nat): (r: seq<bool>)
    requires t != []
    ensures |r| == |t|
  {
    seq(|t|, i requires 0 <= i < |t| => if i + amount < |t| then t[i + amount] else t[|t| - 1])
  }

  predicate IsRight(fn: nat) { fn == FNSR || fn == FNSRA }

  /** The one right shifter: a left shift reverses its operand and its result. */
  function Shifter(x: seq<bool>, amount: nat, fn: nat): (r: seq<bool>)
    requires x != []
    ensures |r| == |x|
  {
    var shin := if IsRight(fn) then x else Reverse(x);
    var shiftR := ShiftSigned(shin + [Fn(fn, 3) && Msb(shin)], amount)[..|x|];
    if IsRight(fn) then shiftR else Reverse(shiftR)
  }

  /** fn_shift at width 2 * half (RV64 for half == 32): a word operation shifts the lower half, extended
      with zeros or with its sign; the amount then is taken modulo half. */
  function FnShift(half: nat, op1: seq<bool>, op2: nat, fn: nat, wordop: bool): (r: seq<bool>)
    requires half > 0 && |op1| == 2 * half
    ensures |r| == |op1|
  {
    var amount := if wordop then op2 % half else op2 % (2 * half);
    var upper := if wordop then Fill(half, Fn(fn, 3) && op1[half - 1]) else op1[half..];
    Shifter(op1[..half] + upper, amount, fn)
  }

  // ---------- values of bit vectors ----------

  lemma {:induction false} ValXorAll(x: seq<bool>)
    ensures Val(XorAll(x, true)) == Pow2(|x|) - 1 - Val(x)
    ensures XorAll(x, false) == x
    decreases |x|
  {
    if x != [] {
      assert XorAll(x, true)[1..] == XorAll(x[1..], true);
      ValXorAll(x[1..]);
    }
  }

  lemma {:induction false} ValMsb(x: seq<bool>)
    requires x != []
    ensures Msb(x) <==> Val(x) >= Pow2(|x| - 1)
    ensures Signed(x) == Val(x) - Pow2(|x|) * Bit(Msb(x))
    ensures Val(x) == Val(x[..|x| - 1]) + Pow2(|x| - 1) * Bit(Msb(x))
  {
    var n := |x| - 1;
    assert x == x[..n] + [x[n]];
    ValSnoc(x[..n], x[n]);
    ValBound(x[..n]);
  }

  lemma {:induction false} ValFill(n: nat, b: bool)
    ensures Val(Fill(n, b)) == if b then Pow2(n) - 1 else 0
    decreases n
  {
    if n > 0 {
      assert Fill(n, b)[1..] == Fill(n - 1, b);
      ValFill(n - 1, b);
    }
  }

  /** Splitting a vector is division and remainder. */
  lemma ValSplit(x: seq<bool>, k: nat)
    requires k <= |x|
    ensures Val(x[k..]) == Val(x) / Pow2(k) && Val(x[..k]) == Val(x) % Pow2(k)
    ensures Val(x) == Val(x[..k]) + Pow2(k) * Val(x[k..])
  {
    assert x == x[..k] + x[k..];
    ValConcat(x[..k], x[k..]);
    ValBound(x[..k]);
    assert Pow2(k) * Val(x[k..]) == Val(x[k..]) * Pow2(k);
    ModUnique(Val(x), Pow2(k), Val(x[k..]), Val(x[..k]));
    DivUnique(Val(x), Pow2(k), Val(x[k..]), Val(x[..k]));
  }

  lemma DivUnique(v: int, m: nat, q: int, r: int)
    requires m > 0 && v == q * m + r && 0 <= r < m
    ensures v / m == q
  {
    ModUnique(v, m, q, r);
    assert v == (v / m) * m + v % m;
    var d := v / m - q;
    assert d * m == (v / m) * m - q * m;
    assert d * m == 0;
    if d >= 1 {
      AtLeast(d, m);
    } else if d <= -1 {
      AtLeast(-d, m);
    }
  }

  // ---------- addition ----------

  /** fn_add adds, and with sub = 1 subtracts, modulo 2^n. */
  lemma {:induction false} AddCorrect(op1: seq<bool>, op2: seq<bool>)
    requires |op1| == |op2|
    ensures Val(FnAdd(op1, op2, false)) == (Val(op1) + Val(op2)) % Pow2(|op1|)
    ensures Val(FnAdd(op1, op2, true)) == (Val(op1) - Val(op2)) % Pow2(|op1|)
  {
    AdderInputs(op1, op2);
    ValBound(op2);
    UpperBits(|op1|, Val(op1) + Val(op2), 1);
    UpperBits(|op1|, Val(op1) + Pow2(|op1|) - Val(op2), 0);
    ModShift(Val(op1) - Val(op2), Pow2(|op1|), 1);
  }

  lemma AdderInputs(op1: seq<bool>, op2: seq<bool>)
    requires |op1| == |op2|
    ensures Val([true] + op1) + Val(XorAll([false] + op2, false)) == 2 * (Val(op1) + Val(op2)) + 1
    ensures Val([true] + op1) + Val(XorAll([false] + op2, true)) == 2 * (Val(op1) + Pow2(|op1|) - Val(op2))
  {
    Prefixed(op1, true);
    Prefixed(op2, false);
    ValXorAll([false] + op2);
  }

  lemma Prefixed(x: seq<bool>, b: bool)
    ensures Val([b] + x) == Bit(b) + 2 * Val(x)
  {
    assert ([b] + x)[1..] == x;
  }

  lemma UpperBits(n: nat, w: nat, c: nat)
    requires c < 2
    ensures Val(ToBits(n + 1, 2 * w + c)[1..]) == w % Pow2(n)
  {
    assert (2 * w + c) / 2 == w;
    assert ToBits(n + 1, 2 * w + c)[1..] == ToBits(n, w);
    ToBitsVal(n, w);
  }

  // ---------- comparison ----------

  lemma {:induction false} ExtendedValue(op: seq<bool>, sign: bool)
    requires op != []
    ensures Extended(op, sign) == if sign then Signed(op) else Val(op)
  {
    ValMsb(op);
    var x := op + [sign && Msb(op)];
    assert x[..|x| - 1] == op;
  }

  lemma XorZero(x: seq<bool>, y: seq<bool>)
    requires |x| == |y|
    ensures IsZero(XorBits(x, y)) <==> Val(x) == Val(y)
  {
    if IsZero(XorBits(x, y)) {
      forall i | 0 <= i < |x|
        ensures x[i] == y[i]
      {
        assert !XorBits(x, y)[i];
      }
      assert x == y;
    } else if Val(x) == Val(y) {
      ValInjective(x, y);
    }
  }

  /** What a branch asks, as numbers. */
  predicate Holds(op1: seq<bool>, op2: seq<bool>, fn: nat)
    requires |op1| == |op2| > 0
  {
    if fn == FNSEQ then Val(op1) == Val(op2)
    else if fn == FNSNE then Val(op1) != Val(op2)
    else if fn == FNSLT then Signed(op1) < Signed(op2)
    else if fn == FNSGE then Signed(op1) >= Signed(op2)
    else if fn == FNSLTU then Val(op1) < Val(op2)
    else Val(op1) >= Val(op2)
  }

  predicate IsBranchCode(fn: nat) {
    fn == FNSEQ || fn == FNSNE || fn == FNSLT || fn == FNSGE || fn == FNSLTU || fn == FNSGEU
  }

  /** The comparator version is the comparison of numbers. */
  lemma BruCorrect(op1: seq<bool>, op2: seq<bool>, fn: nat)
    requires |op1| == |op2| > 0 && IsBranchCode(fn)
    ensures FnBru(op1, op2, fn) <==> Holds(op1, op2, fn)
  {
    FnBits(fn);
    XorZero(op1, op2);
    ExtendedValue(op1, !Fn(fn, 1));
    ExtendedValue(op2, !Fn(fn, 1));
  }

  /** With equal signs the top bit of the difference is the borrow. */
  lemma {:induction false} Borrow(op1: seq<bool>, op2: seq<bool>)
    requires |op1| == |op2| > 0 && Msb(op1) == Msb(op2)
    ensures Msb(ToBits(|op1|, Val(op1) + Val(XorAll(op2, true)) + 1)) <==> Val(op1) < Val(op2)
  {
    var n := |op1|;
    var sum := Val(op1) + Val(XorAll(op2, true)) + 1;
    ValXorAll(op2);
    ValMsb(op1);
    ValMsb(op2);
    ValBound(op1[..n - 1]);
    ValBound(op2[..n - 1]);
    ToBitsVal(n, sum);
    ValMsb(ToBits(n, sum));
    if Val(op1) < Val(op2) {
      ModUnique(sum, Pow2(n), 0, sum);
    } else {
      ModUnique(sum, Pow2(n), 1, Val(op1) - Val(op2));
    }
  }

  /** The adder version and the comparator version of the branch unit agree on all six codes, and both are
      the comparison of numbers. */
  lemma BranchUnitsAgree(op1: seq<bool>, op2: seq<bool>, fn: nat)
    requires |op1| == |op2| > 0 && IsBranchCode(fn)
    ensures FnBru2(op1, op2, fn) == FnBru(op1, op2, fn)
    ensures FnBru(op1, op2, fn) <==> Holds(op1, op2, fn)
  {
    FnBits(fn);
    BruCorrect(op1, op2, fn);
    if fn == FNSEQ || fn == FNSNE {
      ValXorAll(op2);
      XorZero(op1, op2);
    } else {
      LessFromAdder(op1, op2, fn);
    }
  }

  lemma {:induction false} LessFromAdder(op1: seq<bool>, op2: seq<bool>, fn: nat)
    requires |op1| == |op2| > 0 && 12 <= fn < 16
    ensures FnBru2(op1, op2, fn) == (Fn(fn, 0) != if Fn(fn, 1) then Val(op1) < Val(op2) else Signed(op1) < Signed(op2))
  {
    FnBits(fn);
    ValMsb(op1);
    ValMsb(op2);
    ValBound(op1[..|op1| - 1]);
    ValBound(op2[..|op1| - 1]);
    if Msb(op1) == Msb(op2) {
      Borrow(op1, op2);
    }
  }

  /** fn_compare: the set-less-than result, signed or unsigned. */
  lemma {:induction false} CompareCorrect(op1: seq<bool>, op2: seq<bool>)
    requires |op1| == |op2| > 0
    ensures FnCompare(op1, op2, FNSLT) <==> Signed(op1) < Signed(op2)
    ensures FnCompare(op1, op2, FNSLTU) <==> Val(op1) < Val(op2)
  {
    FnBits(FNSLT);
    FnBits(FNSLTU);
    ExtendedValue(op1, true);
    ExtendedValue(op2, true);
    ExtendedValue(op1, false);
    ExtendedValue(op2, false);
  }

  // ---------- shifts ----------

  lemma RightForm(x: seq<bool>, amount: nat, fn: nat)
    requires amount < |x| && IsRight(fn)
    ensures Shifter(x, amount, fn) == x[amount..] + Fill(amount, Fn(fn, 3) && Msb(x))
  {
  }

  lemma LeftForm(x: seq<bool>, amount: nat)
    requires amount < |x|
    ensures Shifter(x, amount, FNSL) == Fill(amount, false) + x[..|x| - amount]
  {
    FnBits(FNSL);
    var (n, shin) := (|x|, Reverse(x));
    var shiftR := ShiftSigned(shin + [false], amount)[..n];
    forall i | 0 <= i < n
      ensures Reverse(shiftR)[i] == (Fill(amount, false) + x[..n - amount])[i]
    {
      assert Reverse(shiftR)[i] == shiftR[n - 1 - i];
    }
    assert Reverse(shiftR) == Fill(amount, false) + x[..n - amount];
  }

  /** The one shifter computes the logical left, logical right and arithmetic right shifts. */
  lemma {:induction false} ShiftsCorrect(x: seq<bool>, amount: nat)
    requires amount < |x|
    ensures Val(Shifter(x, amount, FNSL)) == (Val(x) * Pow2(amount)) % Pow2(|x|)
    ensures Val(Shifter(x, amount, FNSR)) == Val(x) / Pow2(amount)
    ensures Signed(Shifter(x, amount, FNSRA)) == Signed(x) / Pow2(amount)
  {
    FnBits(FNSR);
    LeftShift(x, amount);
    RightForm(x, amount, FNSR);
    ValConcat(x[amount..], Fill(amount, false));
    ValFill(amount, false);
    ValSplit(x, amount);
    ArithmeticShift(x, amount);
  }

  lemma {:induction false} LeftShift(x: seq<bool>, amount: nat)
    requires amount < |x|
    ensures Val(Shifter(x, amount, FNSL)) == (Val(x) * Pow2(amount)) % Pow2(|x|)
  {
    var k := |x| - amount;
    LeftForm(x, amount);
    ValConcat(Fill(amount, false), x[..k]);
    ValFill(amount, false);
    ValSplit(x, k);
    ValBound(x[..k]);
    Pow2Sum(k, amount);
    ScaledMod(Val(x), Val(x[..k]), Val(x[k..]), Pow2(k), Pow2(amount));
  }

  lemma ScaledMod(v: nat, low: nat, high: nat, K: nat, A: nat)
    requires v == low + K * high && low < K && A > 0
    ensures K * A > 0 && (v * A) % (K * A) == A * low
  {
    assert v * A == high * (K * A) + A * low by {
      assert v * A == low * A + (K * high) * A;
      assert (K * high) * A == high * (K * A);
    }
    assert A * low < K * A by {
      assert A * (low + 1) <= A * K;
    }
    ModUnique(v * A, K * A, high, A * low);
  }

  /** The shifted vector with its top bits filled. */
  lemma {:induction false} FilledValue(x: seq<bool>, amount: nat, f: bool)
    requires amount <= |x|
    ensures Val(x[amount..] + Fill(amount, f))
      == Val(x[amount..]) + Pow2(|x| - amount) * if f then Pow2(amount) - 1 else 0
  {
    ValConcat(x[amount..], Fill(amount, f));
    ValFill(amount, f);
  }

  lemma {:induction false} FilledMsb(x: seq<bool>, amount: nat)
    requires amount < |x|
    ensures var y := x[amount..] + Fill(amount, Msb(x)); |y| == |x| && Msb(y) == Msb(x)
  {
  }

  lemma {:induction false} ArithmeticShift(x: seq<bool>, amount: nat)
    requires amount < |x|
    ensures Signed(Shifter(x, amount, FNSRA)) == Signed(x) / Pow2(amount)
  {
    var (n, f, K, A) := (|x|, Msb(x), Pow2(|x| - amount), Pow2(amount));
    var y := x[amount..] + Fill(amount, f);
    assert Shifter(x, amount, FNSRA) == y by {
      FnBits(FNSRA);
      RightForm(x, amount, FNSRA);
    }
    assert Pow2(n) == K * A by {
      Pow2Sum(n - amount, amount);
    }
    assert Signed(y) == Val(x[amount..]) + K * (if f then A - 1 else 0) - (K * A) * Bit(f) by {
      FilledMsb(x, amount);
      ValMsb(y);
      FilledValue(x, amount, f);
    }
    assert Signed(x) == Val(x) - (K * A) * Bit(f) by {
      ValMsb(x);
    }
    assert Val(x) == Val(x[..amount]) + A * Val(x[amount..]) && Val(x[..amount]) < A by {
      ValSplit(x, amount);
      ValBound(x[..amount]);
    }
    FloorShift(Val(x), Val(x[amount..]), Val(x[..amount]), K, A, Bit(f));
  }

  lemma FloorShift(v: nat, q: nat, r: nat, K: nat, A: nat, f: nat)
    requires v == r + A * q && r < A && f <= 1
    ensures (v - (K * A) * f) / A == q + K * (if f == 1 then A - 1 else 0) - (K * A) * f
  {
    if f == 1 {
      assert K * (A - 1) == K * A - K;
      assert v - K * A == (q - K) * A + r by {
        assert (q - K) * A == q * A - K * A;
      }
      DivUnique(v - K * A, A, q - K, r);
    } else {
      assert v == q * A + r;
      DivUnique(v, A, q, r);
    }
  }

  lemma {:induction false} WordShiftLeft(half: nat, op1: seq<bool>, op2: nat)
    requires half > 0 && |op1| == 2 * half
    ensures FnShift(half, op1, op2, FNSL, true)[..half] == Shifter(op1[..half], op2 % half, FNSL)
  {
    FnBits(FNSL);
    var (low, amount) := (op1[..half], op2 % half);
    var upper := Fill(half, false);
    LeftForm(low + upper, amount);
    LeftForm(low, amount);
    HalfOfLeft(low, upper, amount);
  }

  lemma {:induction false} WordShiftRight(half: nat, op1: seq<bool>, op2: nat, fn: nat)
    requires half > 0 && |op1| == 2 * half && IsRight(fn)
    ensures FnShift(half, op1, op2, fn, true)[..half] == Shifter(op1[..half], op2 % half, fn)
  {
    FnBits(fn);
    var (low, amount) := (op1[..half], op2 % half);
    var f := Fn(fn, 3) && op1[half - 1];
    RightForm(low + Fill(half, f), amount, fn);
    RightForm(low, amount, fn);
    HalfOfRight(low, f, amount);
  }

  /** A word shift leaves in the lower half what the shifter of half the width computes: SLLW, SRLW and SRAW
      are the shifts of the lower word. */
  lemma {:induction false} WordShift(half: nat, op1: seq<bool>, op2: nat, fn: nat)
    requires half > 0 && |op1| == 2 * half && (fn == FNSL || fn == FNSR || fn == FNSRA)
    ensures FnShift(half, op1, op2, fn, true)[..half] == Shifter(op1[..half], op2 % half, fn)
  {
    if fn == FNSL {
      WordShiftLeft(half, op1, op2);
    } else {
      WordShiftRight(half, op1, op2, fn);
    }
  }

  lemma HalfOfLeft(low: seq<bool>, upper: seq<bool>, amount: nat)
    requires amount < |low| == |upper|
    ensures (Fill(amount, false) + (low + upper)[..2 * |low| - amount])[..|low|] == Fill(amount, false)
          + low[..|low| - amount]
  {
  }

  lemma HalfOfRight(low: seq<bool>, b: bool, amount: nat)
    requires amount < |low|
    ensures ((low + Fill(|low|, b))[amount..] + Fill(amount, b))[..|low|] == low[amount..] + Fill(amount, b)
  {
  }

  /** Without wordop the whole operand is shifted. */
  lemma FullShift(half: nat, op1: seq<bool>, op2: nat, fn: nat)
    requires half > 0 && |op1| == 2 * half
    ensures FnShift(half, op1, op2, fn, false) == Shifter(op1, op2 % (2 * half), fn)
  {
    assert op1[..half] + op1[half..] == op1;
  }

  /** The sign extension stage 3 applies to the result of a word operation. */
  function SignExtend(half: nat, r: seq<bool>): (x: seq<bool>)
    requires half > 0 && |r| == 2 * half
    ensures |x| == |r|
  {
    r[..half] + Fill(half, r[half - 1])
  }

  lemma SignExtendValue(half: nat, r: seq<bool>)
    requires half > 0 && |r| == 2 * half
    ensures Signed(SignExtend(half, r)) == Signed(r[..half])
  {
    var (low, f) := (r[..half], r[half - 1]);
    var x := SignExtend(half, r);
    ValMsb(low);
    ValMsb(x);
    ValConcat(low, Fill(half, f));
    ValFill(half, f);
    Pow2Sum(half, half);
    assert Pow2(half) * (Pow2(half) - 1) == Pow2(half) * Pow2(half) - Pow2(half);
  }

  /** The word shifts as numbers, after the sign extension. */
  lemma {:induction false} WordShiftsCorrect(half: nat, op1: seq<bool>, op2: nat)
    requires half > 0 && |op1| == 2 * half
    ensures var (low, amount) := (op1[..half], op2 % half);
      var (sll, srl, sra) := (FnShift(half, op1, op2, FNSL, true), FnShift(half, op1, op2, FNSR, true), FnShift(half,
          op1, op2, FNSRA, true));
      && Val(sll[..half]) == (Val(low) * Pow2(amount)) % Pow2(half)
      && Val(srl[..half]) == Val(low) / Pow2(amount)
      && Signed(SignExtend(half, sra)) == Signed(low) / Pow2(amount)
      && Signed(SignExtend(half, sll)) == Signed(sll[..half]) && Signed(SignExtend(half, srl)) == Signed(srl[..half])
  {
    WordShift(half, op1, op2, FNSL);
    WordShift(half, op1, op2, FNSR);
    WordShift(half, op1, op2, FNSRA);
    ShiftsCorrect(op1[..half], op2 % half);
    SignExtendValue(half, FnShift(half, op1, op2, FNSL, true));
    SignExtendValue(half, FnShift(half, op1, op2, FNSR, true));
    SignExtendValue(half, FnShift(half, op1, op2, FNSRA, true));
  }

  // ---------- the whole ALU ----------

  function AndBits(x: seq<bool>, y: seq<bool>): seq<bool>
    requires |x| == |y|
  {
    seq(|x|, i requires 0 <= i < |x| => x[i] && y[i])
  }

  function OrBits(x: seq<bool>, y: seq<bool>): seq<bool>
    requires |x| == |y|
  {
    seq(|x|, i requires 0 <= i < |x| => x[i] || y[i])
  }

  /** fn_base_alu */
  function FnBaseAlu(half: nat, op1: seq<bool>, op2: seq<bool>, fn: nat, pc: seq<bool>, op1pc: bool,
      wordop: bool): (r: seq<bool>)
    requires half > 0 && |op1| == |op2| == |pc| == 2 * half
    ensures |r| == 2 * half
  {
    if fn == FNADD || fn == FNSUB then FnAdd(if op1pc then pc else op1, op2, Fn(fn, 1))
    else if fn == FNSLT || fn == FNSLTU then ToBits(2 * half, Bit(FnCompare(op1, op2, fn)))
    else if fn == FNSR || fn == FNSRA || fn == FNSL then FnShift(half, op1, Val(op2), fn, wordop)
    else if fn == FNOR then OrBits(op1, op2)
    else if fn == FNAND then AndBits(op1, op2)
    else XorBits(op1, op2)
  }

  /** What rl_exe_base_arith commits: the result of a word operation is sign-extended. */
  function ExeBaseArith(half: nat, op1: seq<bool>, op2: seq<bool>, fn: nat, pc: seq<bool>, op1pc: bool,
      wordop: bool): seq<bool>
    requires half > 0 && |op1| == |op2| == |pc| == 2 * half
  {
    var r := FnBaseAlu(half, op1, op2, fn, pc, op1pc, wordop);
    if wordop then SignExtend(half, r) else r
  }

  lemma OneBitResult(n: nat, b: bool)
    requires n > 0
    ensures Val(ToBits(n, Bit(b))) == Bit(b)
  {
    ToBitsVal(n, Bit(b));
    assert Pow2(n) == 2 * Pow2(n - 1);
    ModUnique(Bit(b), Pow2(n), 0, Bit(b));
  }

  /** ADD, SUB and AUIPC, codes 0 and 10: the sum or difference modulo 2^n. */
  lemma {:induction false} AluAddSub(half: nat, op1: seq<bool>, op2: seq<bool>, pc: seq<bool>, op1pc: bool)
    requires half > 0 && |op1| == |op2| == |pc| == 2 * half
    ensures var base := if op1pc then pc else op1;
      && Val(ExeBaseArith(half, op1, op2, 0, pc, op1pc, false)) == (Val(base) + Val(op2)) % Pow2(2 * half)
      && Val(ExeBaseArith(half, op1, op2, 10, pc, op1pc, false)) == (Val(base) - Val(op2)) % Pow2(2 * half)
  {
    var base := if op1pc then pc else op1;
    AluIsAdder(half, op1, op2, pc, op1pc);
    AddCorrect(base, op2);
  }

  lemma AluIsAdder(half: nat, op1: seq<bool>, op2: seq<bool>, pc: seq<bool>, op1pc: bool)
    requires half > 0 && |op1| == |op2| == |pc| == 2 * half
    ensures var base := if op1pc then pc else op1;
      && ExeBaseArith(half, op1, op2, FNADD, pc, op1pc, false) == FnAdd(base, op2, false)
      && ExeBaseArith(half, op1, op2, FNSUB, pc, op1pc, false) == FnAdd(base, op2, true)
  {
    FnBits(FNADD);
    FnBits(FNSUB);
  }

  /** OR, AND and XOR, codes 6, 7 and 4, bit by bit. */
  lemma AluLogic(half: nat, op1: seq<bool>, op2: seq<bool>, pc: seq<bool>, op1pc: bool, i: nat)
    requires half > 0 && |op1| == |op2| == |pc| == 2 * half && i < 2 * half
    ensures ExeBaseArith(half, op1, op2, 6, pc, op1pc, false)[i] <==> (op1[i] || op2[i])
    ensures ExeBaseArith(half, op1, op2, 7, pc, op1pc, false)[i] <==> (op1[i] && op2[i])
    ensures ExeBaseArith(half, op1, op2, 4, pc, op1pc, false)[i] <==> (op1[i] && !op2[i]) || (!op1[i] && op2[i])
  {
  }

  /** The six codes of the branch unit. */
  lemma {:induction false} BranchCodes(op1: seq<bool>, op2: seq<bool>)
    requires |op1| == |op2| > 0
    ensures FnBru(op1, op2, 2) <==> Val(op1) == Val(op2)
    ensures FnBru(op1, op2, 3) <==> Val(op1) != Val(op2)
    ensures FnBru(op1, op2, 12) <==> Signed(op1) < Signed(op2)
    ensures FnBru(op1, op2, 13) <==> Signed(op1) >= Signed(op2)
    ensures FnBru(op1, op2, 14) <==> Val(op1) < Val(op2)
    ensures FnBru(op1, op2, 15) <==> Val(op1) >= Val(op2)
  {
    BranchUnitsAgree(op1, op2, 2);
    BranchUnitsAgree(op1, op2, 3);
    BranchUnitsAgree(op1, op2, 12);
    BranchUnitsAgree(op1, op2, 13);
    BranchUnitsAgree(op1, op2, 14);
    BranchUnitsAgree(op1, op2, 15);
  }

  /** SLT and SLTU, codes 12 and 14: one if less, else zero. */
  lemma AluSetLess(half: nat, op1: seq<bool>, op2: seq<bool>, pc: seq<bool>, op1pc: bool)
    requires half > 0 && |op1| == |op2| == |pc| == 2 * half
    ensures Val(ExeBaseArith(half, op1, op2, 12, pc, op1pc, false)) == Bit(Signed(op1) < Signed(op2))
    ensures Val(ExeBaseArith(half, op1, op2, 14, pc, op1pc, false)) == Bit(Val(op1) < Val(op2))
  {
    CompareCorrect(op1, op2);
    OneBitResult(2 * half, Signed(op1) < Signed(op2));
    OneBitResult(2 * half, Val(op1) < Val(op2));
  }

  lemma AluIsShifter(half: nat, op1: seq<bool>, op2: seq<bool>, fn: nat, pc: seq<bool>, op1pc: bool)
    requires half > 0 && |op1| == |op2| == |pc| == 2 * half && (fn == FNSL || fn == FNSR || fn == FNSRA)
    ensures ExeBaseArith(half, op1, op2, fn, pc, op1pc, false) == Shifter(op1, Val(op2) % |op1|, fn)
  {
    FullShift(half, op1, Val(op2), fn);
  }

  /** SLL, SRL and SRA, codes 1, 5 and 11: the operand times, or divided by, the power of two; the amount is taken
      modulo the width, and SRA rounds down. */
  lemma {:induction false} AluShifts(half: nat, op1: seq<bool>, op2: seq<bool>, pc: seq<bool>, op1pc: bool)
    requires half > 0 && |op1| == |op2| == |pc| == 2 * half
    ensures var amount := Val(op2) % |op1|;
      && Val(ExeBaseArith(half, op1, op2, 1, pc, op1pc, false)) == (Val(op1) * Pow2(amount)) % Pow2(|op1|)
      && Val(ExeBaseArith(half, op1, op2, 5, pc, op1pc, false)) == Val(op1) / Pow2(amount)
      && Signed(ExeBaseArith(half, op1, op2, 11, pc, op1pc, false)) == Signed(op1) / Pow2(amount)
  {
    AluIsShifter(half, op1, op2, FNSL, pc, op1pc);
    AluIsShifter(half, op1, op2, FNSR, pc, op1pc);
    AluIsShifter(half, op1, op2, FNSRA, pc, op1pc);
    ShiftsCorrect(op1, Val(op2) % |op1|);
  }

  lemma {:induction false} AluIsWordShift(half: nat, op1: seq<bool>, op2: seq<bool>, fn: nat, pc: seq<bool>,
      op1pc: bool)
    requires half > 0 && |op1| == |op2| == |pc| == 2 * half && (fn == FNSL || fn == FNSR || fn == FNSRA)
    ensures ExeBaseArith(half, op1, op2, fn, pc, op1pc, true)
      == SignExtend(half, FnShift(half, op1, Val(op2), fn, true))
  {
  }

  /** A word operation whose lower half has the value v modulo 2^half. */
  lemma WordValue(half: nat, r: seq<bool>, v: int)
    requires half > 0 && |r| == 2 * half && Val(r[..half]) == v % Pow2(half)
    ensures Signed(SignExtend(half, r)) == Signed(ToBits(half, v))
  {
    SameBits(r[..half], v);
    SignExtendValue(half, r);
  }

  lemma QuotientFits(x: seq<bool>, p: nat)
    requires p > 0
    ensures (Val(x) / p) % Pow2(|x|) == Val(x) / p
  {
    ValBound(x);
    QuotientSmaller(Val(x), p);
    ModUnique(Val(x) / p, Pow2(|x|), 0, Val(x) / p);
  }

  lemma QuotientSmaller(v: nat, p: nat)
    requires p > 0
    ensures 0 <= v / p <= v
  {
    var q := v / p;
    assert v == q * p + v % p;
    if q > 0 {
      AtLeast(p, q);
      assert q * p == p * q;
    }
  }

  /** SLLW, SRLW and SRAW: the shifts of the lower word, sign-extended; the amount is taken modulo its width. */
  lemma {:induction false} AluShiftsWord(half: nat, op1: seq<bool>, op2: seq<bool>, pc: seq<bool>, op1pc: bool)
    requires half > 0 && |op1| == |op2| == |pc| == 2 * half
    ensures var (low, amount) := (op1[..half], Val(op2) % half);
      && Signed(ExeBaseArith(half, op1, op2, 1, pc, op1pc, true))
        == Signed(ToBits(half, Val(low) * Pow2(amount)))
      && Signed(ExeBaseArith(half, op1, op2, 5, pc, op1pc, true))
        == Signed(ToBits(half, Val(low) / Pow2(amount)))
      && Signed(ExeBaseArith(half, op1, op2, 11, pc, op1pc, true)) == Signed(low) / Pow2(amount)
  {
    AluIsWordShift(half, op1, op2, FNSL, pc, op1pc);
    AluIsWordShift(half, op1, op2, FNSR, pc, op1pc);
    AluIsWordShift(half, op1, op2, FNSRA, pc, op1pc);
    WordShiftsCorrect(half, op1, Val(op2));
    var (low, p) := (op1[..half], Pow2(Val(op2) % half));
    WordValue(half, FnShift(half, op1, Val(op2), FNSL, true), Val(low) * p);
    QuotientFits(low, p);
    WordValue(half, FnShift(half, op1, Val(op2), FNSR, true), Val(low) / p);
  }

  /** ADDW and SUBW: the sum or difference of the lower words, sign-extended. */
  lemma {:induction false} AluAddSubWord(half: nat, op1: seq<bool>, op2: seq<bool>, pc: seq<bool>)
    requires half > 0 && |op1| == |op2| == |pc| == 2 * half
    ensures var (a, b) := (op1[..half], op2[..half]);
      && Signed(ExeBaseArith(half, op1, op2, 0, pc, false, true)) == Signed(ToBits(half, Val(a) + Val(b)))
      && Signed(ExeBaseArith(half, op1, op2, 10, pc, false, true)) == Signed(ToBits(half, Val(a) - Val(b)))
  {
    FnBits(FNADD);
    FnBits(FNSUB);
    LowerSum(half, op1, op2);
    SignExtendValue(half, FnAdd(op1, op2, false));
    SignExtendValue(half, FnAdd(op1, op2, true));
  }

  lemma LowerHalf(r: seq<bool>, half: nat, v: int, low: int, high: int)
    requires |r| == 2 * half && Val(r) == v % Pow2(2 * half) && v == low + Pow2(half) * high
    ensures r[..half] == ToBits(half, low)
  {
    ValSplit(r, half);
    Pow2Sum(half, half);
    LowerMod(v, low, high, Pow2(half));
    SameBits(r[..half], low);
  }

  lemma JoinHalves(v: int, w: int, a: int, b: int, p: int, q: int, h: int)
    requires v == a + h * p && w == b + h * q
    ensures v + w == (a + b) + h * (p + q) && v - w == (a - b) + h * (p - q)
  {
  }

  lemma {:induction false} LowerSum(half: nat, op1: seq<bool>, op2: seq<bool>)
    requires |op1| == |op2| == 2 * half
    ensures FnAdd(op1, op2, false)[..half] == ToBits(half, Val(op1[..half]) + Val(op2[..half]))
    ensures FnAdd(op1, op2, true)[..half] == ToBits(half, Val(op1[..half]) - Val(op2[..half]))
  {
    var a: int, b: int := Val(op1[..half]), Val(op2[..half]);
    var p: int, q: int := Val(op1[half..]), Val(op2[half..]);
    var v: int, w: int := Val(op1), Val(op2);
    assert v + w == (a + b) + Pow2(half) * (p + q) && v - w == (a - b) + Pow2(half) * (p - q) by {
      Halves(op1, half);
      Halves(op2, half);
      JoinHalves(v, w, a, b, p, q, Pow2(half));
    }
    AddCorrect(op1, op2);
    LowerHalf(FnAdd(op1, op2, false), half, v + w, a + b, p + q);
    LowerHalf(FnAdd(op1, op2, true), half, v - w, a - b, p - q);
  }

  lemma Halves(x: seq<bool>, half: nat)
    requires half <= |x|
    ensures Val(x) == Val(x[..half]) + Pow2(half) * Val(x[half..])
  {
    ValSplit(x, half);
  }

  lemma LowerMod(v: int, low: int, high: int, H: nat)
    requires H > 0 && v == low + H * high
    ensures H * H > 0 && (v % (H * H)) % H == low % H
  {
    var (q, r) := (v / (H * H), v % (H * H));
    assert v == (H * H) * q + r;
    assert r == low + (high - H * q) * H by {
      assert (high - H * q) * H == H * high - (H * H) * q;
    }
    ModShift(low, H, high - H * q);
  }
}
