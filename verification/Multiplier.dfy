/** The array multiplier usMult: partial products with a complemented border for signed operands, reduced
    row by row with carry-save adders. */
module Multiplier {
  import opened Bits

  function Maj(a: bool, b: bool, c: bool): bool { (a && b) || (a && c) || (b && c) }

  function Xor3(a: bool, b: bool, c: bool): bool { (a != b) != c }

  /** The bit of the previous row that meets column i: one to the left, none beyond the end. */
  function Above(prev: seq<bool>, i: nat): bool { if i + 1 < |prev| then prev[i + 1] else false }

  /** gen_carry */
  method GenCarry(prev: seq<bool>, s: seq<bool>, cin: seq<bool>) returns (cout: seq<bool>)
    requires |prev| == |s| == |cin|
    ensures |cout| == |s| && forall i :: 0 <= i < |s| ==> cout[i] == Maj(Above(prev, i), s[i], cin[i])
  {
    var x := |s|;
    cout := seq(x, _ => false);
    for i := 0 to x
      invariant |cout| == x && forall k :: 0 <= k < i ==> cout[k] == Maj(Above(prev, k), s[k], cin[k])
    {
      if i != x - 1 {
        cout := cout[i := (prev[i + 1] && s[i]) || (prev[i + 1] && cin[i]) || (s[i] && cin[i])];
      } else {
        cout := cout[i := s[i] && cin[i]];
      }
    }
  }

  /** gen_sum */
  method GenSum(prev: seq<bool>, s: seq<bool>, cin: seq<bool>) returns (sout: seq<bool>)
    requires |prev| == |s| == |cin|
    ensures |sout| == |s| && forall i :: 0 <= i < |s| ==> sout[i] == Xor3(Above(prev, i), s[i], cin[i])
  {
    var x := |s|;
    sout := seq(x, _ => false);
    for i := 0 to x
      invariant |sout| == x && forall k :: 0 <= k < i ==> sout[k] == Xor3(Above(prev, k), s[k], cin[k])
    {
      if i != x - 1 {
        sout := sout[i := (prev[i + 1] != s[i]) != cin[i]];
      } else {
        sout := sout[i := s[i] != cin[i]];
      }
    }
  }

  /** A row of full adders keeps the sum. */
  lemma {:induction false} FullAdders(x: seq<bool>, y: seq<bool>, z: seq<bool>, sum: seq<bool>, carry: seq<bool>)
    requires Added(x, y, z, sum, carry)
    ensures Val(x) + Val(y) + Val(z) == Val(sum) + 2 * Val(carry)
    decreases |x|
  {
    if x != [] {
      assert sum[0] == Xor3(x[0], y[0], z[0]) && carry[0] == Maj(x[0], y[0], z[0]);
      FullAdders(x[1..], y[1..], z[1..], sum[1..], carry[1..]);
    }
  }

  /** The previous row without its lowest bit, aligned with the next row. */
  function Shifted(prev: seq<bool>): (x: seq<bool>)
    requires prev != []
    ensures |x| == |prev|
  {
    prev[1..] + [false]
  }

  lemma ShiftedAt(prev: seq<bool>, i: nat)
    requires i < |prev|
    ensures Shifted(prev)[i] == Above(prev, i)
  {
  }

  lemma ShiftedVal(prev: seq<bool>)
    requires prev != []
    ensures Val(prev) == Bit(prev[0]) + 2 * Val(Shifted(prev))
  {
    ValPad(prev[1..]);
  }

  /** The bits a row of full adders leaves, column by column. */
  predicate Added(x: seq<bool>, y: seq<bool>, z: seq<bool>, sum: seq<bool>, carry: seq<bool>) {
    && |x| == |y| == |z| == |sum| == |carry|
    && forall i :: 0 <= i < |x| ==> sum[i] == Xor3(x[i], y[i], z[i]) && carry[i] == Maj(x[i], y[i], z[i])
  }

  /** One carry-save step: the lowest bit of the row is finished, the rest meets the next row. */
  lemma {:induction false} CarrySave(prev: seq<bool>, s: seq<bool>, cin: seq<bool>, sum: seq<bool>, carry: seq<bool>)
    requires prev != [] && Added(Shifted(prev), s, cin, sum, carry)
    ensures Val(prev) + 2 * Val(s) + 2 * Val(cin) == Bit(prev[0]) + 2 * Val(sum) + 4 * Val(carry)
  {
    ShiftedVal(prev);
    FullAdders(Shifted(prev), s, cin, sum, carry);
  }

  // ---------- the partial products ----------

  /** The bit of row i and column j: on the border, except in the corner, it is complemented for signed
      operands. */
  function Product(a: seq<bool>, b: seq<bool>, sgn: bool, i: nat, j: nat): bool
    requires i < |b| && j < |a|
  {
    if (j == |a| - 1 || i == |b| - 1) && !(j == |a| - 1 && i == |b| - 1) then (a[j] && b[i]) != sgn else a[j] && b[i]
  }

  function Row(a: seq<bool>, b: seq<bool>, sgn: bool, i: nat): (r: seq<bool>)
    requires i < |b|
    ensures |r| == |a|
  {
    seq(|a|, j requires 0 <= j < |a| => Product(a, b, sgn, i, j))
  }

  /** The weighted sum of the first k rows. */
  function RowSum(a: seq<bool>, b: seq<bool>, sgn: bool, k: nat): nat
    requires k <= |b|
  {
    if k == 0 then 0 else RowSum(a, b, sgn, k - 1) + Pow2(k - 1) * Val(Row(a, b, sgn, k - 1))
  }

  function AndAll(x: seq<bool>, c: bool): seq<bool> { seq(|x|, j requires 0 <= j < |x| => x[j] && c) }

  function NotAll(x: seq<bool>): seq<bool> { seq(|x|, j requires 0 <= j < |x| => !x[j]) }

  lemma {:induction false} ValAnd(x: seq<bool>, c: bool)
    ensures Val(AndAll(x, c)) == Bit(c) * Val(x)
    decreases |x|
  {
    if x != [] {
      assert AndAll(x, c)[1..] == AndAll(x[1..], c);
      ValAnd(x[1..], c);
    }
  }

  lemma {:induction false} ValNot(x: seq<bool>)
    ensures Val(NotAll(x)) == Pow2(|x|) - 1 - Val(x)
    decreases |x|
  {
    if x != [] {
      assert NotAll(x)[1..] == NotAll(x[1..]);
      ValNot(x[1..]);
    }
  }

  lemma ValPrefix(b: seq<bool>, k: nat)
    requires k < |b|
    ensures Val(b[..k + 1]) == Val(b[..k]) + Pow2(k) * Bit(b[k])
  {
    assert b[..k + 1] == b[..k] + [b[k]];
    ValSnoc(b[..k], b[k]);
  }

  /** Unsigned: the rows add up to the product. */
  lemma {:induction false} UnsignedRows(a: seq<bool>, b: seq<bool>, k: nat)
    requires k <= |b|
    ensures RowSum(a, b, false, k) == Val(a) * Val(b[..k])
  {
    if k > 0 {
      UnsignedRows(a, b, k - 1);
      ValPrefix(b, k - 1);
      assert Row(a, b, false, k - 1) == AndAll(a, b[k - 1]);
      ValAnd(a, b[k - 1]);
      Distribute(Val(a), Val(b[..k - 1]), Pow2(k - 1), Bit(b[k - 1]));
    }
  }

  /** A row above the last one, for signed operands. */
  lemma SignedRow(a: seq<bool>, b: seq<bool>, i: nat)
    requires a != [] && i + 1 < |b|
    ensures var n := |a| - 1;
      Val(Row(a, b, true, i)) == Bit(b[i]) * Val(a[..n]) + Pow2(n) * (1 - Bit(a[n]) * Bit(b[i]))
  {
    var n := |a| - 1;
    var top := !(a[n] && b[i]);
    assert Row(a, b, true, i) == AndAll(a[..n], b[i]) + [top];
    ValSnoc(AndAll(a[..n], b[i]), top);
    ValAnd(a[..n], b[i]);
    assert Bit(top) == 1 - Bit(a[n]) * Bit(b[i]);
  }

  /** The last row, for signed operands. */
  lemma SignedLastRow(a: seq<bool>, b: seq<bool>)
    requires a != [] && b != []
    ensures var (n, m) := (|a| - 1, |b| - 1);
      Val(Row(a, b, true, m)) == Pow2(n) - 1 - Bit(b[m]) * Val(a[..n]) + Pow2(n) * (Bit(a[n]) * Bit(b[m]))
  {
    var (n, m) := (|a| - 1, |b| - 1);
    var top := a[n] && b[m];
    assert Row(a, b, true, m) == NotAll(AndAll(a[..n], b[m])) + [top];
    ValSnoc(NotAll(AndAll(a[..n], b[m])), top);
    ValNot(AndAll(a[..n], b[m]));
    ValAnd(a[..n], b[m]);
    assert Bit(top) == Bit(a[n]) * Bit(b[m]);
  }

  lemma {:induction false} SignedRows(a: seq<bool>, b: seq<bool>, k: nat)
    requires a != [] && k < |b|
    ensures var n := |a| - 1; var low := Val(b[..k]);
      RowSum(a, b, true, k) == Val(a[..n]) * low + Pow2(n) * (Pow2(k) - 1 - Bit(a[n]) * low)
  {
    var n := |a| - 1;
    if k > 0 {
      SignedRows(a, b, k - 1);
      SignedRow(a, b, k - 1);
      ValPrefix(b, k - 1);
      SignedStep(Val(a[..n]), Val(b[..k - 1]), Pow2(n), Pow2(k - 1), Bit(a[n]), Bit(b[k - 1]));
    }
  }

  lemma SignedStep(a: int, low: int, N: int, p: int, x: nat, c: nat)
    requires x <= 1 && c <= 1
    ensures a * low + N * (p - 1 - x * low) + p * (c * a + N * (1 - x * c))
      == a * (low + p * c) + N * (2 * p - 1 - x * (low + p * c))
  {
    if c == 0 {
      assert p * (c * a + N * (1 - x * c)) == N * p;
      assert N * (p - 1 - x * low) + N * p == N * (2 * p - 1 - x * low);
    } else {
      assert p * (c * a + N * (1 - x * c)) == p * a + p * N * (1 - x);
      assert a * (low + p) == a * low + a * p;
      if x == 0 {
        assert N * (p - 1) + p * N == N * (2 * p - 1);
      } else {
        assert N * (2 * p - 1 - (low + p)) == N * (p - 1 - low);
      }
    }
  }

  /** The complemented border adds up to the signed product and a constant. */
  lemma {:induction false} SignedTotal(a: seq<bool>, b: seq<bool>)
    requires a != [] && b != []
    ensures var (N, M) := (Pow2(|a| - 1), Pow2(|b| - 1));
      RowSum(a, b, true, |b|) == Signed(a) * Signed(b) + 2 * (N * M) - N - M
  {
    var (n, m) := (|a| - 1, |b| - 1);
    SignedRows(a, b, m);
    SignedLastRow(a, b);
    Border(Val(a[..n]), Val(b[..m]), Pow2(n), Pow2(m), Bit(a[n]), Bit(b[m]),
           RowSum(a, b, true, m), Val(Row(a, b, true, m)), Signed(a), Signed(b));
  }

  /** The identity behind the complemented border: a and b are A - Nx and B - My. */
  lemma Border(A: int, B: int, N: int, M: int, x: nat, y: nat, above: int, last: int, sa: int,
      sb: int)
    requires x <= 1 && y <= 1
    requires sa == A - N * x && sb == B - M * y
    requires above == A * B + N * (M - 1 - x * B) && last == N - 1 - y * A + N * (x * y)
    ensures above + M * last == sa * sb + 2 * (N * M) - N - M
  {
    if x == 0 && y == 0 {
      assert N * (M - 1) == N * M - N && M * (N - 1) == N * M - M;
    } else if x == 0 {
      assert N * (M - 1) == N * M - N && M * (N - 1 - A) == N * M - M - M * A;
      assert A * (B - M) == A * B - M * A;
    } else if y == 0 {
      assert N * (M - 1 - B) == N * M - N - N * B && M * (N - 1) == N * M - M;
      assert (A - N) * B == A * B - N * B;
    } else {
      assert N * (M - 1 - B) == N * M - N - N * B && M * (N - 1 - A + N) == 2 * (N * M) - M - M * A;
      assert (A - N) * (B - M) == A * B - M * A - N * B + N * M;
    }
  }

  // ---------- the multiplier ----------

  /** The widths for which the carries written before the first row exist. */
  predicate WidthsOk(n: nat, m: nat) { (n == m && n >= 1) || (n != m && n >= 2 && 2 <= m <= n + 1) }

  /** The constant that enters in place of the carries of the first row. */
  function FirstCarries(n: nat, m: nat, sgn: bool): (c: seq<bool>)
    ensures |c| == n
  {
    seq(n, j requires 0 <= j < n => sgn && (if n == m then j == n - 1 else j == n - 2 || j == m - 2))
  }

  function OneBit(n: nat, k: nat): (x: seq<bool>)
    ensures |x| == n
  {
    seq(n, j requires 0 <= j < n => j == k)
  }

  lemma {:induction false} ValZero(x: seq<bool>)
    requires forall j :: 0 <= j < |x| ==> !x[j]
    ensures Val(x) == 0
    decreases |x|
  {
    if x != [] {
      ValZero(x[1..]);
    }
  }

  lemma {:induction false} ValOneBit(n: nat, k: nat)
    requires k < n
    ensures Val(OneBit(n, k)) == Pow2(k)
    decreases n
  {
    if k == 0 {
      ValZero(OneBit(n, k)[1..]);
    } else {
      assert OneBit(n, k)[1..] == OneBit(n - 1, k - 1);
      ValOneBit(n - 1, k - 1);
    }
  }

  /** Disjoint bit vectors add up. */
  lemma {:induction false} ValDisjoint(x: seq<bool>, y: seq<bool>, z: seq<bool>)
    requires |x| == |y| == |z|
    requires forall j :: 0 <= j < |x| ==> z[j] == (x[j] || y[j]) && !(x[j] && y[j])
    ensures Val(z) == Val(x) + Val(y)
    decreases |x|
  {
    if x != [] {
      ValDisjoint(x[1..], y[1..], z[1..]);
    }
  }

  /** Twice the constant is 2^(n-1) + 2^(m-1), also when both widths agree. */
  lemma FirstCarriesVal(n: nat, m: nat, sgn: bool)
    requires WidthsOk(n, m)
    ensures 2 * Val(FirstCarries(n, m, sgn)) == if sgn then Pow2(n - 1) + Pow2(m - 1) else 0
  {
    var c := FirstCarries(n, m, sgn);
    if !sgn {
      ValZero(c);
    } else if n == m {
      assert c == OneBit(n, n - 1);
      ValOneBit(n, n - 1);
    } else {
      ValDisjoint(OneBit(n, n - 2), OneBit(n, m - 2), c);
      ValOneBit(n, n - 2);
      ValOneBit(n, m - 2);
    }
  }

  /** The nested loops that form the partial products. */
  method PartialProducts(a: seq<bool>, b: seq<bool>, sgn: bool) returns (s: seq<seq<bool>>)
    ensures |s| == |b| && forall i :: 0 <= i < |b| ==> s[i] == Row(a, b, sgn, i)
  {
    var (n, m) := (|a|, |b|);
    s := [];
    for i := 0 to m
      invariant |s| == i && forall k :: 0 <= k < i ==> s[k] == Row(a, b, sgn, k)
    {
      var row := seq(n, _ => false);
      for j := 0 to n
        invariant |row| == n && forall k :: 0 <= k < j ==> row[k] == Product(a, b, sgn, i, k)
      {
        if (j == n - 1 || i == m - 1) && !(j == n - 1 && i == m - 1) {
          row := row[j := (a[j] && b[i]) != sgn];
        } else {
          row := row[j := a[j] && b[i]];
        }
      }
      assert row == Row(a, b, sgn, i);
      s := s + [row];
    }
  }

  /** What is finished, plus the open row and its carries, is the sum of the rows so far. */
  ghost predicate Reduced(a: seq<bool>, b: seq<bool>, sgn: bool, v: nat, direct: seq<bool>, row: seq<bool>,
      carries: seq<bool>) {
    && v < |b| && |row| == |carries| == |a| && |direct| == v
    && Val(direct) + Pow2(v) * Val(row) + Pow2(v + 1) * Val(carries)
       == RowSum(a, b, sgn, v + 1) + 2 * Val(FirstCarries(|a|, |b|, sgn))
  }

  lemma ReducedStart(a: seq<bool>, b: seq<bool>, sgn: bool)
    requires b != []
    ensures Reduced(a, b, sgn, 0, [], Row(a, b, sgn, 0), FirstCarries(|a|, |b|, sgn))
  {
    assert RowSum(a, b, sgn, 0) == 0;
  }

  lemma ReducedStep(a: seq<bool>, b: seq<bool>, sgn: bool, v: nat, direct: seq<bool>, row: seq<bool>,
                                       carries: seq<bool>, sum: seq<bool>, carry: seq<bool>)
    requires Reduced(a, b, sgn, v, direct, row, carries) && v + 1 < |b| && a != []
    requires Added(Shifted(row), Row(a, b, sgn, v + 1), carries, sum, carry)
    ensures Reduced(a, b, sgn, v + 1, direct + [row[0]], sum, carry)
  {
    var next := Row(a, b, sgn, v + 1);
    CarrySave(row, next, carries, sum, carry);
    ValSnoc(direct, row[0]);
    Weigh(Pow2(v), Val(row), Val(next), Val(carries), Bit(row[0]), Val(sum), Val(carry));
  }

  lemma Weigh(p: int, row: int, next: int, cin: int, bit: int, sum: int, carry: int)
    requires row + 2 * next + 2 * cin == bit + 2 * sum + 4 * carry
    ensures p * row + (2 * p) * cin + (2 * p) * next == p * bit + (2 * p) * sum + (2 * (2 * p)) * carry
  {
    assert p * (row + 2 * next + 2 * cin) == p * row + (2 * p) * next + (2 * p) * cin;
    assert p * (bit + 2 * sum + 4 * carry) == p * bit + (2 * p) * sum + (2 * (2 * p)) * carry;
  }

  /** The last addition, {sgn, row without its lowest bit} + carries, modulo 2^n. */
  function FinalSum(row: seq<bool>, carries: seq<bool>, sgn: bool): (x: seq<bool>)
    requires row != []
    ensures |x| == |row|
  {
    ToBits(|row|, Val(row[1..] + [sgn]) + Val(carries))
  }

  /** Everything together: the rows, the constants, and what is lost above the top. */
  lemma {:induction false} FinalValue(a: seq<bool>, b: seq<bool>, sgn: bool, direct: seq<bool>, row: seq<bool>,
      carries: seq<bool>)
    requires a != [] && WidthsOk(|a|, |b|) && Reduced(a, b, sgn, |b| - 1, direct, row, carries)
    ensures var (n, m) := (|a|, |b|);
      Val(direct + [row[0]] + FinalSum(row, carries, sgn))
      == (RowSum(a, b, sgn, m) + (if sgn then Pow2(n - 1) + Pow2(m - 1) + Pow2(n + m - 1) else 0)) % Pow2(n + m)
  {
    var (n, m) := (|a|, |b|);
    var low := direct + [row[0]];
    var high := Val(row[1..] + [sgn]) + Val(carries);
    ValConcat(low, FinalSum(row, carries, sgn));
    ToBitsVal(n, high);
    ValBound(low);
    ModJoin(Val(low), high, Pow2(m), Pow2(n));
    Pow2Sum(m, n);
    WholeSum(a, b, sgn, direct, row, carries);
  }

  /** Before the reduction modulo 2^n. */
  lemma {:induction false} WholeSum(a: seq<bool>, b: seq<bool>, sgn: bool, direct: seq<bool>, row: seq<bool>,
      carries: seq<bool>)
    requires a != [] && WidthsOk(|a|, |b|) && Reduced(a, b, sgn, |b| - 1, direct, row, carries)
    ensures var (n, m) := (|a|, |b|);
      Val(direct + [row[0]]) + Pow2(m) * (Val(row[1..] + [sgn]) + Val(carries))
      == RowSum(a, b, sgn, m) + (if sgn then Pow2(n - 1) + Pow2(m - 1) + Pow2(n + m - 1) else 0)
  {
    var (n, m) := (|a|, |b|);
    ValSnoc(row[1..], sgn);
    ValSnoc(direct, row[0]);
    FirstCarriesVal(n, m, sgn);
    Pow2Sum(m, n - 1);
    Regroup(Pow2(m - 1), Bit(row[0]), Val(row[1..]), Val(carries), Bit(sgn), Pow2(n - 1), Val(direct),
            Val(row), Val(direct + [row[0]]), Val(row[1..] + [sgn]) + Val(carries),
            RowSum(a, b, sgn, m) + 2 * Val(FirstCarries(n, m, sgn)));
  }

  lemma Regroup(p: int, bit: int, hi: int, c: int, sgn: nat, N: int, d: int,
                                   row: int, low: int, high: int, total: int)
    requires row == bit + 2 * hi && low == d + p * bit && high == hi + N * sgn + c && sgn <= 1
    requires total == d + p * row + (2 * p) * c
    ensures low + (2 * p) * high == total + if sgn == 1 then (2 * p) * N else 0
  {
    assert p * row == p * bit + (2 * p) * hi;
    if sgn == 1 {
      assert (2 * p) * high == (2 * p) * hi + (2 * p) * N + (2 * p) * c;
    } else {
      assert (2 * p) * high == (2 * p) * hi + (2 * p) * c;
    }
  }

  /** A low part below M and a high part modulo N make a number modulo M * N. */
  lemma ModJoin(low: nat, high: nat, M: nat, N: nat)
    requires low < M && N > 0
    ensures M * N > 0 && (low + M * high) % (M * N) == low + M * (high % N)
  {
    var (q, r) := (high / N, high % N);
    assert high == q * N + r;
    assert M * high == q * (M * N) + M * r by {
      assert M * (q * N + r) == M * (q * N) + M * r;
      assert M * (q * N) == q * (M * N);
    }
    assert M * N > 0 && M * r + M <= M * N by {
      assert M * (r + 1) <= M * N;
    }
    ModUnique(low + M * high, M * N, q, low + M * r);
  }

  /** The row-by-row reduction: the finished low bits, the last row and its carries. */
  method Reduce(a: seq<bool>, b: seq<bool>, sgn: bool, s: seq<seq<bool>>) returns (directSum: seq<bool>,
      row: seq<bool>, carries: seq<bool>)
    requires a != [] && |s| == |b| > 0 && forall i :: 0 <= i < |b| ==> s[i] == Row(a, b, sgn, i)
    requires WidthsOk(|a|, |b|)
    ensures |directSum| == |b| && row != [] && directSum == directSum[..|b| - 1] + [row[0]]
    ensures Reduced(a, b, sgn, |b| - 1, directSum[..|b| - 1], row, carries)
  {
    var m := |b|;
    carries := InitialCarries(|a|, m, sgn);
    row := s[0];
    directSum := [];
    ReducedStart(a, b, sgn);
    for v := 0 to m
      invariant |directSum| == v
      invariant v < m ==> Reduced(a, b, sgn, v, directSum, row, carries)
      invariant v == m ==> Reduced(a, b, sgn, m - 1, directSum[..m - 1], row, carries)
      invariant v == m ==> directSum == directSum[..m - 1] + [row[0]]
    {
      ghost var before := directSum;
      directSum := directSum + [row[0]];
      if v != m - 1 {
        var carry := GenCarry(row, s[v + 1], carries);
        var sum := GenSum(row, s[v + 1], carries);
        AddedRow(row, s[v + 1], carries, sum, carry);
        ReducedStep(a, b, sgn, v, before, row, carries, sum, carry);
        row, carries := sum, carry;
      } else {
        assert directSum[..m - 1] == before;
      }
    }
  }

  method InitialCarries(n: nat, m: nat, sgn: bool) returns (c: seq<bool>)
    requires WidthsOk(n, m)
    ensures c == FirstCarries(n, m, sgn)
  {
    c := seq(n, _ => false);
    if n == m {
      c := c[n - 1 := sgn];
    } else {
      c := c[n - 2 := sgn];
      c := c[m - 2 := sgn];
    }
  }

  /** usMult: for unsigned operands the product, and for signed ones the product modulo 2^(n+m). */
  method UsMult(a: seq<bool>, b: seq<bool>, sgn: bool) returns (p: seq<bool>)
    requires WidthsOk(|a|, |b|)
    ensures |p| == |a| + |b|
    ensures !sgn ==> Val(p) == Val(a) * Val(b)
    ensures sgn ==> Val(p) == (Signed(a) * Signed(b)) % Pow2(|a| + |b|)
  {
    var s := PartialProducts(a, b, sgn);
    var directSum, row, carries := Reduce(a, b, sgn, s);
    var finalSum := FinalSum(row, carries, sgn);
    FinalValue(a, b, sgn, directSum[..|b| - 1], row, carries);
    ProductValue(a, b, sgn);
    p := directSum + finalSum;
  }

  lemma AddedRow(prev: seq<bool>, s: seq<bool>, cin: seq<bool>, sum: seq<bool>, carry: seq<bool>)
    requires prev != [] && |prev| == |s| == |cin| == |sum| == |carry|
    requires forall i :: 0 <= i < |s| ==> sum[i] == Xor3(Above(prev, i), s[i], cin[i])
    requires forall i :: 0 <= i < |s| ==> carry[i] == Maj(Above(prev, i), s[i], cin[i])
    ensures Added(Shifted(prev), s, cin, sum, carry)
  {
    forall i | 0 <= i < |s|
      ensures sum[i] == Xor3(Shifted(prev)[i], s[i], cin[i]) && carry[i] == Maj(Shifted(prev)[i], s[i], cin[i])
    {
      ShiftedAt(prev, i);
    }
  }

  /** What the rows and the constants amount to. */
  lemma ProductValue(a: seq<bool>, b: seq<bool>, sgn: bool)
    requires WidthsOk(|a|, |b|)
    ensures var (n, m) := (|a|, |b|);
      (RowSum(a, b, sgn, m) + (if sgn then Pow2(n - 1) + Pow2(m - 1) + Pow2(n + m - 1) else 0)) % Pow2(n + m)
      == if sgn then (Signed(a) * Signed(b)) % Pow2(n + m) else Val(a) * Val(b)
  {
    var (n, m) := (|a|, |b|);
    if sgn {
      SignedTotal(a, b);
      Pow2Sum(n - 1, m - 1);
      assert n + m - 2 == (n - 1) + (m - 1);
      ModShift(Signed(a) * Signed(b), Pow2(n + m), 1);
    } else {
      assert b[..m] == b;
      UnsignedRows(a, b, m);
      ValBound(a);
      ValBound(b);
      Pow2Sum(n, m);
      Smaller(Val(a), Val(b), Pow2(n), Pow2(m));
    }
  }

  lemma Smaller(x: nat, y: nat, N: nat, M: nat)
    requires x < N && y < M
    ensures 0 < N * M && (x * y) % (N * M) == x * y
  {
    assert x * y <= x * M && x * M < N * M;
    ModUnique(x * y, N * M, 0, x * y);
  }
}
