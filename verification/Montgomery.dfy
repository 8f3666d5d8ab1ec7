/** Field arithmetic of the on-chain Poseidon: CIOS Montgomery multiplication on four 64-bit
    limbs, for any odd modulus of at most 256 bits. Limbs are integers in `[0, 2^64)`; double
    limbs are proved to fit in 128 bits. */
module Montgomery {
  import opened Wrappers
  import opened Modular
  import opened Euclid

  const B: int := TWO64

  /** A modulus and its negated inverse modulo 2^64. */
  datatype Field = Field(n: seq<int>, inv: int)

  predicate FieldOk(f: Field) {
    && |f.n| == 4 && LimbsOk(f.n) && Value(f.n) > 0
    && 0 <= f.inv < B && (f.n[0] * f.inv + 1) % B == 0
  }

  predicate ElementOk(f: Field, a: seq<int>) {
    |a| == 4 && LimbsOk(a) && Value(a) < Value(f.n)
  }

  // ---- Values of parts --------------------------------------------------------------------

  lemma {:induction false} ValueSplit(x: seq<int>, i: nat)
    requires i <= |x|
    ensures Value(x) == Value(x[..i]) + Radix(i) * Value(x[i..])
  {
    if i == 0 {
      assert x[..0] == [] && x[0..] == x;
    } else {
      ValueSplit(x[1..], i - 1);
      assert x[..i][1..] == x[1..][..i - 1] && x[1..][i - 1..] == x[i..];
      Shuffle(B, Radix(i - 1), Value(x[i..]));
      Adds(B, Value(x[1..][..i - 1]), Radix(i - 1) * Value(x[i..]));
    }
  }

  lemma {:induction false} ValueTake(x: seq<int>, i: nat)
    requires i < |x|
    ensures Value(x[..i + 1]) == Value(x[..i]) + Radix(i) * x[i]
  {
    assert x[..i + 1] == x[..i] + [x[i]];
    ValueSnoc(x[..i], x[i]);
  }

  /** Storing one more limb of a running sum and carrying the rest. */
  lemma CarryStep(v: int, v0: int, w: int, k: int, p: int, c: int, x: int, y: int, lo: int, hi: int)
    requires v + p * c == v0 + w * k && lo + B * hi == x + y * k + c
    ensures (v + p * lo) + B * p * hi == (v0 + p * x) + (w + p * y) * k
  {
    assert p * lo + B * p * hi == p * (lo + B * hi) by {
      Shuffle(B, p, hi);
      Adds(p, lo, B * hi);
      assert B * p * hi == p * (B * hi);
    }
    assert p * (x + y * k + c) == p * x + p * (y * k) + p * c;
    assert (w + p * y) * k == w * k + p * y * k;
    Shuffle(p, y, k);
  }

  lemma ProductBound(y: int, k: int, n: int)
    requires 0 <= y < n && 0 <= k < n
    ensures 0 <= y * k <= (n - 1) * (n - 1)
  {
    Monotone(k, y, n - 1);
    Monotone(n - 1, k, n - 1);
  }

  lemma Monotone(p: int, a: int, b: int)
    requires p >= 0 && a <= b
    ensures p * a <= p * b
  {
  }

  lemma QuotientBelow(x: int, n: int, k: int)
    requires n > 0 && 0 <= x < n * k
    ensures 0 <= x / n < k
  {
    var q := x / n;
    assert x == n * q + x % n;
    if q >= k {
      Monotone(n, k, q);
    }
  }

  /** `x + y * k + c` fits in two limbs. */
  lemma FitsDouble(x: int, y: int, k: int, c: int)
    requires 0 <= x < B && 0 <= y < B && 0 <= k < B && 0 <= c < B
    ensures 0 <= x + y * k + c < B * B && 0 <= (x + y * k + c) / B < B
  {
    ProductBound(y, k, B);
    QuotientBelow(x + y * k + c, B, B);
  }

  lemma Halve(x: int)
    ensures x % B + B * (x / B) == x && 0 <= x % B < B
  {
  }

  /** One limb of `s = x + y * k`, with carry `c` in and `hi` out. */
  lemma RowStep(s: seq<int>, x: seq<int>, y: seq<int>, k: int, i: nat, c: int, hi: int)
    requires i < |s| && i < |x| && i < |y|
    requires Value(s[..i]) + Radix(i) * c == Value(x[..i]) + Value(y[..i]) * k
    requires s[i] + B * hi == x[i] + y[i] * k + c
    ensures Value(s[..i + 1]) + Radix(i + 1) * hi == Value(x[..i + 1]) + Value(y[..i + 1]) * k
  {
    ValueTake(s, i);
    ValueTake(x, i);
    ValueTake(y, i);
    CarryStep(Value(s[..i]), Value(x[..i]), Value(y[..i]), k, Radix(i), c, x[i], y[i], s[i], hi);
  }

  // ---- Rows -------------------------------------------------------------------------------

  /** `t += a * k`, with `t[5]` receiving the last carry. */
  method AddProduct(t: array<int>, a: seq<int>, k: int)
    requires t.Length == 6 && LimbsOk(t[..]) && |a| == 4 && LimbsOk(a) && 0 <= k < B
    modifies t
    ensures LimbsOk(t[..]) && Value(t[..]) == old(Value(t[..5])) + Value(a) * k
  {
    ghost var t0 := t[..];
    var c := 0;
    for j := 0 to 4
      invariant LimbsOk(t[..]) && 0 <= c < B && forall i :: j <= i < 6 ==> t[i] == t0[i]
      invariant Value(t[..j]) + Radix(j) * c == Value(t0[..j]) + Value(a[..j]) * k
    {
      var cs := t[j] + a[j] * k + c;
      FitsDouble(t[j], a[j], k, c);
      Halve(cs);
      ghost var before, carry := t[..j], c;
      t[j], c := cs % B, cs / B;
      assert t[..][..j] == t[..j] == before && t[..][..j + 1] == t[..j + 1];
      RowStep(t[..], t0, a, k, j, carry, c);
    }
    assert a[..4] == a;
    var cs := t[4] + c;
    Halve(cs);
    ghost var low := t[..4];
    t[4], t[5] := cs % B, cs / B;
    LastCarry(t0, t[..], low, 4, cs, c);
  }

  lemma LastCarry(t0: seq<int>, t: seq<int>, low: seq<int>, i: nat, cs: int, c: int)
    requires |t0| == |t| == i + 2 && low == t[..i] && cs == t0[i] + c && t[i] + B * t[i + 1] == cs
    ensures Value(t) - Value(t0[..i + 1]) == Value(low) + Radix(i) * c - Value(t0[..i])
  {
    ValueTake(t, i);
    ValueTake(t, i + 1);
    ValueTake(t0, i);
    assert t[..i + 2] == t;
    TopTwo(Radix(i), B, t[i], t[i + 1], t0[i] + c);
    Adds(Radix(i), t0[i], c);
  }

  lemma TopTwo(p: int, b: int, x: int, y: int, z: int)
    requires x + b * y == z
    ensures p * x + b * p * y == p * z
  {
    Shuffle(p, b, y);
    Adds(p, x, b * y);
  }

  /** The multiplier that clears the low limb. */
  lemma LowLimbCancels(n0: int, inv: int, t0: int, b: int)
    requires b > 0 && (n0 * inv + 1) % b == 0
    ensures (t0 + t0 * inv % b * n0) % b == 0
  {
    var m := t0 * inv % b;
    CongIsMod(n0 * inv + 1, 0, b);
    CongMod(t0 * inv, b);
    CongScale(m, t0 * inv, n0, b);
    CongScale(n0 * inv + 1, 0, t0, b);
    Regroup(n0, inv, t0);
    CongRefl(t0, b);
    CongAdd(t0, t0, m * n0, t0 * inv * n0, b);
    CongTrans(t0 + m * n0, (n0 * inv + 1) * t0, 0, b);
    CongIsMod(t0 + m * n0, 0, b);
  }

  lemma Regroup(x: int, y: int, z: int)
    ensures (x * y + 1) * z == z + z * y * x
  {
  }

  /** Limbs 1 to 3 of `t + m * n`, stored one place lower. */
  method ShiftRow(t: array<int>, n: seq<int>, m: int, first: int) returns (c: int)
    requires t.Length == 6 && LimbsOk(t[..]) && |n| == 4 && LimbsOk(n) && 0 <= m < B
    requires 0 <= first < B && B * first == t[0] + m * n[0]
    modifies t
    ensures LimbsOk(t[..]) && 0 <= c < B && t[4] == old(t[4]) && t[5] == old(t[5])
    ensures B * Value(t[..3]) + Radix(4) * c == old(Value(t[..4])) + Value(n) * m
  {
    ghost var t0 := t[..];
    c := first;
    FirstLimb(t0, n, m, c);
    for j := 1 to 4
      invariant LimbsOk(t[..]) && 0 <= c < B && forall i :: j <= i < 6 ==> t[i] == t0[i]
      invariant B * Value(t[..j - 1]) + Radix(j) * c == Value(t0[..j]) + Value(n[..j]) * m
    {
      var cs := t[j] + m * n[j] + c;
      FitsDouble(t[j], n[j], m, c);
      Halve(cs);
      CarryStep(B * Value(t[..j - 1]), Value(t0[..j]), Value(n[..j]), m, Radix(j), c, t[j], n[j], cs % B, cs / B);
      ValueTake(t0, j);
      ValueTake(n, j);
      ghost var before := t[..j - 1];
      t[j - 1], c := cs % B, cs / B;
      assert t[..j - 1] == before;
      ShiftedTake(t[..], j - 1);
      assert t[..][..j - 1] == t[..j - 1] && t[..][..j] == t[..j];
    }
    assert n[..4] == n;
  }

  /** `t = (t + m * n) >> 64`, for the `m` that clears the low limb. */
  method Reduce(f: Field, t: array<int>) returns (ghost m: int)
    requires FieldOk(f) && t.Length == 6 && LimbsOk(t[..])
    requires Value(t[..]) + Value(f.n) * (B - 1) < 2 * Radix(5)
    modifies t
    ensures LimbsOk(t[..]) && 0 <= m < B
    ensures B * Value(t[..5]) == old(Value(t[..])) + Value(f.n) * m
  {
    ghost var t0 := t[..];
    var mul := t[0] * f.inv % B;
    m := mul;
    var cs := t[0] + mul * f.n[0];
    LowLimbCancels(f.n[0], f.inv, t[0], B);
    FitsDouble(t[0], mul, f.n[0], 0);
    Halve(cs);
    var c := ShiftRow(t, f.n, mul, cs / B);
    Monotone(Value(f.n), m, B - 1);
    StoreTop(t, c, t0, Value(f.n) * m);
  }

  /** The two top limbs of the shifted sum. */
  method StoreTop(t: array<int>, c: int, ghost t0: seq<int>, ghost nm: int)
    requires t.Length == |t0| == 6 && LimbsOk(t[..]) && LimbsOk(t0) && 0 <= c < B
    requires t[4] == t0[4] && t[5] == t0[5]
    requires B * Value(t[..3]) + Radix(4) * c == Value(t0[..4]) + nm && Value(t0) + nm < 2 * Radix(5)
    modifies t
    ensures LimbsOk(t[..]) && B * Value(t[..5]) == Value(t0) + nm
  {
    var cs := t[4] + c;
    ghost var low := t[..3];
    TopLimb(t0, low, 4, c, nm);
    Halve(cs);
    t[3] := cs % B;
    t[4] := (t[5] + cs / B) % B;
    LastShift(t0, t[..], low, 4, cs, c);
  }

  lemma FirstLimb(t: seq<int>, n: seq<int>, m: int, c: int)
    requires |t| == 6 && |n| == 4 && B * c == t[0] + m * n[0]
    ensures B * Value(t[..0]) + Radix(1) * c == Value(t[..1]) + Value(n[..1]) * m
  {
    ValueTake(t, 0);
    ValueTake(n, 0);
    assert Radix(1) == B * Radix(0);
  }

  lemma ShiftedTake(t: seq<int>, i: nat)
    requires i < |t|
    ensures B * Value(t[..i + 1]) == B * Value(t[..i]) + Radix(i + 1) * t[i]
  {
    ValueTake(t, i);
    Adds(B, Value(t[..i]), Radix(i) * t[i]);
    Shuffle(B, Radix(i), t[i]);
  }

  /** The shifted sum fits in five limbs, with a top limb of at most one. */
  lemma TopLimb(t: seq<int>, low: seq<int>, i: nat, c: int, nm: int)
    requires |t| == i + 2 && LimbsOk(t) && LimbsOk(low) && 0 <= c < B
    requires B * Value(low) + Radix(i) * c == Value(t[..i]) + nm && Value(t) + nm < 2 * Radix(i + 1)
    ensures 0 <= t[i + 1] + (t[i] + c) / B < 2
  {
    ValueBound(low);
    ValueTake(t, i);
    ValueTake(t, i + 1);
    assert t[..i + 2] == t;
    var p := Radix(i);
    Shuffle(p, B, t[i + 1]);
    Adds(p, t[i], c);
    Adds(p, t[i] + c, B * t[i + 1]);
    Cancel(p, t[i] + c + B * t[i + 1], 2 * B);
    Halve(t[i] + c);
  }

  lemma Cancel(p: int, x: int, y: int)
    requires p > 0 && p * x < p * y
    ensures x < y
  {
    if x >= y {
      Monotone(p, y, x);
    }
  }

  lemma LastShift(t0: seq<int>, t: seq<int>, low: seq<int>, i: nat, cs: int, c: int)
    requires 0 < i && |t0| == |t| == i + 2 && low == t[..i - 1] && cs == t0[i] + c
    requires t[i - 1] + B * (t[i] - t0[i + 1]) == cs
    ensures B * Value(t[..i + 1]) - Value(t0) == B * Value(low) + Radix(i) * c - Value(t0[..i])
  {
    ShiftedTake(t, i - 1);
    ShiftedTake(t, i);
    ValueTake(t0, i);
    ValueTake(t0, i + 1);
    assert t0[..i + 2] == t0;
    TopTwo(Radix(i), B, t[i - 1], t[i] - t0[i + 1], t0[i] + c);
    Adds(Radix(i), t0[i], c);
    Adds(Radix(i + 1), t[i], -t0[i + 1]);
    Negates(Radix(i + 1), t0[i + 1]);
  }

  // ---- Comparison and subtraction ---------------------------------------------------------

  /** `ge`: from the top limb down, the first difference decides. */
  method Ge(a: seq<int>, b: seq<int>) returns (r: bool)
    requires |a| == |b| == 4 && LimbsOk(a) && LimbsOk(b)
    ensures r <==> Value(a) >= Value(b)
  {
    var i := 4;
    while i > 0
      invariant 0 <= i <= 4 && a[i..] == b[i..]
    {
      i := i - 1;
      if a[i] != b[i] {
        if a[i] > b[i] {
          TopDecides(a, b, i);
        } else {
          TopDecides(b, a, i);
        }
        return a[i] > b[i];
      }
      assert a[i..] == [a[i]] + a[i + 1..] && b[i..] == [b[i]] + b[i + 1..];
    }
    assert a == a[0..] && b == b[0..];
    return true;
  }

  lemma TopDecides(a: seq<int>, b: seq<int>, i: nat)
    requires i < |a| == |b| && LimbsOk(a) && LimbsOk(b) && a[i + 1..] == b[i + 1..] && a[i] > b[i]
    ensures Value(a) > Value(b)
  {
    ValueSplit(a, i + 1);
    ValueSplit(b, i + 1);
    ValueTake(a, i);
    ValueTake(b, i);
    ValueBound(a[..i]);
    ValueBound(b[..i]);
    Monotone(Radix(i), b[i] + 1, a[i]);
    Adds(Radix(i), b[i], 1);
  }

  /** `sub_assign`: subtraction modulo 2^256, with the borrow it drops. */
  method SubAssign(a: array<int>, b: seq<int>) returns (ghost dropped: int)
    requires a.Length == |b| == 4 && LimbsOk(a[..]) && LimbsOk(b)
    modifies a
    ensures LimbsOk(a[..]) && 0 <= dropped <= 1
    ensures Value(a[..]) == old(Value(a[..])) - Value(b) + Radix(4) * dropped
  {
    ghost var a0 := a[..];
    var borrow := 0;
    for i := 0 to 4
      invariant LimbsOk(a[..]) && 0 <= borrow <= 1 && forall j :: i <= j < 4 ==> a[j] == a0[j]
      invariant Value(a[..i]) + Radix(i) * -borrow == Value(a0[..i]) + Value(b[..i]) * -1
    {
      var d := a[i] - b[i] - borrow;
      var lo, up := if d < 0 then d + B else d, if d < 0 then 1 else 0;
      ghost var before, borrowed := a[..i], borrow;
      a[i], borrow := lo, up;
      assert a[..][..i] == a[..i] == before && a[..][..i + 1] == a[..i + 1];
      RowStep(a[..], a0, b, -1, i, -borrowed, -borrow);
    }
    dropped := borrow;
    Negates(Radix(4), borrow);
    assert a[..4] == a[..] && a0[..4] == a0 && b[..4] == b;
  }

  /** The conditional subtraction that ends both operations: the overflow limb or the
      comparison says when to subtract. */
  method ReduceOnce(f: Field, a: array<int>, top: int)
    requires FieldOk(f) && a.Length == 4 && LimbsOk(a[..]) && top >= 0
    requires Value(a[..]) + Radix(4) * top - Value(f.n) < Radix(4)
    modifies a
    ensures LimbsOk(a[..])
    ensures var total := old(Value(a[..])) + Radix(4) * top;
            Value(a[..]) == if total >= Value(f.n) then total - Value(f.n) else total
  {
    ghost var v := Value(a[..]);
    var above := Ge(a[..], f.n);
    ValueBound(a[..]);
    ValueBound(f.n);
    if top != 0 {
      Monotone(Radix(4), 1, top);
    }
    if top != 0 || above {
      ghost var dropped := SubAssign(a, f.n);
      ValueBound(a[..]);
      assert Value(a[..]) - (v + Radix(4) * top - Value(f.n)) == Radix(4) * (dropped - top) by {
        Adds(Radix(4), dropped, -top);
        Negates(Radix(4), top);
      }
      Small(Radix(4), dropped - top);
    }
  }

  // ---- Field addition ---------------------------------------------------------------------

  /** `add`. */
  method Add(f: Field, a: seq<int>, b: seq<int>) returns (r: seq<int>)
    requires FieldOk(f) && ElementOk(f, a) && ElementOk(f, b)
    ensures ElementOk(f, r) && Value(r) == (Value(a) + Value(b)) % Value(f.n)
  {
    var s := new int[4];
    var carry := 0;
    for i := 0 to 4
      invariant 0 <= carry <= 1 && LimbsOk(s[..i])
      invariant Value(s[..i]) + Radix(i) * carry == Value(a[..i]) + Value(b[..i]) * 1
    {
      var sum := a[i] + b[i] + carry;
      Halve(sum);
      ghost var before, carried := s[..i], carry;
      s[i], carry := sum % B, sum / B;
      assert s[..][..i] == s[..i] == before && s[..][..i + 1] == s[..i + 1];
      RowStep(s[..], a, b, 1, i, carried, carry);
    }
    assert s[..4] == s[..] && a[..4] == a && b[..4] == b;
    ValueBound(f.n);
    ValueBound(a);
    ValueBound(b);
    ReduceOnce(f, s, carry);
    r := s[..];
    SumResidue(Value(a) + Value(b), Value(f.n), Value(r));
  }

  lemma SumResidue(x: int, n: int, r: int)
    requires 0 <= x < 2 * n && r == if x >= n then x - n else x
    ensures 0 <= r < n && r == x % n
  {
    CongMod(x, n);
    if x >= n {
      CongBy(r, x, n, -1);
    } else {
      CongRefl(x, n);
    }
    CongTrans(r, x, x % n, n);
    CongUnique(r, x % n, n);
  }

  // ---- Montgomery multiplication ----------------------------------------------------------

  /** `montmul`, for all inputs of four limbs: the result times 2^256 is congruent to the
      product, and it is a residue as soon as the product is below `2^256 * n`, so as soon as
      one factor is. */
  method MontMul(f: Field, a: seq<int>, b: seq<int>) returns (r: seq<int>)
    requires FieldOk(f) && |a| == |b| == 4 && LimbsOk(a) && LimbsOk(b)
    ensures |r| == 4 && LimbsOk(r) && Cong(Value(r) * TWO256, Value(a) * Value(b), Value(f.n))
    ensures Value(a) < Value(f.n) || Value(b) < Value(f.n) ==> Value(r) < Value(f.n)
  {
    var t := new int[6](_ => 0);
    ghost var multiple := 0;
    ValueBound(a);
    ValueBound(b);
    ValueBound(f.n);
    assert Value(t[..5]) == 0 by { ZerosValue(t[..5]); }
    assert b[..0] == [];
    for i := 0 to 4
      invariant LimbsOk(t[..]) && 0 <= multiple < Radix(i)
      invariant 0 <= Value(t[..5]) < Value(a) + Value(f.n)
      invariant Value(t[..5]) * Radix(i) == Value(a) * Value(b[..i]) + Value(f.n) * multiple
    {
      ghost var before := Value(t[..5]);
      ghost var m := MulRow(f, t, a, b[i]);
      ValueTake(b, i);
      RowAdds(Value(a), Value(f.n), before, Value(t[..5]), Value(b[..i]), b[i], B, Radix(i), multiple, m);
      MultipleBound(Radix(i), multiple, m, B);
      multiple := multiple + Radix(i) * m;
    }
    assert b[..4] == b;
    FinalBound(Value(a), Value(b), Value(f.n), Value(t[..5]), Radix(4), multiple);
    r := LowLimbs(f, t);
    RadixIsTwo256();
    FinalCong(Value(a) * Value(b), Value(f.n), Value(t[..5]), Value(r), TWO256, multiple);
  }

  /** One turn of the outer loop: add a row, then clear and drop the low limb. */
  method MulRow(f: Field, t: array<int>, a: seq<int>, k: int) returns (ghost m: int)
    requires FieldOk(f) && t.Length == 6 && LimbsOk(t[..]) && |a| == 4 && LimbsOk(a) && 0 <= k < B
    requires 0 <= Value(t[..5]) < Value(a) + Value(f.n)
    modifies t
    ensures LimbsOk(t[..]) && 0 <= m < B && 0 <= Value(t[..5]) < Value(a) + Value(f.n)
    ensures B * Value(t[..5]) == old(Value(t[..5])) + Value(a) * k + Value(f.n) * m
  {
    ghost var before := Value(t[..5]);
    ValueBound(a);
    ValueBound(f.n);
    AddProduct(t, a, k);
    RowFits(Value(a), Value(f.n), before, k);
    m := Reduce(f, t);
    ValueBound(t[..5]);
    RowBound(Value(a), Value(f.n), before, Value(t[..5]), k, m);
  }

  /** The final conditional subtraction. */
  method LowLimbs(f: Field, t: array<int>) returns (r: seq<int>)
    requires FieldOk(f) && t.Length == 6 && LimbsOk(t[..]) && Value(t[..5]) - Value(f.n) < Radix(4)
    ensures |r| == 4 && LimbsOk(r)
    ensures Value(r) == if Value(t[..5]) >= Value(f.n) then Value(t[..5]) - Value(f.n) else Value(t[..5])
  {
    var s := new int[4](i requires 0 <= i < 4 reads t => t[i]);
    assert s[..] == t[..4];
    ValueTake(t[..], 4);
    assert t[..][..4] == t[..4] && t[..][..5] == t[..5];
    ReduceOnce(f, s, t[4]);
    r := s[..];
  }

  lemma RadixIsTwo256()
    ensures Radix(4) == TWO256
  {
  }

  lemma {:induction false} ZerosValue(x: seq<int>)
    requires forall i :: 0 <= i < |x| ==> x[i] == 0
    ensures Value(x) == 0
  {
    if x != [] {
      ZerosValue(x[1..]);
    }
  }

  lemma RowFits(a: int, n: int, t: int, k: int)
    requires 0 <= a < Radix(4) && 0 < n < Radix(4) && 0 <= t < a + n && 0 <= k < B
    ensures t + a * k + n * (B - 1) < 2 * Radix(5)
  {
    Monotone(a, k, B - 1);
    Adds(a, B, -1);
    Adds(n, B, -1);
    assert a * B <= Radix(5) by { Monotone(B, a, Radix(4)); }
    assert n * B <= Radix(5) by { Monotone(B, n, Radix(4)); }
  }

  lemma RowAdds(a: int, n: int, t: int, t': int, low: int, k: int, b: int, p: int, mult: int, m: int)
    requires b * t' == t + a * k + n * m && t * p == a * low + n * mult
    ensures t' * (b * p) == a * (low + p * k) + n * (mult + p * m)
  {
    assert t' * (b * p) == b * t' * p by {
      Shuffle(t', b, p);
    }
    assert (t + a * k + n * m) * p == t * p + a * k * p + n * m * p by {
      Adds(p, t + a * k, n * m);
      Adds(p, t, a * k);
    }
    Shuffle(a, k, p);
    Shuffle(n, m, p);
    Adds(a, low, p * k);
    Adds(n, mult, p * m);
  }

  lemma MultipleBound(p: int, mult: int, m: int, b: int)
    requires 0 <= mult < p && 0 <= m < b
    ensures 0 <= mult + p * m < b * p
  {
    Monotone(p, m, b - 1);
    Adds(p, b, -1);
    Monotone(p, 0, m);
  }

  lemma RowBound(a: int, n: int, t: int, t': int, k: int, m: int)
    requires 0 <= a && 0 < n && t < a + n && 0 <= k < B && 0 <= m < B
    requires B * t' == t + a * k + n * m
    ensures t' < a + n
  {
    Monotone(a, k, B - 1);
    Monotone(n, m, B - 1);
    Adds(a, B, -1);
    Adds(n, B, -1);
    Adds(B, a, n);
    Cancel(B, t', a + n);
  }

  lemma FinalBound(a: int, b: int, n: int, t: int, p: int, mult: int)
    requires 0 <= a < p && 0 <= b < p && 0 < n && 0 <= mult < p && t * p == a * b + n * mult
    ensures t - n < p && (a < n || b < n ==> t - n < n)
  {
    Monotone(n, mult, p);
    Adds(p, t, -n);
    Negates(p, n);
    assert p * (t - n) <= a * b;
    ProductBelow(a, b, p, p);
    Cancel(p, t - n, p);
    if a < n {
      ProductBelow(b, a, p, n);
      Cancel(p, t - n, n);
    } else if b < n {
      ProductBelow(a, b, p, n);
      Cancel(p, t - n, n);
    }
  }

  lemma ProductBelow(a: int, b: int, p: int, n: int)
    requires 0 <= a < p && 0 <= b < n
    ensures a * b < p * n
  {
    Monotone(b, a, p);
    Monotone(p, b, n - 1);
    Adds(p, n, -1);
  }

  lemma FinalCong(ab: int, n: int, t: int, r: int, p: int, mult: int)
    requires t * p == ab + n * mult && (r == t || r == t - n)
    ensures Cong(r * p, ab, n)
  {
    CongBy(t * p, ab, n, mult);
    if r == t {
      CongRefl(t, n);
    } else {
      CongBy(r, t, n, -1);
    }
    CongScale(r, t, p, n);
    CongTrans(r * p, t * p, ab, n);
  }
}
