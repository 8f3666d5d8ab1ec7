/** The on-chain Poseidon hash: it computes in Montgomery form, on limbs, the permutation that
    is defined on plain integers modulo the field order. */
module Poseidon {
  import opened Wrappers
  import opened Modular
  import opened Euclid
  import opened Montgomery

  /** `m` is the Montgomery form of `x`. */
  ghost predicate Represents(f: Field, m: seq<int>, x: int) {
    exists lifted :: lifted == x * TWO256 && ElementOk(f, m) && Cong(Value(m), lifted, Value(f.n))
  }

  // ---- Cancelling the radix ---------------------------------------------------------------

  lemma CancelFactor(n: int, inv: int, w: int, b: int, x: int, k: int)
    requires b > 0 && n * inv + 1 == b * w && x * b == n * k
    ensures Cong(x, 0, n)
  {
    var l := w * k - x * inv;
    assert k == b * l by {
      assert (n * inv + 1) * k == n * k * inv + k;
      assert b * w * k == x * b * inv + k;
      Shuffle(b, w, k);
      Shuffle(b, x, inv);
      Adds(b, w * k, -(x * inv));
      Negates(b, x * inv);
    }
    assert b * (x - n * l) == 0 by {
      Shuffle(n, b, l);
      Shuffle(b, n, l);
      Adds(b, x, -(n * l));
      Negates(b, n * l);
    }
    NoZeroDivisor(b, x - n * l);
    CongBy(x, 0, n, l);
  }

  lemma NoZeroDivisor(b: int, x: int)
    requires b > 0 && b * x == 0
    ensures x == 0
  {
  }

  lemma InverseOfValue(f: Field)
    requires FieldOk(f)
    ensures exists w :: Value(f.n) * f.inv + 1 == B * w
  {
    var v := Value(f.n[1..]);
    assert Value(f.n) == f.n[0] + B * v;
    CongIsMod(f.n[0] * f.inv + 1, 0, B);
    var u :| f.n[0] * f.inv + 1 - 0 == B * u;
    var w := u + v * f.inv;
    assert Value(f.n) * f.inv + 1 == B * w by {
      DistributeTail(f.n[0], B, v, f.inv, u);
    }
  }

  lemma DistributeTail(n0: int, b: int, v: int, inv: int, u: int)
    requires n0 * inv + 1 == b * u
    ensures (n0 + b * v) * inv + 1 == b * (u + v * inv)
  {
    assert (n0 + b * v) * inv == n0 * inv + b * v * inv;
    Shuffle(b, v, inv);
    Adds(b, u, v * inv);
  }

  lemma CancelLimb(f: Field, x: int)
    requires FieldOk(f) && Cong(x * B, 0, Value(f.n))
    ensures Cong(x, 0, Value(f.n))
  {
    InverseOfValue(f);
    var w :| Value(f.n) * f.inv + 1 == B * w;
    var k :| x * B - 0 == Value(f.n) * k;
    CancelFactor(Value(f.n), f.inv, w, B, x, k);
  }

  /** 2^256 can be cancelled modulo every field order. */
  lemma CancelRadix(f: Field, x: int, y: int)
    requires FieldOk(f) && Cong(x * TWO256, y * TWO256, Value(f.n))
    ensures Cong(x, y, Value(f.n))
  {
    var n := Value(f.n);
    var k :| x * TWO256 - y * TWO256 == n * k;
    var z := x - y;
    assert z * B * B * B * B == n * k;
    CongBy(z * B * B * B * B, 0, n, k);
    CancelLimb(f, z * B * B * B);
    CancelLimb(f, z * B * B);
    CancelLimb(f, z * B);
    CancelLimb(f, z);
    var l :| z - 0 == n * l;
    CongBy(x, y, n, l);
  }

  // ---- Operations on represented values ---------------------------------------------------

  /** `montmul` of represented values: their product. */
  method Multiply(f: Field, a: seq<int>, b: seq<int>, ghost x: int, ghost y: int) returns (r: seq<int>)
    requires FieldOk(f) && Represents(f, a, x) && Represents(f, b, y)
    ensures Represents(f, r, x * y)
  {
    r := MontMul(f, a, b);
    ProductLifted(Value(a), Value(b), Value(r), x, y, TWO256, Value(f.n));
    CancelRadix(f, Value(r), x * y * TWO256);
  }

  lemma ProductLifted(a: int, b: int, r: int, x: int, y: int, p: int, n: int)
    requires Cong(a, x * p, n) && Cong(b, y * p, n) && Cong(r * p, a * b, n)
    ensures Cong(r * p, x * y * p * p, n)
  {
    CongMul(a, x * p, b, y * p, n);
    Interleave(x, y, p);
    CongTrans(r * p, a * b, x * y * p * p, n);
  }

  lemma Interleave(x: int, y: int, p: int)
    ensures x * p * (y * p) == x * y * p * p
  {
    assert p * (y * p) == y * p * p;
    Shuffle(x, p, y * p);
    Shuffle(x, y * p, p);
    Shuffle(x, y, p);
  }

  lemma AddRepresents(f: Field, a: seq<int>, b: seq<int>, r: seq<int>, x: int, y: int)
    requires FieldOk(f) && Represents(f, a, x) && Represents(f, b, y) && ElementOk(f, r)
    requires Value(r) == (Value(a) + Value(b)) % Value(f.n)
    ensures Represents(f, r, x + y)
  {
    SumLifted(Value(a), Value(b), x, y, TWO256, Value(f.n));
  }

  lemma SumLifted(a: int, b: int, x: int, y: int, p: int, n: int)
    requires n > 0 && Cong(a, x * p, n) && Cong(b, y * p, n)
    ensures Cong((a + b) % n, (x + y) * p, n)
  {
    CongMod(a + b, n);
    CongAdd(a, x * p, b, y * p, n);
    Adds(p, x, y);
    CongTrans((a + b) % n, a + b, (x + y) * p, n);
  }

  lemma ZeroRepresents(f: Field)
    requires FieldOk(f)
    ensures Represents(f, [0, 0, 0, 0], 0)
  {
    ZerosValue([0, 0, 0, 0]);
    CongRefl(0, Value(f.n));
  }

  ghost predicate RadixSquared(f: Field, r2: seq<int>) {
    ElementOk(f, r2) && Cong(Value(r2), TWO256 * TWO256, Value(f.n))
  }

  /** `to_mont`, for every 256-bit input, also one above the field order. */
  method ToMont(f: Field, r2: seq<int>, a: seq<int>) returns (r: seq<int>)
    requires FieldOk(f) && RadixSquared(f, r2) && |a| == 4 && LimbsOk(a)
    ensures Represents(f, r, Value(a))
  {
    r := MontMul(f, a, r2);
    Lifted(Value(r), Value(a), Value(r2), TWO256, Value(f.n));
    CancelRadix(f, Value(r), Value(a) * TWO256);
  }

  lemma Lifted(r: int, a: int, r2: int, p: int, n: int)
    requires Cong(r * p, a * r2, n) && Cong(r2, p * p, n)
    ensures Cong(r * p, a * p * p, n)
  {
    CongScale(r2, p * p, a, n);
    assert a * r2 == r2 * a;
    Shuffle(a, p, p);
    assert a * (p * p) == p * p * a;
    CongTrans(r * p, a * r2, a * p * p, n);
  }

  /** `from_mont`: the residue that the Montgomery form represents. */
  method FromMont(f: Field, m: seq<int>, ghost x: int) returns (r: seq<int>)
    requires FieldOk(f) && Represents(f, m, x)
    ensures ElementOk(f, r) && Value(r) == x % Value(f.n)
  {
    r := MontMul(f, m, [1, 0, 0, 0]);
    ghost var n := Value(f.n);
    assert Value([1, 0, 0, 0]) == 1 by { ZerosValue([1, 0, 0, 0][1..]); }
    CongTrans(Value(r) * TWO256, Value(m), x * TWO256, n);
    CancelRadix(f, Value(r), x);
    ValueBound(r);
    CongMod(x, n);
    CongTrans(Value(r), x, x % n, n);
    CongUnique(Value(r), x % n, n);
  }

  function Fifth(x: int): int {
    var x2 := x * x;
    var x4 := x2 * x2;
    x4 * x
  }

  /** `pow5`, on a word of the state. */
  method Pow5(f: Field, state: array<seq<int>>, i: nat, ghost x: int)
    requires FieldOk(f) && i < state.Length && Represents(f, state[i], x)
    modifies state
    ensures Represents(f, state[i], Fifth(x))
    ensures forall j :: 0 <= j < state.Length && j != i ==> state[j] == old(state[j])
  {
    var a := state[i];
    var a2 := Multiply(f, a, a, x, x);
    var a4 := Multiply(f, a2, a2, x * x, x * x);
    ghost var x2 := x * x;
    var a5 := Multiply(f, a4, a, x2 * x2, x);
    state[i] := a5;
  }

  // ---- The permutation on integers --------------------------------------------------------

  /** Round constants, mixing matrix and number of partial rounds of a width. */
  datatype Params = Params(width: nat, c: seq<int>, m: seq<seq<int>>, partial: nat)

  const FULL: nat := 8

  predicate ParamsOk(p: Params) {
    && p.width > 0 && |p.c| == (FULL + p.partial) * p.width
    && |p.m| == p.width && forall i :: 0 <= i < p.width ==> |p.m[i]| == p.width
  }

  predicate IsFull(r: nat, partial: nat) {
    r < FULL / 2 || r >= FULL / 2 + partial
  }

  function Dot(row: seq<int>, s: seq<int>): int
    requires |row| == |s|
  {
    if row == [] then 0
    else var k := |row| - 1; Dot(row[..k], s[..k]) + row[k] * s[k]
  }

  lemma ConstantIndex(p: Params, r: nat, i: nat)
    requires ParamsOk(p) && r < FULL + p.partial && i < p.width
    ensures 0 <= r * p.width + i < |p.c|
  {
    Monotone(p.width, r + 1, FULL + p.partial);
    Monotone(p.width, 0, r);
    Adds(p.width, r, 1);
  }

  ghost function Ark(p: Params, s: seq<int>, r: nat): (z: seq<int>)
    requires ParamsOk(p) && |s| == p.width && r < FULL + p.partial
  {
    seq(p.width, i requires 0 <= i < p.width => ConstantIndex(p, r, i); s[i] + p.c[r * p.width + i])
  }

  ghost function Sbox(s: seq<int>, full: bool): seq<int> {
    seq(|s|, i requires 0 <= i < |s| => if full || i == 0 then Fifth(s[i]) else s[i])
  }

  ghost function Mix(p: Params, s: seq<int>): seq<int>
    requires ParamsOk(p) && |s| == p.width
  {
    seq(p.width, i requires 0 <= i < p.width => Dot(p.m[i], s))
  }

  ghost function Round(p: Params, s: seq<int>, r: nat): seq<int>
    requires ParamsOk(p) && |s| == p.width && r < FULL + p.partial
  {
    Mix(p, Sbox(Ark(p, s, r), IsFull(r, p.partial)))
  }

  ghost function Rounds(p: Params, s: seq<int>, r: nat): (z: seq<int>)
    requires ParamsOk(p) && |s| == p.width && r <= FULL + p.partial
    ensures |z| == p.width
  {
    if r == 0 then s else Round(p, Rounds(p, s, r - 1), r - 1)
  }

  // ---- The permutation in Montgomery form -------------------------------------------------

  ghost predicate AllRepresent(f: Field, ms: seq<seq<int>>, xs: seq<int>) {
    |ms| == |xs| && forall i :: 0 <= i < |xs| ==> Represents(f, ms[i], xs[i])
  }

  ghost predicate TablesRepresent(f: Field, c: seq<seq<int>>, m: seq<seq<seq<int>>>, p: Params) {
    && ParamsOk(p) && AllRepresent(f, c, p.c)
    && |m| == p.width && forall i :: 0 <= i < p.width ==> AllRepresent(f, m[i], p.m[i])
  }

  method AddConstants(f: Field, state: array<seq<int>>, c: seq<seq<int>>, r: nat, ghost p: Params, ghost xs: seq<int>)
    requires FieldOk(f) && ParamsOk(p) && AllRepresent(f, c, p.c) && r < FULL + p.partial
    requires state.Length == p.width && AllRepresent(f, state[..], xs)
    modifies state
    ensures AllRepresent(f, state[..], Ark(p, xs, r))
  {
    for i := 0 to state.Length
      invariant forall j :: 0 <= j < i ==> Represents(f, state[j], Ark(p, xs, r)[j])
      invariant forall j :: i <= j < state.Length ==> Represents(f, state[j], xs[j])
    {
      ConstantIndex(p, r, i);
      ghost var k := r * p.width + i;
      var sum := Add(f, state[i], c[r * state.Length + i]);
      AddRepresents(f, state[i], c[k], sum, xs[i], p.c[k]);
      state[i] := sum;
    }
  }

  method ApplySbox(f: Field, state: array<seq<int>>, full: bool, ghost xs: seq<int>)
    requires FieldOk(f) && state.Length > 0 && AllRepresent(f, state[..], xs)
    modifies state
    ensures AllRepresent(f, state[..], Sbox(xs, full))
  {
    if full {
      for i := 0 to state.Length
        invariant forall j :: 0 <= j < i ==> Represents(f, state[j], Sbox(xs, true)[j])
        invariant forall j :: i <= j < state.Length ==> Represents(f, state[j], xs[j])
      {
        Pow5(f, state, i, xs[i]);
      }
    } else {
      Pow5(f, state, 0, xs[0]);
    }
  }

  method MixRow(f: Field, state: array<seq<int>>, row: seq<seq<int>>, ghost xrow: seq<int>, ghost xs: seq<int>)
    returns (acc: seq<int>)
    requires FieldOk(f) && AllRepresent(f, state[..], xs) && AllRepresent(f, row, xrow) && |xrow| == |xs|
    ensures Represents(f, acc, Dot(xrow, xs))
  {
    acc := [0, 0, 0, 0];
    ZeroRepresents(f);
    for j := 0 to state.Length
      invariant Represents(f, acc, Dot(xrow[..j], xs[..j]))
    {
      var product := Multiply(f, row[j], state[j], xrow[j], xs[j]);
      var sum := Add(f, acc, product);
      AddRepresents(f, acc, product, sum, Dot(xrow[..j], xs[..j]), xrow[j] * xs[j]);
      acc := sum;
      DotSnoc(xrow, xs, j);
    }
    assert xrow[..|xs|] == xrow && xs[..|xs|] == xs;
  }

  lemma DotSnoc(row: seq<int>, s: seq<int>, j: nat)
    requires j < |row| == |s|
    ensures Dot(row[..j + 1], s[..j + 1]) == Dot(row[..j], s[..j]) + row[j] * s[j]
  {
    assert row[..j + 1][..j] == row[..j] && s[..j + 1][..j] == s[..j];
  }

  method MixLayer(f: Field, state: array<seq<int>>, m: seq<seq<seq<int>>>, ghost p: Params, ghost xs: seq<int>)
    requires FieldOk(f) && ParamsOk(p) && state.Length == p.width && AllRepresent(f, state[..], xs)
    requires |m| == p.width && forall i :: 0 <= i < p.width ==> AllRepresent(f, m[i], p.m[i])
    modifies state
    ensures AllRepresent(f, state[..], Mix(p, xs))
  {
    var ns: seq<seq<int>> := [];
    for i := 0 to state.Length
      invariant state[..] == old(state[..]) && |ns| == i
      invariant forall j :: 0 <= j < i ==> Represents(f, ns[j], Mix(p, xs)[j])
    {
      var acc := MixRow(f, state, m[i], p.m[i], xs);
      ns := ns + [acc];
    }
    for i := 0 to state.Length
      invariant forall j :: 0 <= j < i ==> state[j] == ns[j]
    {
      state[i] := ns[i];
    }
  }

  /** `permute`: the Hades permutation of the represented values. */
  method Permute(
    f: Field, state: array<seq<int>>, c: seq<seq<int>>, m: seq<seq<seq<int>>>, partial: nat, ghost p: Params,
    ghost xs: seq<int>)
    requires FieldOk(f) && TablesRepresent(f, c, m, p) && partial == p.partial
    requires state.Length == p.width && AllRepresent(f, state[..], xs)
    modifies state
    ensures AllRepresent(f, state[..], Rounds(p, xs, FULL + p.partial))
  {
    for r := 0 to FULL + partial
      invariant AllRepresent(f, state[..], Rounds(p, xs, r))
    {
      PermuteRound(f, state, c, m, r, partial, p, Rounds(p, xs, r));
    }
  }

  method PermuteRound(
    f: Field, state: array<seq<int>>, c: seq<seq<int>>, m: seq<seq<seq<int>>>, r: nat, partial: nat, ghost p: Params,
    ghost xs: seq<int>)
    requires FieldOk(f) && TablesRepresent(f, c, m, p) && partial == p.partial && r < FULL + partial
    requires state.Length == p.width && AllRepresent(f, state[..], xs)
    modifies state
    ensures AllRepresent(f, state[..], Round(p, xs, r))
  {
    AddConstants(f, state, c, r, p, xs);
    ApplySbox(f, state, IsFull(r, partial), Ark(p, xs, r));
    MixLayer(f, state, m, p, Sbox(Ark(p, xs, r), IsFull(r, partial)));
  }

  ghost function Values(inputs: seq<seq<int>>): (v: seq<int>)
    ensures |v| == |inputs| && forall i :: 0 <= i < |v| ==> v[i] == Value(inputs[i])
  {
    seq(|inputs|, i requires 0 <= i < |inputs| => Value(inputs[i]))
  }

  /** `poseidon2` and `poseidon3`: the first word of the permutation of zero and the inputs,
      modulo the field order, for every 256-bit input. */
  method Hash(
    f: Field, r2: seq<int>, c: seq<seq<int>>, m: seq<seq<seq<int>>>, partial: nat, ghost p: Params,
    inputs: seq<seq<int>>)
    returns (r: seq<int>)
    requires FieldOk(f) && RadixSquared(f, r2) && TablesRepresent(f, c, m, p) && partial == p.partial
    requires p.width == 1 + |inputs| && forall i :: 0 <= i < |inputs| ==> |inputs[i]| == 4 && LimbsOk(inputs[i])
    ensures ElementOk(f, r)
    ensures Value(r) == Rounds(p, [0] + Values(inputs), FULL + p.partial)[0] % Value(f.n)
  {
    var state := new seq<int>[1 + |inputs|](_ => [0, 0, 0, 0]);
    ghost var xs := [0] + Values(inputs);
    ZeroRepresents(f);
    for i := 0 to |inputs|
      invariant forall j :: 0 <= j < i + 1 ==> Represents(f, state[j], xs[j])
    {
      state[i + 1] := ToMont(f, r2, inputs[i]);
    }
    Permute(f, state, c, m, partial, p, xs);
    r := FromMont(f, state[0], Rounds(p, xs, FULL + p.partial)[0]);
  }

  // ---- The constants generator ------------------------------------------------------------

  /** `fr(toMont(x))`: what the generator writes for any integer represents it. */
  method EmitElement(f: Field, x: int) returns (limbs: seq<int>)
    requires FieldOk(f)
    ensures Represents(f, limbs, x)
  {
    ValueBound(f.n);
    RadixIsTwo256();
    var n := Value(f.n);
    var v := x % n * (TWO256 % n) % n;
    limbs := LimbsLE(v);
    SmallResidue(v, TWO256);
    GeneratorLifts(x, TWO256, n);
  }

  lemma SmallResidue(v: int, m: int)
    requires 0 <= v < m
    ensures v % m == v
  {
  }

  lemma GeneratorLifts(x: int, p: int, n: int)
    requires n > 0
    ensures Cong(x % n * (p % n) % n, x * p, n)
  {
    CongMod(x, n);
    CongMod(p, n);
    CongMul(x % n, x, p % n, p, n);
    CongMod(x % n * (p % n), n);
    CongTrans(x % n * (p % n) % n, x % n * (p % n), x * p, n);
  }

  /** `emitC`: a table of constants. */
  method EmitTable(f: Field, xs: seq<int>) returns (table: seq<seq<int>>)
    requires FieldOk(f)
    ensures AllRepresent(f, table, xs)
  {
    table := [];
    for i := 0 to |xs|
      invariant |table| == i && forall j :: 0 <= j < i ==> Represents(f, table[j], xs[j])
    {
      var limbs := EmitElement(f, xs[i]);
      table := table + [limbs];
    }
  }

  // ---- BN254 ------------------------------------------------------------------------------

  const BN254: Field := Field(
    [0x43e1f593f0000001, 0x2833e84879b97091, 0xb85045b68181585d, 0x30644e72e131a029],
    0xc2e1f593efffffff)

  const R2: seq<int> := [0x1bb8e645ae216da7, 0x53fe3ab1e35c59e3, 0x8c49833d53bb8085, 0x0216d0b17f4e44a5]

  const ORDER: int := 21888242871839275222246405745257275088548364400416034343698204186575808495617

  lemma FourLimbs(x: seq<int>)
    requires |x| == 4
    ensures Value(x) == x[0] + TWO64 * (x[1] + TWO64 * (x[2] + TWO64 * x[3]))
  {
    assert x[1..][1..] == x[2..] && x[2..][1..] == x[3..] && x[3..][1..] == [];
    assert Value([]) == 0;
    assert Value(x[3..]) == x[3] + TWO64 * Value(x[3..][1..]);
    assert Value(x[2..]) == x[2] + TWO64 * Value(x[2..][1..]);
    assert Value(x[1..]) == x[1] + TWO64 * Value(x[1..][1..]);
  }

  /** The generated modulus, its `INV` and its `R2` fit together. */
  lemma Bn254Constants()
    ensures FieldOk(BN254) && Value(BN254.n) == ORDER && RadixSquared(BN254, R2)
  {
    FourLimbs(BN254.n);
    FourLimbs(R2);
    CongBy(Value(R2), TWO256 * TWO256, ORDER, -612557527273816073910311476275045157067432104571610153771051915293407781491289);
  }
}
