/** The constants generator's number theory: modular inverse by extended Euclid, the negated
    inverse that Montgomery reduction needs, and limb splitting. */
module Euclid {
  import opened Wrappers
  import opened Modular

  const TWO256: int := TWO64 * TWO64 * TWO64 * TWO64

  function Gcd(a: nat, b: nat): (g: nat)
    decreases b
  {
    if b == 0 then a else Gcd(b, a % b)
  }

  ghost predicate Divides(d: int, n: int) {
    exists k :: n == d * k
  }

  /** `modinv`: for every `a` and positive `m`, a residue with `a * x` congruent to `gcd(a, m)`;
      when that is 1, the inverse. */
  method ModInv(a: int, m: int) returns (x: int)
    requires m > 0
    ensures 0 <= x < m && Cong(a * x, Gcd(a % m, m), m)
  {
    var oldR: nat, r: nat := a % m, m;
    var oldS, s := 1, 0;
    ghost var oldT, t := 0, 1;
    while r != 0
      invariant Bezout(oldR, oldS, oldT, a % m, m) && Bezout(r, s, t, a % m, m)
      invariant Gcd(oldR, r) == Gcd(a % m, m)
      decreases r
    {
      var q := oldR / r;
      Remainder(oldR, r);
      Eliminate(oldR, r, oldS, s, oldT, t, a % m, m, q);
      oldR, r := r, oldR - q * r;
      oldS, s := s, oldS - q * s;
      oldT, t := t, oldT - q * t;
    }
    x := oldS % m;
    BezoutInverts(a, m, oldR, oldS, oldT);
  }

  ghost predicate Bezout(r: int, s: int, t: int, a: int, m: int) {
    r == s * a + t * m
  }

  lemma Remainder(x: nat, y: nat)
    requires y > 0
    ensures x - x / y * y == x % y < y
  {
  }

  lemma BezoutInverts(a: int, m: int, r: int, s: int, t: int)
    requires m > 0 && Bezout(r, s, t, a % m, m)
    ensures Cong(a * (s % m), r, m)
  {
    CongMod(a, m);
    CongMod(s, m);
    CongMul(a, a % m, s % m, s, m);
    assert a % m * s - r == m * -t by {
      Negates(m, t);
    }
    CongBy(a % m * s, r, m, -t);
    CongTrans(a * (s % m), a % m * s, r, m);
  }

  lemma Eliminate(x: int, y: int, p: int, q: int, u: int, v: int, a: int, m: int, k: int)
    requires Bezout(x, p, u, a, m) && Bezout(y, q, v, a, m)
    ensures Bezout(x - k * y, p - k * q, u - k * v, a, m)
  {
    assert k * y == k * (q * a) + k * (v * m) by {
      Adds(k, q * a, v * m);
    }
    Shuffle(k, q, a);
    Shuffle(k, v, m);
    assert (p - k * q) * a == p * a - k * q * a;
    assert (u - k * v) * m == u * m - k * v * m;
  }

  lemma {:induction false} GcdDivides(a: nat, b: nat)
    requires a > 0 || b > 0
    ensures Gcd(a, b) > 0 && Divides(Gcd(a, b), a) && Divides(Gcd(a, b), b)
    decreases b
  {
    var g := Gcd(a, b);
    if b == 0 {
      assert a == g * 1 && b == g * 0;
    } else {
      GcdDivides(b, a % b);
      var k :| b == g * k;
      var l :| a % b == g * l;
      assert a == b * (a / b) + a % b;
      assert a == g * (k * (a / b) + l) by {
        Shuffle(g, k, a / b);
        Adds(g, k * (a / b), l);
      }
    }
  }

  /** Only coprime numbers have inverses: with `ModInv`, an inverse exists exactly when the
      greatest common divisor is 1. */
  lemma InverseNeedsCoprime(a: int, m: int, x: int)
    requires m > 1 && Cong(a * x, 1, m)
    ensures Gcd(a % m, m) == 1
  {
    var g := Gcd(a % m, m);
    GcdDivides(a % m, m);
    CongMod(a, m);
    CongScale(a % m, a, x, m);
    CongTrans(a % m * x, a * x, 1, m);
    var k :| a % m == g * k;
    var l :| m == g * l;
    var j :| a % m * x - 1 == m * j;
    assert g * (k * x - l * j) == 1 by {
      Shuffle(g, k, x);
      Shuffle(g, l, j);
      Adds(g, k * x, -(l * j));
      Negates(g, l * j);
    }
    UnitDivisor(g, k * x - l * j);
  }

  lemma UnitDivisor(g: nat, k: int)
    requires g * k == 1
    ensures g == 1
  {
    if g > 1 {
      if k >= 1 {
        AtLeast(g, k - 1);
      } else {
        NotPositive(g, k);
      }
    }
  }

  lemma NotPositive(g: nat, k: int)
    requires k <= 0
    ensures g * k <= 0
  {
  }

  // ---- INV --------------------------------------------------------------------------------

  lemma {:induction false} OddDivisorOfPow2(d: int, k: int, n: nat)
    requires d > 0 && d % 2 == 1 && d * k == Pow2(n)
    ensures d == 1
  {
    if n == 0 {
      UnitDivisor(d, k);
    } else {
      assert k % 2 == 0 by {
        if k % 2 == 1 {
          OddTimesOdd(d, k);
        }
      }
      assert d * (k / 2) == Pow2(n - 1) by {
        Shuffle(d, 2, k / 2);
      }
      OddDivisorOfPow2(d, k / 2, n - 1);
    }
  }

  lemma OddTimesOdd(a: int, b: int)
    requires a % 2 == 1 && b % 2 == 1
    ensures (a * b) % 2 == 1
  {
    var i, j := a / 2, b / 2;
    assert a == 2 * i + 1 && b == 2 * j + 1;
    Expand(i, j);
    OddForm(a * b, 2 * (i * j) + i + j);
  }

  lemma OddForm(x: int, k: int)
    requires x == 2 * k + 1
    ensures x % 2 == 1
  {
  }

  lemma Expand(i: int, j: int)
    ensures (2 * i + 1) * (2 * j + 1) == 2 * (2 * (i * j) + i + j) + 1
  {
  }

  lemma OddFactor(d: int, k: int)
    requires (d * k) % 2 == 1
    ensures d % 2 == 1
  {
    if d % 2 == 0 {
      Shuffle(2, d / 2, k);
    }
  }

  lemma OddCoprimeToTwo64(r: int)
    requires r % 2 == 1
    ensures Gcd(r % TWO64, TWO64) == 1
  {
    var g := Gcd(r % TWO64, TWO64);
    GcdDivides(r % TWO64, TWO64);
    OddResidue(r);
    OddDivisorOfTwo64(r % TWO64, g);
  }

  lemma OddResidue(r: int)
    requires r % 2 == 1
    ensures r % TWO64 % 2 == 1
  {
    var e := 0x8000_0000_0000_0000 * (r / TWO64);
    assert r % TWO64 == r - 2 * e;
    OddMinusEven(r, e);
  }

  lemma OddMinusEven(r: int, e: int)
    requires r % 2 == 1
    ensures (r - 2 * e) % 2 == 1
  {
  }

  lemma OddDivisorOfTwo64(odd: int, g: int)
    requires odd % 2 == 1 && g > 0 && Divides(g, odd) && Divides(g, TWO64)
    ensures g == 1
  {
    var k :| odd == g * k;
    var l :| TWO64 == g * l;
    OddFactor(g, k);
    Pow2Is64();
    OddDivisorOfPow2(g, l, 64);
  }

  lemma {:induction false} Pow2Is64()
    ensures Pow2(64) == TWO64
  {
    Pow2Is16();
    Squared(16, 0x1_0000, 0x1_0000_0000);
    Squared(32, 0x1_0000_0000, TWO64);
  }

  lemma {:induction false} Pow2Is16()
    ensures Pow2(16) == 0x1_0000
  {
    assert Pow2(4) == 16;
    Squared(4, 16, 256);
    Squared(8, 256, 0x1_0000);
  }

  lemma {:induction false} Squared(n: nat, p: int, q: int)
    requires Pow2(n) == p && q == p * p
    ensures Pow2(2 * n) == q
  {
    Pow2Adds(n);
  }

  lemma {:induction false} Pow2Product(m: nat, n: nat)
    ensures Pow2(m + n) == Pow2(m) * Pow2(n)
  {
    if m > 0 {
      Pow2Product(m - 1, n);
      Shuffle(2, Pow2(m - 1), Pow2(n));
    }
  }

  lemma {:induction false} Pow2Adds(n: nat)
    ensures Pow2(2 * n) == Pow2(n) * Pow2(n)
  {
    Pow2Product(n, n);
    assert n + n == 2 * n;
  }

  /** `INV`: for every odd modulus, the negated inverse modulo 2^64. */
  method NegInv64(r: int) returns (inv: int)
    requires r % 2 == 1
    ensures 0 <= inv < TWO64 && (inv * r + 1) % TWO64 == 0
  {
    var x := ModInv(r % TWO64, TWO64);
    inv := (TWO64 - x) % TWO64;
    OddCoprimeToTwo64(r);
    ResidueTwice(r);
    NegatedInverse(r, x, inv);
  }

  lemma {:induction false} ResidueTwice(r: int)
    ensures r % TWO64 % TWO64 == r % TWO64
  {
  }

  lemma NegatedInverse(r: int, x: int, inv: int)
    requires Cong(r % TWO64 * x, 1, TWO64) && inv == (TWO64 - x) % TWO64
    ensures (inv * r + 1) % TWO64 == 0
  {
    var n := TWO64;
    CongMod(n - x, n);
    CongMod(r, n);
    CongMul(inv, n - x, r, r % n, n);
    var k :| r % n * x - 1 == n * k;
    assert (n - x) * (r % n) - (-1) == n * (r % n - k) by {
      assert (n - x) * (r % n) == n * (r % n) - r % n * x;
      Adds(n, r % n, -k);
      Negates(n, k);
    }
    CongBy((n - x) * (r % n), -1, n, r % n - k);
    CongTrans(inv * r, (n - x) * (r % n), -1, n);
    CongRefl(1, n);
    CongAdd(inv * r, -1, 1, 1, n);
    CongIsMod(inv * r + 1, 0, n);
  }

  // ---- Limbs ------------------------------------------------------------------------------

  /** The number with these little-endian 64-bit limbs. */
  function Value(limbs: seq<int>): int {
    if limbs == [] then 0 else limbs[0] + TWO64 * Value(limbs[1..])
  }

  predicate LimbsOk(limbs: seq<int>) {
    forall i :: 0 <= i < |limbs| ==> 0 <= limbs[i] < TWO64
  }

  function Radix(n: nat): (p: int)
    ensures p > 0
  {
    if n == 0 then 1 else TWO64 * Radix(n - 1)
  }

  lemma {:induction false} ValueSnoc(limbs: seq<int>, x: int)
    ensures Value(limbs + [x]) == Value(limbs) + Radix(|limbs|) * x
  {
    if limbs == [] {
      assert [x][1..] == [];
    } else {
      assert (limbs + [x])[1..] == limbs[1..] + [x];
      ValueSnoc(limbs[1..], x);
      Shuffle(TWO64, Radix(|limbs| - 1), x);
      Adds(TWO64, Value(limbs[1..]), Radix(|limbs| - 1) * x);
    }
  }

  lemma {:induction false} ValueBound(limbs: seq<int>)
    requires LimbsOk(limbs)
    ensures 0 <= Value(limbs) < Radix(|limbs|)
  {
    if limbs != [] {
      ValueBound(limbs[1..]);
    }
  }

  /** `limbsLE`: four limbs, which recombine to the number modulo 2^256. */
  method LimbsLE(v: int) returns (limbs: seq<int>)
    ensures |limbs| == 4 && LimbsOk(limbs) && Value(limbs) == v % TWO256
  {
    limbs := [];
    var n := v;
    for i := 0 to 4
      invariant |limbs| == i && LimbsOk(limbs) && v == Value(limbs) + Radix(i) * n
    {
      ValueSnoc(limbs, n % TWO64);
      assert n == n % TWO64 + TWO64 * (n / TWO64);
      Adds(Radix(i), n % TWO64, TWO64 * (n / TWO64));
      Shuffle(Radix(i), TWO64, n / TWO64);
      limbs := limbs + [n % TWO64];
      n := n / TWO64;
    }
    ValueBound(limbs);
    assert Radix(4) == TWO256;
    CongBy(v, Value(limbs), TWO256, n);
    CongIsMod(v, Value(limbs), TWO256);
  }
}
