/** Congruence modulo a positive number, by witness. */
module Modular {

  ghost predicate Cong(a: int, b: int, n: int) {
    exists k :: a - b == n * k
  }

  lemma CongBy(a: int, b: int, n: int, k: int)
    requires a - b == n * k
    ensures Cong(a, b, n)
  {
  }

  lemma CongRefl(a: int, n: int)
    ensures Cong(a, a, n)
  {
    CongBy(a, a, n, 0);
  }

  lemma CongSym(a: int, b: int, n: int)
    requires Cong(a, b, n)
    ensures Cong(b, a, n)
  {
    var k :| a - b == n * k;
    Negates(n, k);
    CongBy(b, a, n, -k);
  }

  lemma Negates(n: int, k: int)
    ensures n * -k == -(n * k)
  {
  }

  lemma CongTrans(a: int, b: int, c: int, n: int)
    requires Cong(a, b, n) && Cong(b, c, n)
    ensures Cong(a, c, n)
  {
    var k :| a - b == n * k;
    var l :| b - c == n * l;
    Adds(n, k, l);
    CongBy(a, c, n, k + l);
  }

  lemma Adds(n: int, k: int, l: int)
    ensures n * (k + l) == n * k + n * l
  {
  }

  lemma CongAdd(a: int, b: int, c: int, d: int, n: int)
    requires Cong(a, b, n) && Cong(c, d, n)
    ensures Cong(a + c, b + d, n)
  {
    var k :| a - b == n * k;
    var l :| c - d == n * l;
    Adds(n, k, l);
    CongBy(a + c, b + d, n, k + l);
  }

  lemma CongScale(a: int, b: int, c: int, n: int)
    requires Cong(a, b, n)
    ensures Cong(a * c, b * c, n)
  {
    var k :| a - b == n * k;
    assert a * c - b * c == (a - b) * c == n * (k * c) by {
      Shuffle(n, k, c);
    }
    CongBy(a * c, b * c, n, k * c);
  }

  lemma Shuffle(n: int, k: int, c: int)
    ensures n * k * c == n * (k * c)
  {
  }

  lemma CongMul(a: int, b: int, c: int, d: int, n: int)
    requires Cong(a, b, n) && Cong(c, d, n)
    ensures Cong(a * c, b * d, n)
  {
    CongScale(a, b, c, n);
    CongScale(c, d, b, n);
    CongTrans(a * c, b * c, b * d, n);
  }

  lemma CongMod(a: int, n: int)
    requires n > 0
    ensures Cong(a % n, a, n) && Cong(a, a % n, n)
  {
    assert a == n * (a / n) + a % n;
    CongBy(a, a % n, n, a / n);
    CongSym(a, a % n, n);
  }

  /** Residues are unique. */
  lemma CongUnique(a: int, b: int, n: int)
    requires Cong(a, b, n) && 0 <= a < n && 0 <= b < n
    ensures a == b
  {
    var k :| a - b == n * k;
    Small(n, k);
  }

  lemma Small(n: int, k: int)
    requires -n < n * k < n
    ensures k == 0
  {
    if k >= 1 {
      AtLeast(n, k - 1);
    } else if k <= -1 {
      AtLeast(n, -k - 1);
      Negates(n, k);
    }
  }

  lemma AtLeast(n: int, k: int)
    requires n > 0 && k >= 0
    ensures n * (k + 1) >= n
  {
  }

  lemma CongIsMod(a: int, b: int, n: int)
    requires n > 0
    ensures Cong(a, b, n) <==> a % n == b % n
  {
    CongMod(a, n);
    CongMod(b, n);
    if Cong(a, b, n) {
      CongTrans(a % n, a, b, n);
      CongTrans(a % n, b, b % n, n);
      CongUnique(a % n, b % n, n);
    } else if a % n == b % n {
      CongTrans(a, a % n, b, n);
    }
  }
}
