/** The byte interface of the on-chain Poseidon: 32 bytes, big endian. */
module FieldBytes {
  import opened Wrappers
  import opened Modular
  import opened Euclid
  import opened Montgomery
  import opened Poseidon

  predicate BytesOk(bytes: seq<int>) {
    forall i :: 0 <= i < |bytes| ==> 0 <= bytes[i] < 256
  }

  /** The number that big-endian bytes spell. */
  function Big(bytes: seq<int>): int {
    if bytes == [] then 0 else Big(bytes[..|bytes| - 1]) * 256 + bytes[|bytes| - 1]
  }

  function Pow256(n: nat): (p: int)
    ensures p > 0
  {
    if n == 0 then 1 else 256 * Pow256(n - 1)
  }

  lemma {:induction false} BigAppend(a: seq<int>, b: seq<int>)
    ensures Big(a + b) == Big(a) * Pow256(|b|) + Big(b)
    decreases |b|
  {
    if b == [] {
      assert a + b == a;
    } else {
      var n := |b| - 1;
      assert (a + b)[..|a + b| - 1] == a + b[..n];
      BigAppend(a, b[..n]);
      Shuffle(Big(a), Pow256(n), 256);
    }
  }

  lemma {:induction false} BigBound(b: seq<int>)
    requires BytesOk(b)
    ensures 0 <= Big(b) < Pow256(|b|)
    decreases |b|
  {
    if b != [] {
      BigBound(b[..|b| - 1]);
    }
  }

  lemma EightBytes()
    ensures Pow256(8) == TWO64
  {
    assert Pow256(4) == 0x1_0000_0000;
  }

  /** `u64::to_be_bytes`. */
  function Spell(v: int, n: nat): (b: seq<int>)
    ensures |b| == n && BytesOk(b)
    decreases n
  {
    if n == 0 then [] else Spell(v / 256, n - 1) + [v % 256]
  }

  lemma {:induction false} SpellBig(v: int, n: nat)
    requires 0 <= v < Pow256(n)
    ensures Big(Spell(v, n)) == v
    decreases n
  {
    if n > 0 {
      SpellBig(v / 256, n - 1);
      assert Spell(v, n)[..n - 1] == Spell(v / 256, n - 1);
    }
  }

  /** The limbs of 32 bytes. */
  method Decode(b: seq<int>) returns (limbs: seq<int>)
    requires |b| == 32 && BytesOk(b)
    ensures |limbs| == 4 && LimbsOk(limbs) && Value(limbs) == Big(b)
  {
    limbs := [];
    for i := 0 to 4
      invariant |limbs| == i && LimbsOk(limbs) && Value(limbs) == Big(b[..8 * i])
    {
      var word := b[8 * i..8 * i + 8];
      NextWord(b[..8 * i], word, limbs);
      assert b[..8 * i + 8] == b[..8 * i] + word;
      limbs := [Big(word)] + limbs;
    }
    assert b[..32] == b;
  }

  lemma NextWord(before: seq<int>, word: seq<int>, limbs: seq<int>)
    requires |word| == 8 && BytesOk(word) && Value(limbs) == Big(before)
    ensures 0 <= Big(word) < TWO64 && Value([Big(word)] + limbs) == Big(before + word)
  {
    EightBytes();
    BigBound(word);
    BigAppend(before, word);
    PutLow(Big(word), limbs);
  }

  /** `from_be_bytes`: the number, reduced by repeated subtraction. */
  method FromBeBytes(f: Field, b: seq<int>) returns (r: seq<int>)
    requires FieldOk(f) && |b| == 32 && BytesOk(b)
    ensures ElementOk(f, r) && Value(r) == Big(b) % Value(f.n)
  {
    var limbs := Decode(b);
    r := SubtractOut(f, limbs);
    ValueBound(r);
    ResidueOf(Value(r), Big(b), Value(f.n));
  }

  lemma ResidueOf(r: int, x: int, n: int)
    requires 0 <= r < n && Cong(r, x, n)
    ensures r == x % n
  {
    CongMod(x, n);
    CongTrans(r, x, x % n, n);
    CongUnique(r, x % n, n);
  }

  /** The reduction loop of `from_be_bytes`. */
  method SubtractOut(f: Field, limbs: seq<int>) returns (r: seq<int>)
    requires FieldOk(f) && |limbs| == 4 && LimbsOk(limbs)
    ensures ElementOk(f, r) && Cong(Value(r), Value(limbs), Value(f.n))
  {
    var a := new int[4](i requires 0 <= i < 4 => limbs[i]);
    assert a[..] == limbs;
    ghost var n := Value(f.n);
    CongRefl(Value(limbs), n);
    var above := Ge(a[..], f.n);
    while above
      invariant LimbsOk(a[..]) && (above <==> Value(a[..]) >= n) && Cong(Value(a[..]), Value(limbs), n)
      decreases Value(a[..])
    {
      ValueBound(a[..]);
      ValueBound(f.n);
      ghost var before := Value(a[..]);
      ReduceOnce(f, a, 0);
      CongBy(Value(a[..]), before, n, -1);
      CongTrans(Value(a[..]), before, Value(limbs), n);
      above := Ge(a[..], f.n);
    }
    r := a[..];
  }

  lemma PutLow(x: int, limbs: seq<int>)
    ensures Value([x] + limbs) == Value(limbs) * TWO64 + x
  {
    assert ([x] + limbs)[1..] == limbs;
  }

  /** `to_be_bytes`: the same number, in 32 bytes. */
  method ToBeBytes(limbs: seq<int>) returns (b: seq<int>)
    requires |limbs| == 4 && LimbsOk(limbs)
    ensures |b| == 32 && BytesOk(b) && Big(b) == Value(limbs)
  {
    b := [];
    for i := 0 to 4
      invariant |b| == 8 * i && BytesOk(b) && Big(b) == Value(limbs[4 - i..])
    {
      var word := EncodeWord(limbs[3 - i]);
      NextLimb(b, word, limbs[4 - i..]);
      assert limbs[3 - i..] == [limbs[3 - i]] + limbs[4 - i..];
      b := b + word;
    }
    assert limbs[0..] == limbs;
  }

  method EncodeWord(x: int) returns (word: seq<int>)
    requires 0 <= x < TWO64
    ensures |word| == 8 && BytesOk(word) && Big(word) == x
  {
    word := Spell(x, 8);
    EightBytes();
    SpellBig(x, 8);
  }

  lemma NextLimb(b: seq<int>, word: seq<int>, above: seq<int>)
    requires |word| == 8 && Big(b) == Value(above)
    ensures Big(b + word) == Value([Big(word)] + above)
  {
    EightBytes();
    BigAppend(b, word);
    PutLow(Big(word), above);
  }

  /** Decoding what was encoded gives a field element back. */
  method RoundTrip(f: Field, r: seq<int>) returns (back: seq<int>)
    requires FieldOk(f) && ElementOk(f, r)
    ensures ElementOk(f, back) && Value(back) == Value(r)
  {
    var b := ToBeBytes(r);
    back := FromBeBytes(f, b);
    ValueBound(r);
    SmallResidue(Value(r), Value(f.n));
  }

  /** The inputs as residues. */
  ghost function Residues(inputs: seq<seq<int>>, n: int): (v: seq<int>)
    requires n > 0
    ensures |v| == |inputs| && forall i :: 0 <= i < |v| ==> v[i] == Big(inputs[i]) % n
  {
    seq(|inputs|, i requires 0 <= i < |inputs| => Big(inputs[i]) % n)
  }

  /** `poseidon2` and `poseidon3`, bytes to bytes: the first word of the integer permutation of zero
      and the input residues, modulo the field order. */
  method HashBytes(
    f: Field, r2: seq<int>, c: seq<seq<int>>, m: seq<seq<seq<int>>>, partial: nat, ghost p: Params,
    inputs: seq<seq<int>>)
    returns (out: seq<int>)
    requires FieldOk(f) && RadixSquared(f, r2) && TablesRepresent(f, c, m, p) && partial == p.partial
    requires p.width == 1 + |inputs| && forall i :: 0 <= i < |inputs| ==> |inputs[i]| == 32 && BytesOk(inputs[i])
    ensures |out| == 32 && BytesOk(out)
    ensures Big(out) == Rounds(p, [0] + Residues(inputs, Value(f.n)), FULL + p.partial)[0] % Value(f.n)
  {
    var words: seq<seq<int>> := [];
    for i := 0 to |inputs|
      invariant |words| == i
      invariant forall j :: 0 <= j < i ==> ElementOk(f, words[j]) && Value(words[j]) == Big(inputs[j]) % Value(f.n)
    {
      var limbs := FromBeBytes(f, inputs[i]);
      words := words + [limbs];
    }
    assert Values(words) == Residues(inputs, Value(f.n));
    var r := Hash(f, r2, c, m, partial, p, words);
    out := ToBeBytes(r);
  }
}
