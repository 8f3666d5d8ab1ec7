/** The byte strings that relayers sign. Signatures cover the hash of a preimage, so what
    matters is which fields a preimage pins down. Strings are their UTF-8 bytes. */
module Messages {
  import opened Wrappers

  type Byte = b: int | 0 <= b < 256
  type Bytes = seq<Byte>

  const TWO32 := 0x1_0000_0000

  function Ascii(s: string): (r: Bytes)
    ensures |r| == |s|
  {
    seq(|s|, i requires 0 <= i < |s| => s[i] as int % 256)
  }

  const BID_DOMAIN := Ascii("opaque-relayer-bid-v2")
  const OUTCOME_DOMAIN := Ascii("opaque-relayer-outcome-v1")
  const HEARTBEAT_DOMAIN := Ascii("opaque-relayer-heartbeat-v1")

  /** `setUint32(0, n >>> 0)`: the low 32 bits, big endian. */
  function Uint32BE(n: int): (r: Bytes)
    ensures |r| == 4
  {
    [n / 256 / 256 / 256 % 256, n / 256 / 256 % 256, n / 256 % 256, n % 256]
  }

  function Uint64BE(n: int): (r: Bytes)
    ensures |r| == 8
  {
    Uint32BE(n / TWO32) + Uint32BE(n)
  }

  /** `setUint16` of the length, which keeps its low 16 bits, then the bytes. */
  function LengthPrefixed(s: Bytes): (r: Bytes)
    ensures |r| == 2 + |s|
  {
    [|s| / 256 % 256, |s| % 256] + s
  }

  datatype Bid = Bid(jobId: Bytes, x25519Pk: Bytes, chain: int, endpoint: Bytes, freeStake: int)
  datatype Outcome = Outcome(jobId: Bytes, operator: Bytes, completed: bool, timestamp: int)
  datatype Heartbeat = Heartbeat(operator: Bytes, timestamp: int)

  /** `None` where the length assertion on a fixed-size field throws. */
  function BidPreimage(b: Bid): (r: Option<Bytes>)
    ensures r.Some? <==> |b.jobId| == 32 && |b.x25519Pk| == 32
  {
    if |b.jobId| != 32 || |b.x25519Pk| != 32 then None
    else
      Some(BID_DOMAIN + b.jobId + b.x25519Pk + Uint32BE(b.chain) + LengthPrefixed(b.endpoint) + Uint64BE(b.freeStake))
  }

  function OutcomePreimage(o: Outcome): (r: Option<Bytes>)
    ensures r.Some? <==> |o.jobId| == 32
  {
    if |o.jobId| != 32 then None
    else Some(OUTCOME_DOMAIN + o.jobId + o.operator + [if o.completed then 1 else 0] + Uint64BE(o.timestamp))
  }

  function HeartbeatPreimage(h: Heartbeat): Bytes {
    HEARTBEAT_DOMAIN + h.operator + Uint64BE(h.timestamp)
  }

  // ---- What the integer encoders keep -----------------------------------------------------

  function Value(r: Bytes): int
    requires |r| == 4
  {
    256 * (256 * (256 * r[0] as int + r[1] as int) + r[2] as int) + r[3] as int
  }

  /** Four bytes encode exactly the number modulo 2^32. */
  lemma Uint32Value(n: int)
    ensures Value(Uint32BE(n)) == n % TWO32
  {
    var q4 := n / 256 / 256 / 256 / 256;
    assert n == TWO32 * q4 + Value(Uint32BE(n));
  }

  lemma ValueUnique(a: Bytes, b: Bytes)
    requires |a| == |b| == 4 && Value(a) == Value(b)
    ensures a == b
  {
    LastDigit(256 * (256 * a[0] as int + a[1] as int) + a[2] as int, a[3],
        256 * (256 * b[0] as int + b[1] as int) + b[2] as int, b[3]);
    LastDigit(256 * a[0] as int + a[1] as int, a[2], 256 * b[0] as int + b[1] as int, b[2]);
    LastDigit(a[0], a[1], b[0], b[1]);
  }

  lemma LastDigit(x: int, b: Byte, y: int, c: Byte)
    requires 256 * x + b as int == 256 * y + c as int
    ensures x == y && b == c
  {
  }

  lemma Uint32Keeps(m: int, n: int)
    ensures Uint32BE(m) == Uint32BE(n) <==> m % TWO32 == n % TWO32
  {
    Uint32Value(m);
    Uint32Value(n);
    if m % TWO32 == n % TWO32 {
      ValueUnique(Uint32BE(m), Uint32BE(n));
    }
  }

  lemma Uint64Keeps(m: int, n: int)
    ensures Uint64BE(m) == Uint64BE(n) <==> m % TWO64 == n % TWO64
  {
    Halves(m);
    Halves(n);
    Uint32Keeps(m, n);
    Uint32Keeps(m / TWO32, n / TWO32);
    if Uint64BE(m) == Uint64BE(n) {
      Split(Uint32BE(m / TWO32), Uint32BE(m), Uint32BE(n / TWO32), Uint32BE(n));
    }
  }

  lemma Halves(n: int)
    ensures n % TWO64 == TWO32 * (n / TWO32 % TWO32) + n % TWO32
  {
    var hi := n / TWO32;
    assert n == TWO64 * (hi / TWO32) + (TWO32 * (hi % TWO32) + n % TWO32);
  }

  lemma Split(a: Bytes, b: Bytes, c: Bytes, d: Bytes)
    requires a + b == c + d && (|a| == |c| || |b| == |d|)
    ensures a == c && b == d
  {
    assert |a + b| == |c + d|;
    assert a == (a + b)[..|a|] && c == (c + d)[..|c|];
    assert b == (a + b)[|a|..] && d == (c + d)[|c|..];
  }

  // ---- What each preimage pins down -------------------------------------------------------

  predicate SameBid(a: Bid, b: Bid) {
    && a.jobId == b.jobId && a.x25519Pk == b.x25519Pk && a.endpoint == b.endpoint
    && a.chain % TWO32 == b.chain % TWO32 && a.freeStake % TWO64 == b.freeStake % TWO64
  }

  /** Two bids have one preimage exactly when every field agrees, chain and stake up to their
      widths; the endpoint is pinned down at any length. */
  lemma BidPreimagePins(a: Bid, b: Bid)
    requires BidPreimage(a).Some? && BidPreimage(b).Some?
    ensures BidPreimage(a) == BidPreimage(b) <==> SameBid(a, b)
  {
    Uint32Keeps(a.chain, b.chain);
    Uint64Keeps(a.freeStake, b.freeStake);
    if BidPreimage(a) == BidPreimage(b) {
      var (p1, p2, p3, p4) := BidParts(a);
      var (q1, q2, q3, q4) := BidParts(b);
      Split(p4 + LengthPrefixed(a.endpoint), Uint64BE(a.freeStake), q4 + LengthPrefixed(b.endpoint),
          Uint64BE(b.freeStake));
      Split(p4, LengthPrefixed(a.endpoint), q4, LengthPrefixed(b.endpoint));
      Split(p3, Uint32BE(a.chain), q3, Uint32BE(b.chain));
      Split(p2, a.x25519Pk, q2, b.x25519Pk);
      Split(p1, a.jobId, q1, b.jobId);
      Split([|a.endpoint| / 256 % 256, |a.endpoint| % 256], a.endpoint,
          [|b.endpoint| / 256 % 256, |b.endpoint| % 256], b.endpoint);
    }
  }

  function BidParts(b: Bid): (Bytes, Bytes, Bytes, Bytes) {
    var p2 := BID_DOMAIN + b.jobId;
    var p3 := p2 + b.x25519Pk;
    (BID_DOMAIN, p2, p3, p3 + Uint32BE(b.chain))
  }

  predicate SameOutcome(a: Outcome, b: Outcome) {
    && a.jobId == b.jobId && a.operator == b.operator && a.completed == b.completed
    && a.timestamp % TWO64 == b.timestamp % TWO64
  }

  /** The operator carries no length prefix; the fixed sizes around it still pin it down. */
  lemma OutcomePreimagePins(a: Outcome, b: Outcome)
    requires OutcomePreimage(a).Some? && OutcomePreimage(b).Some?
    ensures OutcomePreimage(a) == OutcomePreimage(b) <==> SameOutcome(a, b)
  {
    Uint64Keeps(a.timestamp, b.timestamp);
    if OutcomePreimage(a) == OutcomePreimage(b) {
      var r: Bytes, s: Bytes := [if a.completed then 1 else 0], [if b.completed then 1 else 0];
      var d := OUTCOME_DOMAIN;
      Split(d + a.jobId + a.operator + r, Uint64BE(a.timestamp), d + b.jobId + b.operator + s, Uint64BE(b.timestamp));
      Split(d + a.jobId + a.operator, r, d + b.jobId + b.operator, s);
      Split(d + a.jobId, a.operator, d + b.jobId, b.operator);
      Split(d, a.jobId, d, b.jobId);
      assert r[0] == s[0];
    }
  }

  lemma HeartbeatPreimagePins(a: Heartbeat, b: Heartbeat)
    ensures HeartbeatPreimage(a) == HeartbeatPreimage(b)
       <==> a.operator == b.operator && a.timestamp % TWO64 == b.timestamp % TWO64
  {
    Uint64Keeps(a.timestamp, b.timestamp);
    if HeartbeatPreimage(a) == HeartbeatPreimage(b) {
      var d := HEARTBEAT_DOMAIN;
      Split(d + a.operator, Uint64BE(a.timestamp), d + b.operator, Uint64BE(b.timestamp));
      Split(d, a.operator, d, b.operator);
    }
  }

  /** A signature over one kind of message never verifies for another. */
  lemma DomainsSeparate(b: Bid, o: Outcome, h: Heartbeat)
    requires BidPreimage(b).Some? && OutcomePreimage(o).Some?
    ensures BidPreimage(b).value != OutcomePreimage(o).value
    ensures BidPreimage(b).value != HeartbeatPreimage(h)
    ensures OutcomePreimage(o).value != HeartbeatPreimage(h)
  {
    assert BidPreimage(b).value[15] == BID_DOMAIN[15] == 'b' as int;
    assert OutcomePreimage(o).value[15] == OUTCOME_DOMAIN[15] == 'o' as int;
    assert HeartbeatPreimage(h)[15] == HEARTBEAT_DOMAIN[15] == 'h' as int;
  }
}
