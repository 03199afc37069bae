/** The wire format of the switch controller's messages. A failed `assert` is a `None`. */
module PaxosMessage {
  import opened Wrappers

  type Byte = b: int | 0 <= b < 0x100
  type Bytes = seq<Byte>

  const UINT32_MAX := 0xFFFF_FFFF

  const ACCEPT := 0x7A01
  const LEARN := 0x7A02

  predicate IsU32(n: int) {
    0 <= n <= UINT32_MAX
  }

  /** `pack("!I", n)` */
  function Pack32(n: int): Bytes
    requires IsU32(n)
  {
    var (hi, lo) := (n / 0x1_0000, n % 0x1_0000);
    [hi / 0x100, hi % 0x100, lo / 0x100, lo % 0x100]
  }

  function Unpack16(high: int, low: int): int {
    high * 0x100 + low
  }

  /** `unpack("!I", b)` */
  function Unpack32(b: Bytes): (n: int)
    requires |b| == 4
    ensures IsU32(n)
  {
    Unpack16(b[0], b[1]) * 0x1_0000 + Unpack16(b[2], b[3])
  }

  function PackJoin(nId: int, mac: Bytes): Option<Bytes> {
    if IsU32(nId) && |mac| == 6 then Some(Pack32(nId) + mac) else None
  }

  function UnpackJoin(payload: Bytes): Option<(int, Bytes)> {
    if |payload| == 6 + 4 then Some((Unpack32(payload[0..4]), payload[4..])) else None
  }

  function PackAccept(crnd: int, seqno: int, cval: Bytes): Option<Bytes> {
    if IsU32(crnd) && IsU32(seqno) then Some(Pack32(crnd) + Pack32(seqno) + cval) else None
  }

  function UnpackAccept(payload: Bytes): Option<(int, int, Bytes)> {
    if |payload| >= 8 then Some((Unpack32(payload[0..4]), Unpack32(payload[4..8]), payload[8..])) else None
  }

  function PackLearn(n: int, seqno: int): Option<Bytes> {
    if IsU32(n) && IsU32(seqno) then Some(Pack32(n) + Pack32(seqno)) else None
  }

  /** Trailing bytes are let through. */
  function UnpackLearn(payload: Bytes): Option<(int, int)> {
    if |payload| >= 8 then Some((Unpack32(payload[0..4]), Unpack32(payload[4..8]))) else None
  }

  function PackClient(payload: Bytes): Bytes {
    Pack32(0) + Pack32(0) + payload
  }

  function UnpackClient(payload: Bytes): Option<Bytes> {
    if |payload| >= 8 then Some(payload[8..]) else None
  }

  // ---- Round trips ----

  lemma Unpack32Pack32(n: int)
    requires IsU32(n)
    ensures Unpack32(Pack32(n)) == n
  {
    var (hi, lo) := (n / 0x1_0000, n % 0x1_0000);
    assert Unpack16(hi / 0x100, hi % 0x100) == hi;
    assert Unpack16(lo / 0x100, lo % 0x100) == lo;
  }

  lemma Pack32Unpack32(b: Bytes)
    requires |b| == 4
    ensures Pack32(Unpack32(b)) == b
  {
    var n, hi, lo := Unpack32(b), Unpack16(b[0], b[1]), Unpack16(b[2], b[3]);
    assert n / 0x1_0000 == hi && n % 0x1_0000 == lo;
    assert hi / 0x100 == b[0] && hi % 0x100 == b[1];
    assert lo / 0x100 == b[2] && lo % 0x100 == b[3];
  }

  lemma HeaderParts(a: Bytes, b: Bytes, rest: Bytes)
    requires |a| == 4 && |b| == 4
    ensures var p := a + b + rest; p[0..4] == a && p[4..8] == b && p[8..] == rest
  {
    var p := a + b + rest;
    assert p[0..4] == a;
    assert p[4..8] == b;
    assert p[8..] == rest;
  }

  lemma HeaderSplit(p: Bytes)
    requires |p| >= 8
    ensures p == p[0..4] + p[4..8] + p[8..]
  {
  }

  /** Packing and unpacking JOIN are inverse on all ids, addresses and payloads either accepts. */
  lemma JoinRoundTrip(nId: int, mac: Bytes, payload: Bytes)
    ensures PackJoin(nId, mac) == Some(payload) <==> UnpackJoin(payload) == Some((nId, mac))
  {
    if PackJoin(nId, mac) == Some(payload) {
      assert payload[0..4] == Pack32(nId) && payload[4..] == mac;
      Unpack32Pack32(nId);
    }
    if UnpackJoin(payload) == Some((nId, mac)) {
      Pack32Unpack32(payload[0..4]);
      assert payload == payload[0..4] + payload[4..];
    }
  }

  /** So are packing and unpacking ACCEPT. */
  lemma AcceptRoundTrip(n: int, s: int, v: Bytes, payload: Bytes)
    ensures PackAccept(n, s, v) == Some(payload) <==> UnpackAccept(payload) == Some((n, s, v))
  {
    if PackAccept(n, s, v) == Some(payload) {
      HeaderParts(Pack32(n), Pack32(s), v);
      Unpack32Pack32(n);
      Unpack32Pack32(s);
    }
    if UnpackAccept(payload) == Some((n, s, v)) {
      Pack32Unpack32(payload[0..4]);
      Pack32Unpack32(payload[4..8]);
      HeaderSplit(payload);
    }
  }

  /** LEARN tolerates trailing bytes: exactly the untruncated payloads fail to come back. */
  lemma LearnRoundTrip(n: int, s: int, payload: Bytes)
    ensures PackLearn(n, s) == Some(payload) <==> UnpackLearn(payload) == Some((n, s)) && |payload| == 8
  {
    if PackLearn(n, s) == Some(payload) {
      assert payload == Pack32(n) + Pack32(s) + [];
      HeaderParts(Pack32(n), Pack32(s), []);
      Unpack32Pack32(n);
      Unpack32Pack32(s);
    }
    if UnpackLearn(payload) == Some((n, s)) && |payload| == 8 {
      Pack32Unpack32(payload[0..4]);
      Pack32Unpack32(payload[4..8]);
      assert payload == payload[0..4] + payload[4..8];
    }
  }

  // ---- The bytes ----

  /** The number that bytes in network order spell. */
  function BigEndian(b: Bytes): int {
    if b == [] then 0 else BigEndian(b[..|b| - 1]) * 0x100 + b[|b| - 1]
  }

  lemma Unpack32BigEndian(b: Bytes)
    requires |b| == 4
    ensures Unpack32(b) == BigEndian(b)
  {
    var (b3, b2, b1) := (b[..3], b[..2], b[..1]);
    assert b3[..2] == b2 && b2[..1] == b1 && b1[..0] == [];
    assert BigEndian(b1) == b[0] && BigEndian(b2) == BigEndian(b1) * 0x100 + b[1];
    assert BigEndian(b3) == BigEndian(b2) * 0x100 + b[2];
  }

  /** An ACCEPT is the round, the number, each four bytes in network order, and the value. */
  lemma AcceptBytes(n: int, s: int, v: Bytes, p: Bytes)
    ensures PackAccept(n, s, v) == Some(p) <==>
            |p| >= 8 && BigEndian(p[0..4]) == n && BigEndian(p[4..8]) == s && p[8..] == v
  {
    AcceptRoundTrip(n, s, v, p);
    if |p| >= 8 {
      Unpack32BigEndian(p[0..4]);
      Unpack32BigEndian(p[4..8]);
    }
  }

  /** A LEARN is the round and the number. */
  lemma LearnBytes(n: int, s: int, p: Bytes)
    ensures PackLearn(n, s) == Some(p) <==> |p| == 8 && BigEndian(p[0..4]) == n && BigEndian(p[4..8]) == s
  {
    LearnRoundTrip(n, s, p);
    if |p| >= 8 {
      Unpack32BigEndian(p[0..4]);
      Unpack32BigEndian(p[4..8]);
    }
  }

  /** A JOIN is the id in four bytes and the six of the address. */
  lemma JoinBytes(nId: int, mac: Bytes, p: Bytes)
    ensures PackJoin(nId, mac) == Some(p) <==> |p| == 10 && BigEndian(p[0..4]) == nId && p[4..] == mac
  {
    JoinRoundTrip(nId, mac, p);
    if |p| == 10 {
      Unpack32BigEndian(p[0..4]);
    }
  }

  /** A client frame survives being wrapped, whatever its bytes, and the wrapping is the zero header. */
  lemma ClientRoundTrip(frame: Bytes, payload: Bytes)
    ensures PackClient(frame) == payload <==>
            UnpackClient(payload) == Some(frame) && payload[..8] == [0, 0, 0, 0, 0, 0, 0, 0]
  {
    assert Pack32(0) == [0, 0, 0, 0];
    if PackClient(frame) == payload {
      HeaderParts(Pack32(0), Pack32(0), frame);
    }
    if UnpackClient(payload) == Some(frame) && payload[..8] == [0, 0, 0, 0, 0, 0, 0, 0] {
      assert payload == payload[..8] + payload[8..];
    }
  }

  /** The client frame is the value field of the ACCEPT it is renumbered into. */
  lemma ClientToAccept(frame: Bytes, n: int, s: int)
    requires IsU32(n) && IsU32(s)
    ensures var v := UnpackClient(PackClient(frame));
            && v == Some(frame)
            && UnpackAccept(PackAccept(n, s, v.value).value) == Some((n, s, frame))
            && UnpackClient(PackAccept(n, s, v.value).value) == Some(frame)
  {
    ClientRoundTrip(frame, PackClient(frame));
    AcceptRoundTrip(n, s, frame, PackAccept(n, s, frame).value);
  }
}
