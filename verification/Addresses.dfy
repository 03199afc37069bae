module Addresses {
  import opened PaxosMessage

  /** An Ethernet address, as the number its six bytes spell. */
  type Mac = int

  const BROADCAST: Mac := 0xffff_ffff_ffff

  predicate IsMac(m: Mac) {
    0 <= m <= BROADCAST
  }

  /** `toRaw()` */
  function Raw(m: Mac): (b: Bytes)
    requires IsMac(m)
    ensures |b| == 6
  {
    var hi := m / 0x1_0000_0000;
    [hi / 0x100, hi % 0x100] + Pack32(m % 0x1_0000_0000)
  }

  /** `EthAddr(raw)` */
  function FromRaw(b: Bytes): Mac
    requires |b| == 6
  {
    Unpack16(b[0], b[1]) * 0x1_0000_0000 + Unpack32(b[2..])
  }

  lemma RawRoundTrip(m: Mac)
    requires IsMac(m)
    ensures FromRaw(Raw(m)) == m
  {
    var (hi, lo) := (m / 0x1_0000_0000, m % 0x1_0000_0000);
    assert Raw(m)[2..] == Pack32(lo);
    Unpack32Pack32(lo);
    assert Unpack16(hi / 0x100, hi % 0x100) == hi;
  }

  /** The raw bytes are the address in network order. */
  lemma RawBytes(m: Mac)
    requires IsMac(m)
    ensures BigEndian(Raw(m)) == m
  {
    var (b, hi, lo) := (Raw(m), m / 0x1_0000_0000, m % 0x1_0000_0000);
    assert b[..5][..4] == b[..4] && b[..4][..3] == b[..3] && b[..3][..2] == b[..2] && b[..2][..1] == [b[0]];
    assert BigEndian([b[0]]) == b[0] by {
      assert [b[0]][..0] == [];
    }
    assert BigEndian(b[..2]) == BigEndian([b[0]]) * 0x100 + b[1] == hi;
    Unpack32Pack32(lo);
    assert BigEndian(b[..3]) == BigEndian(b[..2]) * 0x100 + b[2];
    assert BigEndian(b[..4]) == BigEndian(b[..3]) * 0x100 + b[3];
    assert BigEndian(b[..5]) == BigEndian(b[..4]) * 0x100 + b[4];
  }
}
