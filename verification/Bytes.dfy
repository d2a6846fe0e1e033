/** Little-endian bytes. */
module Bytes {

  type Byte = b: int | 0 <= b < 256

  function LeBytes(n: nat, count: nat): (bytes: seq<Byte>)
    ensures |bytes| == count
  {
    if count == 0 then [] else [n % 256] + LeBytes(n / 256, count - 1)
  }

  function FromLeBytes(bytes: seq<Byte>): nat {
    if bytes == [] then 0 else bytes[0] + 256 * FromLeBytes(bytes[1..])
  }

  function Power256(count: nat): nat {
    if count == 0 then 1 else 256 * Power256(count - 1)
  }

  lemma {:induction false} LeBytesRoundTrip(n: nat, count: nat)
    requires n < Power256(count)
    ensures FromLeBytes(LeBytes(n, count)) == n
  {
    if count > 0 {
      LeBytesRoundTrip(n / 256, count - 1);
      assert LeBytes(n, count)[1..] == LeBytes(n / 256, count - 1);
    }
  }

  lemma {:induction false} FromLeBytesBound(bytes: seq<Byte>)
    ensures FromLeBytes(bytes) < Power256(|bytes|)
  {
    if bytes != [] {
      FromLeBytesBound(bytes[1..]);
    }
  }

  lemma Powers()
    ensures Power256(2) == 0x1_0000 && Power256(4) == 0x1_0000_0000 && Power256(8) == 0x1_0000_0000_0000_0000
    ensures Power256(16) == 0x1_0000_0000_0000_0000_0000_0000_0000_0000
  {
    assert Power256(4) == 0x1_0000_0000;
    assert Power256(8) == 0x1_0000_0000_0000_0000;
    assert Power256(12) == 0x1_0000_0000_0000_0000_0000_0000;
  }
}
