/** Reading little-endian numbers and terminated strings out of byte strings. */
module Bytes {
  import opened Options

  type Byte = n: nat | n < 256

  function LittleEndian(bytes: seq<Byte>): nat {
    if bytes == [] then 0 else bytes[0] + 256 * LittleEndian(bytes[1..])
  }

  function Power256(n: nat): nat { if n == 0 then 1 else 256 * Power256(n - 1) }

  lemma {:induction false} LittleEndianFits(bytes: seq<Byte>)
    ensures LittleEndian(bytes) < Power256(|bytes|)
  {
    if bytes != [] { LittleEndianFits(bytes[1..]); }
  }

  function Read(bytes: seq<Byte>, offset: nat, n: nat): Option<nat> {
    if offset + n <= |bytes| then Some(LittleEndian(bytes[offset..offset + n])) else None
  }

  function ReadAt(bytes: seq<Byte>, offset: nat, n: nat): nat
    requires offset + n <= |bytes|
  {
    LittleEndian(bytes[offset..offset + n])
  }

  lemma FourBytes()
    ensures Power256(4) == 0x1_0000_0000
  {
  }

  lemma EightBytes()
    ensures Power256(8) == 0x1_0000_0000_0000_0000
  {
  }

  function FirstZero(bytes: seq<Byte>): (r: Option<nat>)
    ensures r.Some? ==> r.value < |bytes| && bytes[r.value] == 0 && 0 !in bytes[..r.value]
    ensures r.None? ==> 0 !in bytes
  {
    if bytes == [] then None
    else if bytes[0] == 0 then Some(0)
    else match FirstZero(bytes[1..]) case None => None case Some(i) => Some(i + 1)
  }
}
