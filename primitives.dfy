/** Fixed-width integers and the 20-byte script hash (UInt160) of the ledger. */
module Primitives {
  import opened Wrappers

  newtype byte = x: int | 0 <= x < 0x100
  newtype u32 = x: int | 0 <= x < 0x1_0000_0000
  newtype u64 = x: int | 0 <= x < 0x1_0000_0000_0000_0000

  predicate FitsU32(x: int) { 0 <= x < 0x1_0000_0000 }
  predicate FitsU64(x: int) { 0 <= x < 0x1_0000_0000_0000_0000 }

  /** A script hash: exactly 20 bytes, stored little-endian as the virtual machine emits them. */
  type UInt160 = s: seq<byte> | |s| == 20 witness seq(20, _ => 0)

  /** A 256-bit hash (transaction id, block hash); only carried around, never inspected. */
  type UInt256 = seq<byte>

  function Reverse<T>(s: seq<T>): (r: seq<T>)
    ensures |r| == |s|
    ensures forall i | 0 <= i < |s| :: r[i] == s[|s| - 1 - i]
  {
    seq(|s|, i requires 0 <= i < |s| => s[|s| - 1 - i])
  }

  /**
   * An address argument: the raw bytes are reversed into big-endian hexadecimal and parsed as a
   * UInt160, which stores its bytes little-endian again. Parsing succeeds exactly when there
   * are 20 bytes, and then the hash is the raw byte string itself.
   */
  function TryParseAddress(raw: seq<byte>): (r: Option<UInt160>)
    ensures r.Some? <==> |raw| == 20
    ensures r.Some? ==> r.value == raw
  {
    var bigEndian := Reverse(raw);
    if |bigEndian| == 20 then
      var stored := Reverse(bigEndian);
      assert stored == raw;
      Some(stored)
    else None
  }
}
