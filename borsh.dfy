/**
 * The Borsh wire primitives the account and instruction codecs are built from:
 * little-endian fixed-width integers, 32-byte raw public keys and strings laid
 * out as a u32 little-endian byte count followed by the bytes themselves.
 * Strings are modelled as their byte sequences; no text decoding is done.
 */
module Borsh {
  import opened Wrappers

  type byte = x: int | 0 <= x < 0x100
  type u32 = x: int | 0 <= x < 0x1_0000_0000
  type u64 = x: int | 0 <= x < 0x1_0000_0000_0000_0000
  type i64 = x: int | -0x8000_0000_0000_0000 <= x < 0x8000_0000_0000_0000

  const I64_MAX: i64 := 0x7FFF_FFFF_FFFF_FFFF

  /** A public key: exactly 32 raw bytes. */
  type PubKey = s: seq<byte> | |s| == 32 witness seq(32, _ => 0)

  /** A string Borsh can carry: its byte count fits the u32 prefix. */
  type BorshString = s: seq<byte> | |s| < 0x1_0000_0000

  function Pow256(n: nat): (p: nat)
    ensures p > 0
  {
    if n == 0 then 1 else 256 * Pow256(n - 1)
  }

  /** The n-byte little-endian encoding of x, taken modulo 256^n. */
  function LeBytes(x: nat, n: nat): (s: seq<byte>)
    ensures |s| == n
  {
    if n == 0 then [] else [x % 256] + LeBytes(x / 256, n - 1)
  }

  /** The unsigned value of a little-endian byte sequence. */
  function LeValue(s: seq<byte>): (v: nat)
    ensures v < Pow256(|s|)
  {
    if s == [] then 0 else s[0] + 256 * LeValue(s[1..])
  }

  lemma {:induction false} LeValueOfLeBytes(x: nat, n: nat)
    requires x < Pow256(n)
    ensures LeValue(LeBytes(x, n)) == x
  {
    if n > 0 {
      var s := LeBytes(x, n);
      assert s[1..] == LeBytes(x / 256, n - 1);
      assert x / 256 < Pow256(n - 1);
      LeValueOfLeBytes(x / 256, n - 1);
    }
  }

  lemma {:induction false} LeBytesOfLeValue(s: seq<byte>)
    ensures LeBytes(LeValue(s), |s|) == s
  {
    if s != [] {
      var v := LeValue(s);
      assert v % 256 == s[0] && v / 256 == LeValue(s[1..]);
      LeBytesOfLeValue(s[1..]);
    }
  }

  /** Two byte strings of one width are equal exactly when their values are. */
  lemma LeValueInjective(a: seq<byte>, b: seq<byte>)
    requires |a| == |b|
    ensures LeValue(a) == LeValue(b) <==> a == b
  {
    if LeValue(a) == LeValue(b) {
      LeBytesOfLeValue(a);
      LeBytesOfLeValue(b);
    }
  }

  lemma Pow256Widths()
    ensures Pow256(4) == 0x1_0000_0000
    ensures Pow256(8) == 0x1_0000_0000_0000_0000
  {
  }

  /** A concatenation splits back into its parts. */
  lemma SplitJoin(a: seq<byte>, b: seq<byte>)
    ensures (a + b)[..|a|] == a && (a + b)[|a|..] == b
  {
  }

  /** A slice of a slice is a slice. */
  lemma SliceOfSlice(data: seq<byte>, i: nat, j: nat, k: nat)
    requires i + j <= i + k <= |data|
    ensures data[i..][j..k] == data[i + j..i + k]
  {
  }

  /** Adjacent slices join up. */
  lemma SlicesJoin(data: seq<byte>, i: nat, j: nat, k: nat)
    requires i <= j <= k <= |data|
    ensures data[i..k] == data[i..j] + data[j..k]
  {
  }

  // ---------------------------------------------------------------------------
  // Encoders

  function U64Bytes(x: u64): (s: seq<byte>)
  {
    LeBytes(x, 8)
  }

  /** Two's complement: a negative i64 is stored as x + 2^64. */
  function I64Bytes(x: i64): (s: seq<byte>)
  {
    LeBytes(if x < 0 then x + 0x1_0000_0000_0000_0000 else x, 8)
  }

  function BorshStringBytes(s: BorshString): (b: seq<byte>)
  {
    LeBytes(|s|, 4) + s
  }

  // ---------------------------------------------------------------------------
  // Readers: None is an out-of-range read (the .NET span reader throws).

  function U32Value(s: seq<byte>): (v: u32)
    requires |s| == 4
  {
    Pow256Widths();
    LeValue(s)
  }

  function U64Value(s: seq<byte>): (v: u64)
    requires |s| == 8
  {
    Pow256Widths();
    LeValue(s)
  }

  /** Reinterprets an unsigned 64-bit value as two's-complement signed. */
  function ToI64(u: u64): (v: i64)
  {
    if u >= 0x8000_0000_0000_0000 then u - 0x1_0000_0000_0000_0000 else u
  }

  /** Reading bytes as a number and writing the number back gives the same bytes. */
  lemma U32ValueBytes(s: seq<byte>)
    requires |s| == 4
    ensures LeBytes(U32Value(s), 4) == s
  {
    LeBytesOfLeValue(s);
  }

  lemma U64ValueBytes(s: seq<byte>)
    requires |s| == 8
    ensures U64Bytes(U64Value(s)) == s
  {
    LeBytesOfLeValue(s);
  }

  lemma I64ValueBytes(s: seq<byte>)
    requires |s| == 8
    ensures I64Bytes(ToI64(U64Value(s))) == s
  {
    LeBytesOfLeValue(s);
  }

  function GetU8(data: seq<byte>, offset: nat): (r: Option<byte>)
    ensures r.Some? <==> offset < |data|
    ensures r.Some? ==> r.value == data[offset]
  {
    if offset < |data| then Some(data[offset]) else None
  }

  function GetU32(data: seq<byte>, offset: nat): (r: Option<u32>)
    ensures r.Some? <==> offset + 4 <= |data|
    ensures r.Some? ==> r.value == LeValue(data[offset..offset + 4])
  {
    if offset + 4 <= |data| then Some(U32Value(data[offset..offset + 4])) else None
  }

  function GetU64(data: seq<byte>, offset: nat): (r: Option<u64>)
    ensures r.Some? <==> offset + 8 <= |data|
  {
    if offset + 8 <= |data| then Some(U64Value(data[offset..offset + 8])) else None
  }

  function GetS64(data: seq<byte>, offset: nat): (r: Option<i64>)
    ensures r.Some? <==> offset + 8 <= |data|
  {
    if offset + 8 <= |data| then Some(ToI64(U64Value(data[offset..offset + 8]))) else None
  }

  function GetPubKey(data: seq<byte>, offset: nat): (r: Option<PubKey>)
    ensures r.Some? <==> offset + 32 <= |data|
    ensures r.Some? ==> r.value == data[offset..offset + 32]
  {
    if offset + 32 <= |data| then Some(data[offset..offset + 32]) else None
  }

  /**
   * Reads a length-prefixed string; on success also gives the number of bytes
   * consumed. Fails when the prefix or the bytes it announces run past the end.
   */
  function GetBorshString(data: seq<byte>, offset: nat): (r: Option<(BorshString, nat)>)
    ensures r.Some? ==> r.value.1 == 4 + |r.value.0| && offset + r.value.1 <= |data|
    ensures r.Some? <==> offset + 4 <= |data| && offset + 4 + LeValue(data[offset..offset + 4]) <= |data|
    ensures r.Some? ==> LeValue(data[offset..offset + 4]) == |r.value.0|
    ensures r.Some? ==> r.value.0 == data[offset + 4..offset + r.value.1]
  {
    match GetU32(data, offset)
    case None => None
    case Some(n) =>
      if offset + 4 + n <= |data| then Some((data[offset + 4..offset + 4 + n], 4 + n)) else None
  }

  // ---------------------------------------------------------------------------
  // Round trips: what an encoder writes, the matching reader gives back.

  lemma U64ValueOfBytes(x: u64)
    ensures U64Value(U64Bytes(x)) == x
  {
    LeValueOfLeBytes(x, 8);
  }

  lemma U32ValueOfBytes(x: u32)
    ensures U32Value(LeBytes(x, 4)) == x
  {
    LeValueOfLeBytes(x, 4);
  }

  /** Reading 8 bytes as a u64 gives x exactly when the bytes are x's encoding. */
  lemma U64ValueIs(s: seq<byte>, x: u64)
    requires |s| == 8
    ensures U64Value(s) == x <==> s == U64Bytes(x)
  {
    U64ValueOfBytes(x);
    U64ValueBytes(s);
  }

  lemma ReadU64Written(data: seq<byte>, offset: nat, x: u64)
    requires offset + 8 <= |data| && data[offset..offset + 8] == U64Bytes(x)
    ensures GetU64(data, offset) == Some(x)
  {
    LeValueOfLeBytes(x, 8);
  }

  lemma ReadS64Written(data: seq<byte>, offset: nat, x: i64)
    requires offset + 8 <= |data| && data[offset..offset + 8] == I64Bytes(x)
    ensures GetS64(data, offset) == Some(x)
  {
    var u := if x < 0 then x + 0x1_0000_0000_0000_0000 else x;
    LeValueOfLeBytes(u, 8);
  }

  lemma ReadStringWritten(data: seq<byte>, offset: nat, s: BorshString)
    requires offset + 4 + |s| <= |data| && data[offset..offset + 4 + |s|] == BorshStringBytes(s)
    ensures GetBorshString(data, offset) == Some((s, 4 + |s|))
  {
    var w := data[offset..offset + 4 + |s|];
    assert data[offset..offset + 4] == w[..4] == LeBytes(|s|, 4);
    assert data[offset + 4..offset + 4 + |s|] == w[4..];
    LeValueOfLeBytes(|s|, 4);
    assert data[offset + 4..offset + 4 + |s|] == s;
  }

  /** A zero-length prefix is the empty string, not a failure, and consumes exactly 4 bytes. */
  lemma EmptyStringReads(data: seq<byte>, offset: nat)
    requires offset + 4 <= |data| && data[offset..offset + 4] == [0, 0, 0, 0]
    ensures GetBorshString(data, offset) == Some(([], 4))
  {
    assert LeBytes(0, 4) == [0, 0, 0, 0];
    LeValueOfLeBytes(0, 4);
  }
}
