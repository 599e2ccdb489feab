/** Octets and C strings: the vocabulary shared by every buffer-handling module. */
module Bytes {
  type byte = b: int | 0 <= b < 256

  /** A little-endian 16-bit field. */
  function U16(lo: byte, hi: byte): (r: int)
    ensures 0 <= r < 65536
  {
    lo as int + 256 * (hi as int)
  }

  /** The characters a C string function sees in `s`: everything before the first NUL. */
  function CStr(s: seq<byte>): seq<byte> {
    if s == [] || s[0] == 0 then [] else [s[0]] + CStr(s[1..])
  }

  /** It is the longest prefix without a NUL. */
  lemma {:induction false} CStrIsPrefix(s: seq<byte>)
    ensures CStr(s) <= s && 0 !in CStr(s)
    ensures |CStr(s)| < |s| ==> s[|CStr(s)|] == 0
  {
    if s == [] || s[0] == 0 {
    } else {
      CStrIsPrefix(s[1..]);
    }
  }

  /** A C string is determined by the bytes up to its first NUL. */
  lemma {:induction false} CStrIs(s: seq<byte>, n: nat)
    requires n < |s| && s[n] == 0 && 0 !in s[..n]
    ensures CStr(s) == s[..n]
  {
    if n <= 0 {
    } else {
      assert s[0] == s[..n][0];
      assert s[1..][..n - 1] == s[..n][1..];
      CStrIs(s[1..], n - 1);
    }
  }

  /** A byte string without a NUL is its own C string. */
  lemma {:induction false} CStrNoNul(s: seq<byte>)
    requires 0 !in s
    ensures CStr(s) == s
  {
    if s == [] {
    } else {
      CStrNoNul(s[1..]);
    }
  }

  /** Writes `src` behind the first `index` bytes of a buffer. */
  method Append(data: array<byte>, index: nat, src: seq<byte>) returns (next: nat)
    requires index + |src| <= data.Length
    modifies data
    ensures next == index + |src| && data[..next] == old(data[..index]) + src
  {
    var i := 0;
    while i < |src|
      invariant i <= |src| && data[..index + i] == old(data[..index]) + src[..i]
    {
      data[index + i] := src[i];
      i := i + 1;
    }
    return index + |src|;
  }
}
