/** Bytes, the searches the library makes in them, and the big-endian integers of `Buffer`. */
module Bytes {

  datatype Option<+T> = None | Some(value: T)

  // A C++ `char` in a buffer: one of 256 code points.
  type byte = c: char | (c as int) < 256 witness 'a'
  type bytes = seq<byte>

  const CRLF: bytes := ['\r', '\n']

  /** `std::find`: the index of the first `c`, or the length when there is none. */
  function Find(s: bytes, c: byte): (k: nat)
    ensures k <= |s|
    ensures forall i :: 0 <= i < k ==> s[i] != c
    ensures k < |s| ==> s[k] == c
  {
    if s == [] || s[0] == c then 0 else 1 + Find(s[1..], c)
  }

  /** True when a line break starts at index `k` of `s`. */
  predicate CrlfAt(s: bytes, k: int) {
    0 <= k < |s| - 1 && s[k] == '\r' && s[k + 1] == '\n'
  }

  /** `std::search` for CRLF, as `Buffer::findCRLF` uses it: the first line break, if any. */
  function FindCRLF(s: bytes): (r: Option<nat>)
    ensures r.Some? ==> CrlfAt(s, r.value)
    ensures forall i :: 0 <= i < (if r.Some? then r.value else |s|) ==> !CrlfAt(s, i)
  {
    if |s| < 2 then None
    else if CrlfAt(s, 0) then Some(0)
    else
      var rest := FindCRLF(s[1..]);
      assert forall i :: 1 <= i < |s| ==> (CrlfAt(s, i) <==> CrlfAt(s[1..], i - 1));
      if rest.Some? then Some(rest.value + 1) else None
  }

  /** More input after `s` does not move a line break already found. */
  lemma FindCRLFExtends(s: bytes, more: bytes)
    requires FindCRLF(s).Some?
    ensures FindCRLF(s + more) == FindCRLF(s)
  {
    var k := FindCRLF(s).value;
    assert CrlfAt(s + more, k);
    assert forall i :: 0 <= i < k ==> (CrlfAt(s + more, i) <==> CrlfAt(s, i));
  }

  /** A line without CR is found whole when it is followed by CRLF. */
  lemma FindCRLFAfterLine(line: bytes, rest: bytes)
    requires '\r' !in line
    ensures FindCRLF(line + CRLF + rest) == Some(|line|)
  {
    var s := line + CRLF + rest;
    assert CrlfAt(s, |line|);
    forall i | 0 <= i < |line|
      ensures !CrlfAt(s, i)
    {
      assert s[i] == line[i];
    }
  }

  // ---- 32-bit integers in network byte order ----

  type int32 = x: int | -0x8000_0000 <= x < 0x8000_0000

  /** The four bytes `htonl` puts in memory. */
  function EncodeInt32(x: int32): bytes {
    var u := if x < 0 then x + 0x1_0000_0000 else x;
    [(u / 0x100_0000) as char, (u / 0x1_0000 % 0x100) as char, (u / 0x100 % 0x100) as char, (u % 0x100) as char]
  }

  /** What `ntohl` makes of the first four bytes. */
  function DecodeInt32(s: bytes): int32
    requires |s| >= 4
  {
    var u := s[0] as int * 0x100_0000 + s[1] as int * 0x1_0000 + s[2] as int * 0x100 + s[3] as int;
    if u >= 0x8000_0000 then u - 0x1_0000_0000 else u
  }

  lemma Int32RoundTrip(x: int32, rest: bytes)
    ensures DecodeInt32(EncodeInt32(x) + rest) == x
  {
    var u := if x < 0 then x + 0x1_0000_0000 else x;
    assert u == u / 0x100_0000 * 0x100_0000 + u / 0x1_0000 % 0x100 * 0x1_0000 + u / 0x100 % 0x100 * 0x100 + u % 0x100;
    var s := EncodeInt32(x) + rest;
    var e := EncodeInt32(x);
    assert s[0] == e[0] && s[1] == e[1] && s[2] == e[2] && s[3] == e[3];
  }

  lemma Int32RoundTripBytes(s: bytes)
    requires |s| >= 4
    ensures EncodeInt32(DecodeInt32(s)) == s[..4]
  {
    var a, b, c, d := s[0] as int, s[1] as int, s[2] as int, s[3] as int;
    Digits(a, b, c, d);
    var x: int := DecodeInt32(s);
    assert a * 0x100_0000 + b * 0x1_0000 + c * 0x100 + d == if x < 0 then x + 0x1_0000_0000 else x;
    assert EncodeInt32(x) == [s[0], s[1], s[2], s[3]];
  }

  lemma Digits(a: int, b: int, c: int, d: int)
    requires 0 <= a < 0x100 && 0 <= b < 0x100 && 0 <= c < 0x100 && 0 <= d < 0x100
    ensures var u := a * 0x100_0000 + b * 0x1_0000 + c * 0x100 + d;
            u / 0x100_0000 == a && u / 0x1_0000 % 0x100 == b && u / 0x100 % 0x100 == c && u % 0x100 == d
  {
    var u := a * 0x100_0000 + b * 0x1_0000 + c * 0x100 + d;
    assert u / 0x100 == a * 0x1_0000 + b * 0x100 + c;
    assert u / 0x1_0000 == a * 0x100 + b;
  }
}
