/** UTF-8 as `Buffer.from(s, 'utf8')` produces it. A byte string is a `string` with one
    character below 256 per byte. */
module Utf8 {
  import opened Options

  predicate IsAscii(s: string) {
    forall i | 0 <= i < |s| :: s[i] as int < 128
  }

  function ByteChar(n: nat): char
    requires n < 256
  {
    n as char
  }

  function EncodeChar(c: char): (r: string)
    ensures 1 <= |r| <= 4
    ensures c as int < 128 ==> r == [c]
    ensures c as int >= 128 ==> forall i | 0 <= i < |r| :: 128 <= r[i] as int < 256
  {
    var n := c as int;
    if n < 0x80 then [c]
    else if n < 0x800 then [ByteChar(0xC0 + n / 64), ByteChar(0x80 + n % 64)]
    else if n < 0x10000 then
      [ByteChar(0xE0 + n / 4096), ByteChar(0x80 + n / 64 % 64), ByteChar(0x80 + n % 64)]
    else
      [ByteChar(0xF0 + n / 262144), ByteChar(0x80 + n / 4096 % 64),
       ByteChar(0x80 + n / 64 % 64), ByteChar(0x80 + n % 64)]
  }

  function Encode(s: string): string {
    if s == "" then "" else EncodeChar(s[0]) + Encode(s[1..])
  }

  /** `Buffer.byteLength(s, 'utf8')`. */
  function ByteLength(s: string): nat {
    |Encode(s)|
  }

  lemma {:induction false} EncodeConcat(a: string, b: string)
    ensures Encode(a + b) == Encode(a) + Encode(b)
  {
    if a == "" {
      assert a + b == b;
    } else {
      assert (a + b)[1..] == a[1..] + b;
      EncodeConcat(a[1..], b);
    }
  }

  lemma {:induction false} EncodeAscii(s: string)
    requires IsAscii(s)
    ensures Encode(s) == s
  {
    if s != "" {
      EncodeAscii(s[1..]);
    }
  }

  // ---- The decoder of section 3 of RFC 3629 ----

  /** How many bytes the character with this lead byte takes. */
  function LeadLength(lead: char): nat {
    var n := lead as int;
    if n < 0xC0 then 1 else if n < 0xE0 then 2 else if n < 0xF0 then 3 else 4
  }

  /** The payload of a continuation byte 10xxxxxx. */
  function Payload(c: char): int {
    c as int - 0x80
  }

  /** The code point of a byte sequence, from its lead byte and its continuation bytes. */
  function CodePoint(b: string): int
    requires b != ""
  {
    var n := b[0] as int;
    if |b| == 1 then n
    else if |b| == 2 then (n - 0xC0) * 64 + Payload(b[1])
    else if |b| == 3 then (n - 0xE0) * 4096 + Payload(b[1]) * 64 + Payload(b[2])
    else (n - 0xF0) * 262144 + Payload(b[1]) * 4096 + Payload(b[2]) * 64 + Payload(b[3])
  }

  predicate IsScalar(n: int) {
    0 <= n < 0xD800 || 0xE000 <= n < 0x110000
  }

  function Decode(b: string): Option<string>
    decreases |b|
  {
    if b == "" then Some("")
    else
      var size := LeadLength(b[0]);
      if size > |b| || !IsScalar(CodePoint(b[..size])) then None
      else
        var others := Decode(b[size..]);
        if others.None? then None else Some([CodePoint(b[..size]) as char] + others.value)
  }

  lemma CharReadsBack(c: char)
    ensures LeadLength(EncodeChar(c)[0]) == |EncodeChar(c)|
    ensures CodePoint(EncodeChar(c)) == c as int
  {
    var n := c as int;
    if n >= 0x10000 {
      Recompose(n);
    } else if n >= 0x800 {
      RecomposeThree(n);
    }
  }

  lemma RecomposeThree(n: nat)
    ensures n == 4096 * (n / 4096) + 64 * (n / 64 % 64) + n % 64
  {
    assert n / 64 == 64 * (n / 64 / 64) + n / 64 % 64;
    assert n / 64 / 64 == n / 4096;
  }

  lemma Recompose(n: nat)
    ensures n == 262144 * (n / 262144) + 4096 * (n / 4096 % 64) + 64 * (n / 64 % 64) + n % 64
  {
    assert n / 64 == 64 * (n / 64 / 64) + n / 64 % 64;
    assert n / 4096 == 64 * (n / 4096 / 64) + n / 4096 % 64;
    assert n / 64 / 64 == n / 4096 && n / 4096 / 64 == n / 262144;
  }

  /** Decoding gives every string back. */
  lemma {:induction false} DecodeEncode(s: string)
    ensures Decode(Encode(s)) == Some(s)
  {
    if s != "" {
      var first, others := EncodeChar(s[0]), Encode(s[1..]);
      CharReadsBack(s[0]);
      DecodeEncode(s[1..]);
      assert (first + others)[0] == first[0];
      assert (first + others)[..|first|] == first && (first + others)[|first|..] == others;
      assert [s[0]] + s[1..] == s;
    }
  }

  /** UTF-8 loses nothing. */
  lemma EncodeInjective(s: string, t: string)
    requires Encode(s) == Encode(t)
    ensures s == t
  {
    DecodeEncode(s);
    DecodeEncode(t);
  }
}
