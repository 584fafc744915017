/** UTF-8 as the session layer uses it: `str.encode("utf-8")` on the way in,
    and `bytes.decode("utf-8", errors="ignore")` on the way out. The decoder
    drops every maximal ill-formed subsequence (Unicode Standard, section
    3.9, table 3-7 and the "maximal subpart" practice), which is what
    CPython's decoder skips under `errors="ignore"`. */
module Utf8 {

  type Byte = x: int | 0 <= x < 256

  const NEWLINE: Byte := 0x0A

  predicate IsCont(b: Byte) { 0x80 <= b <= 0xBF }

  /** Allowed range of the second byte after a three-byte lead. */
  function Lo3(b0: Byte): Byte { if b0 == 0xE0 then 0xA0 else 0x80 }
  function Hi3(b0: Byte): Byte { if b0 == 0xED then 0x9F else 0xBF }

  /** Allowed range of the second byte after a four-byte lead. */
  function Lo4(b0: Byte): Byte { if b0 == 0xF0 then 0x90 else 0x80 }
  function Hi4(b0: Byte): Byte { if b0 == 0xF4 then 0x8F else 0xBF }

  /** The bytes of one character. */
  function EncodeChar(c: char): (r: seq<Byte>)
    ensures 1 <= |r| <= 4
    ensures |r| == 1 <==> (c as int) < 0x80
    ensures forall i :: 1 <= i < |r| ==> IsCont(r[i])
    ensures |r| > 1 ==> r[0] >= 0xC2
  {
    var n := c as int;
    if n < 0x80 then [n]
    else if n < 0x800 then [0xC0 + n / 64, 0x80 + n % 64]
    else if n < 0x10000 then [0xE0 + n / 4096, 0x80 + (n / 64) % 64, 0x80 + n % 64]
    else [0xF0 + n / 262144, 0x80 + (n / 4096) % 64, 0x80 + (n / 64) % 64, 0x80 + n % 64]
  }

  /** `s.encode("utf-8")`. */
  function Encode(s: string): seq<Byte> {
    if s == [] then [] else EncodeChar(s[0]) + Encode(s[1..])
  }

  /** `b.decode("utf-8", errors="ignore")`: well-formed sequences become their
      characters; a lead byte that cannot start a sequence is dropped alone,
      and a valid lead followed by a wrong or missing byte is dropped together
      with the continuation bytes it had accepted so far. */
  function Decode(s: seq<Byte>): string
    decreases |s|
  {
    if s == [] then []
    else
      var b0 := s[0];
      if b0 < 0x80 then [b0 as char] + Decode(s[1..])
      else if 0xC2 <= b0 <= 0xDF then
        if |s| >= 2 && IsCont(s[1]) then
          [((b0 as int - 0xC0) * 64 + (s[1] as int - 0x80)) as char] + Decode(s[2..])
        else Decode(s[1..])
      else if 0xE0 <= b0 <= 0xEF then
        if |s| >= 2 && Lo3(b0) <= s[1] <= Hi3(b0) then
          if |s| >= 3 && IsCont(s[2]) then
            [((b0 as int - 0xE0) * 4096 + (s[1] as int - 0x80) * 64 + (s[2] as int - 0x80)) as char] + Decode(s[3..])
          else Decode(s[2..])
        else Decode(s[1..])
      else if 0xF0 <= b0 <= 0xF4 then
        if |s| >= 2 && Lo4(b0) <= s[1] <= Hi4(b0) then
          if |s| >= 3 && IsCont(s[2]) then
            if |s| >= 4 && IsCont(s[3]) then
              [((b0 as int - 0xF0) * 262144 + (s[1] as int - 0x80) * 4096 + (s[2] as int - 0x80) * 64
                 + (s[3] as int - 0x80)) as char]
              + Decode(s[4..])
            else Decode(s[3..])
          else Decode(s[2..])
        else Decode(s[1..])
      else Decode(s[1..])
  }

  lemma DecodeTwo(c: char, rest: seq<Byte>)
    requires 0x80 <= c as int < 0x800
    ensures Decode(EncodeChar(c) + rest) == [c] + Decode(rest)
  {
    var n := c as int;
    var s := EncodeChar(c) + rest;
    assert s[0] == 0xC0 + n / 64 && s[1] == 0x80 + n % 64;
    assert s[2..] == rest;
  }

  lemma DecodeThree(c: char, rest: seq<Byte>)
    requires 0x800 <= c as int < 0x10000
    ensures Decode(EncodeChar(c) + rest) == [c] + Decode(rest)
  {
    var n := c as int;
    var q, m := n / 64, n % 64;
    var hi, mid := q / 64, q % 64;
    assert n == (hi * 64 + mid) * 64 + m;
    assert n / 4096 == hi && (n / 64) % 64 == mid;
    var s := EncodeChar(c) + rest;
    assert s[0] == 0xE0 + hi && s[1] == 0x80 + mid && s[2] == 0x80 + m;
    assert hi == 0 ==> mid >= 0x20;
    assert hi == 0xD ==> mid < 0x20;
    assert s[3..] == rest;
  }

  lemma DecodeFour(c: char, rest: seq<Byte>)
    requires 0x10000 <= c as int
    ensures Decode(EncodeChar(c) + rest) == [c] + Decode(rest)
  {
    var n := c as int;
    var q, m := n / 64, n % 64;
    var q2, mid := q / 64, q % 64;
    var hi, top := q2 / 64, q2 % 64;
    assert n == ((hi * 64 + top) * 64 + mid) * 64 + m;
    assert n / 262144 == hi && (n / 4096) % 64 == top && (n / 64) % 64 == mid;
    var s := EncodeChar(c) + rest;
    assert s[0] == 0xF0 + hi && s[1] == 0x80 + top && s[2] == 0x80 + mid && s[3] == 0x80 + m;
    assert hi == 0 ==> top >= 0x10;
    assert hi == 4 ==> top < 0x10;
    assert s[4..] == rest;
  }

  /** Decoding the bytes of a character followed by anything gives that
      character first. */
  lemma DecodeEncodeChar(c: char, rest: seq<Byte>)
    ensures Decode(EncodeChar(c) + rest) == [c] + Decode(rest)
  {
    var n := c as int;
    if n < 0x80 {
      assert (EncodeChar(c) + rest)[1..] == rest;
    } else if n < 0x800 {
      DecodeTwo(c, rest);
    } else if n < 0x10000 {
      DecodeThree(c, rest);
    } else {
      DecodeFour(c, rest);
    }
  }

  /** Decoding what was encoded gives the text back: nothing is dropped. */
  lemma {:induction false} DecodeEncode(s: string)
    ensures Decode(Encode(s)) == s
  {
    if s != [] {
      DecodeEncodeChar(s[0], Encode(s[1..]));
      DecodeEncode(s[1..]);
    }
  }

  lemma {:induction false} EncodeAppend(a: string, b: string)
    ensures Encode(a + b) == Encode(a) + Encode(b)
  {
    if a != [] {
      assert (a + b)[0] == a[0] && (a + b)[1..] == a[1..] + b;
      EncodeAppend(a[1..], b);
      assert Encode(a + b) == EncodeChar(a[0]) + (Encode(a[1..]) + Encode(b));
    } else {
      assert a + b == b;
    }
  }

  /** The only character whose bytes contain 0x0A is `"\n"` itself: every
      byte of a multi-byte sequence is at least 0x80. */
  lemma {:induction false} EncodeNewlines(s: string)
    ensures NEWLINE in Encode(s) <==> '\n' in s
  {
    if s != [] {
      EncodeNewlines(s[1..]);
      var e := EncodeChar(s[0]);
      assert NEWLINE in e <==> s[0] == '\n' by {
        if |e| > 1 {
          assert forall i :: 0 <= i < |e| ==> e[i] >= 0x80;
        }
      }
      assert s == [s[0]] + s[1..];
    }
  }

  predicate IsAscii(s: string) {
    forall i :: 0 <= i < |s| ==> (s[i] as int) < 0x80
  }

  /** The code points of an ASCII text, as bytes. */
  function AsciiBytes(s: string): seq<Byte>
    requires IsAscii(s)
  {
    seq(|s|, i requires 0 <= i < |s| => s[i] as int)
  }

  /** ASCII text is encoded one byte per character. */
  lemma {:induction false} EncodeAscii(s: string)
    requires IsAscii(s)
    ensures Encode(s) == AsciiBytes(s)
  {
    if s != [] {
      EncodeAscii(s[1..]);
    }
  }

  /** One record on the wire: the encoded text and a newline. */
  function Frame(text: string): (r: seq<Byte>)
    ensures r == Encode(text + "\n")
  {
    EncodeAppend(text, "\n");
    Encode(text) + [NEWLINE]
  }

  /** A text without a newline makes a frame whose only newline byte is its
      last one, and which decodes to the text and the newline. */
  lemma FrameOneLine(text: string)
    requires '\n' !in text
    ensures var f := Frame(text);
      f != [] && f[|f| - 1] == NEWLINE && NEWLINE !in f[..|f| - 1]
      && Decode(f) == text + "\n"
  {
    var f := Frame(text);
    EncodeNewlines(text);
    assert f[..|f| - 1] == Encode(text);
    DecodeEncode(text + "\n");
  }
}
