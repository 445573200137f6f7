/**
 * Well-formed UTF-8, following the byte-sequence syntax of section 4 of
 * RFC 3629, and the conversion Rust's `String::from_utf8` performs: it
 * accepts exactly the well-formed byte sequences, and the text it returns
 * is made of exactly those bytes.
 *
 * A Dafny `char` is a Unicode scalar value, so a Rust `String` is modelled
 * as the `string` (sequence of scalar values) its bytes encode.
 */
module Utf8 {
  import opened RustTypes

  /** UTF8-tail = %x80-BF */
  predicate IsTail(b: u8) {
    0x80 <= b <= 0xBF
  }

  /** UTF8-3: the four alternatives for a three-byte character. */
  predicate IsUtf8Char3(c: seq<u8>)
    requires |c| == 3
  {
    || (c[0] == 0xE0 && 0xA0 <= c[1] <= 0xBF && IsTail(c[2]))
    || (0xE1 <= c[0] <= 0xEC && IsTail(c[1]) && IsTail(c[2]))
    || (c[0] == 0xED && 0x80 <= c[1] <= 0x9F && IsTail(c[2]))
    || (0xEE <= c[0] <= 0xEF && IsTail(c[1]) && IsTail(c[2]))
  }

  /** UTF8-4: the three alternatives for a four-byte character. */
  predicate IsUtf8Char4(c: seq<u8>)
    requires |c| == 4
  {
    || (c[0] == 0xF0 && 0x90 <= c[1] <= 0xBF && IsTail(c[2]) && IsTail(c[3]))
    || (0xF1 <= c[0] <= 0xF3 && IsTail(c[1]) && IsTail(c[2]) && IsTail(c[3]))
    || (c[0] == 0xF4 && 0x80 <= c[1] <= 0x8F && IsTail(c[2]) && IsTail(c[3]))
  }

  /**
   * The UTF8-char rule of section 4 of RFC 3629:
   * UTF8-1 / UTF8-2 / UTF8-3 / UTF8-4.
   */
  predicate IsUtf8Char(c: seq<u8>) {
    || (|c| == 1 && c[0] <= 0x7F)
    || (|c| == 2 && 0xC2 <= c[0] <= 0xDF && IsTail(c[1]))
    || (|c| == 3 && IsUtf8Char3(c))
    || (|c| == 4 && IsUtf8Char4(c))
  }

  /** The UTF8-octets rule: zero or more UTF8-char, one after the other. */
  ghost predicate IsUtf8(s: seq<u8>)
    decreases |s|
  {
    s == [] || exists n :: 1 <= n <= |s| && n <= 4 && IsUtf8Char(s[..n]) && IsUtf8(s[n..])
  }

  /**
   * The width of the character `s` starts with, decided from its leading
   * byte as a decoder does, or 0 when `s` does not start with a UTF8-char.
   * Because UTF-8 is prefix-free, no other prefix of `s` is a UTF8-char.
   */
  function CharWidth(s: seq<u8>): (n: nat)
    ensures n <= |s| && n <= 4
    ensures n > 0 ==> IsUtf8Char(s[..n])
    ensures forall k :: 1 <= k <= |s| && k <= 4 && IsUtf8Char(s[..k]) ==> k == n
  {
    if |s| == 0 then 0
    else if s[0] <= 0x7F then 1
    else if 0xC2 <= s[0] <= 0xDF then
      if 2 <= |s| && IsTail(s[1]) then 2 else 0
    else if s[0] == 0xE0 then
      if 3 <= |s| && 0xA0 <= s[1] <= 0xBF && IsTail(s[2]) then 3 else 0
    else if 0xE1 <= s[0] <= 0xEC || 0xEE <= s[0] <= 0xEF then
      if 3 <= |s| && IsTail(s[1]) && IsTail(s[2]) then 3 else 0
    else if s[0] == 0xED then
      if 3 <= |s| && 0x80 <= s[1] <= 0x9F && IsTail(s[2]) then 3 else 0
    else if s[0] == 0xF0 then
      if 4 <= |s| && 0x90 <= s[1] <= 0xBF && IsTail(s[2]) && IsTail(s[3]) then 4 else 0
    else if 0xF1 <= s[0] <= 0xF3 then
      if 4 <= |s| && IsTail(s[1]) && IsTail(s[2]) && IsTail(s[3]) then 4 else 0
    else if s[0] == 0xF4 then
      if 4 <= |s| && 0x80 <= s[1] <= 0x8F && IsTail(s[2]) && IsTail(s[3]) then 4 else 0
    else 0
  }

  /** The six payload bits of a continuation byte. */
  function Payload(b: u8): int {
    b as int - 0x80
  }

  /** The scalar value one encoded character stands for. */
  function DecodeChar(c: seq<u8>): char
    requires IsUtf8Char(c)
  {
    if |c| == 1 then
      c[0] as int as char
    else if |c| == 2 then
      ((c[0] as int - 0xC0) * 0x40 + Payload(c[1])) as char
    else if |c| == 3 then
      ((c[0] as int - 0xE0) * 0x1000 + Payload(c[1]) * 0x40 + Payload(c[2])) as char
    else
      ((c[0] as int - 0xF0) * 0x4_0000 + Payload(c[1]) * 0x1000 + Payload(c[2]) * 0x40
       + Payload(c[3])) as char
  }

  /** The UTF-8 encoding of one scalar value (section 3 of RFC 3629). */
  function EncodeChar(ch: char): seq<u8> {
    var x := ch as int;
    if x < 0x80 then
      [x as u8]
    else if x < 0x800 then
      [(0xC0 + x / 0x40) as u8, (0x80 + x % 0x40) as u8]
    else if x < 0x1_0000 then
      [(0xE0 + x / 0x1000) as u8, (0x80 + x / 0x40 % 0x40) as u8, (0x80 + x % 0x40) as u8]
    else
      [(0xF0 + x / 0x4_0000) as u8, (0x80 + x / 0x1000 % 0x40) as u8,
       (0x80 + x / 0x40 % 0x40) as u8, (0x80 + x % 0x40) as u8]
  }

  /** The bytes of a text: the encodings of its characters, in order. */
  function Encode(t: string): seq<u8> {
    if t == [] then [] else EncodeChar(t[0]) + Encode(t[1..])
  }

  /** Encoding a text that starts with `ch` starts with the encoding of `ch`. */
  lemma EncodeCons(ch: char, t: string)
    ensures Encode([ch] + t) == EncodeChar(ch) + Encode(t)
  {
    assert ([ch] + t)[1..] == t;
  }

  /** The text `[ch] + rest` encodes to `s` when `ch` encodes to its first `n` bytes. */
  lemma EncodeJoin(s: seq<u8>, n: nat, ch: char, rest: string)
    requires n <= |s| && EncodeChar(ch) == s[..n] && Encode(rest) == s[n..]
    ensures Encode([ch] + rest) == s
  {
    EncodeCons(ch, rest);
    assert s == s[..n] + s[n..];
  }

  /** A scalar value below 0x800 encodes as UTF8-1 or UTF8-2 and decodes back. */
  lemma EncodeShortChar(ch: char)
    requires ch as int < 0x800
    ensures IsUtf8Char(EncodeChar(ch)) && DecodeChar(EncodeChar(ch)) == ch
  {
    var x := ch as int;
    if 0x80 <= x {
      Split(x, 0x40, x / 0x40, x % 0x40);
    }
  }

  /** A scalar value from 0x800 to 0xFFFF encodes as UTF8-3 and decodes back. */
  lemma EncodeChar3(ch: char)
    requires 0x800 <= ch as int < 0x1_0000
    ensures IsUtf8Char(EncodeChar(ch)) && DecodeChar(EncodeChar(ch)) == ch
  {
    var x := ch as int;
    var q := x / 0x40;
    Split(x, 0x40, q, x % 0x40);
    Split(q, 0x40, q / 0x40, q % 0x40);
    Split(x, 0x1000, q / 0x40, q % 0x40 * 0x40 + x % 0x40);
    var c := EncodeChar(ch);
    assert |c| == 3 && IsUtf8Char3(c);
  }

  /** A scalar value from 0x10000 on encodes as UTF8-4 and decodes back. */
  lemma EncodeChar4(ch: char)
    requires 0x1_0000 <= ch as int
    ensures IsUtf8Char(EncodeChar(ch)) && DecodeChar(EncodeChar(ch)) == ch
  {
    var x := ch as int;
    var q := x / 0x40;
    var p := q / 0x40;
    Split(x, 0x40, q, x % 0x40);
    Split(q, 0x40, p, q % 0x40);
    Split(x, 0x1000, p, q % 0x40 * 0x40 + x % 0x40);
    Split(p, 0x40, p / 0x40, p % 0x40);
    Split(x, 0x4_0000, p / 0x40, p % 0x40 * 0x1000 + q % 0x40 * 0x40 + x % 0x40);
    var c := EncodeChar(ch);
    assert |c| == 4 && IsUtf8Char4(c);
  }

  /** Every scalar value encodes to one UTF8-char that decodes back to it. */
  lemma EncodeCharIsUtf8Char(ch: char)
    ensures IsUtf8Char(EncodeChar(ch))
    ensures DecodeChar(EncodeChar(ch)) == ch
  {
    if ch as int < 0x800 {
      EncodeShortChar(ch);
    } else if ch as int < 0x1_0000 {
      EncodeChar3(ch);
    } else {
      EncodeChar4(ch);
    }
  }

  /** Division by a power of two of a value given by its quotient and remainder. */
  lemma Split(x: int, d: int, q: int, r: int)
    requires d == 0x40 || d == 0x1000 || d == 0x4_0000
    requires x == q * d + r && 0 <= r < d
    ensures x / d == q && x % d == r
  {
  }

  /** Every UTF8-char is the encoding of the scalar value it decodes to. */
  lemma DecodeCharEncodes(c: seq<u8>)
    requires IsUtf8Char(c)
    ensures EncodeChar(DecodeChar(c)) == c
  {
    var x := DecodeChar(c) as int;
    if |c| == 2 {
      Split(x, 0x40, c[0] as int - 0xC0, Payload(c[1]));
    } else if |c| == 3 {
      var hi, mid, lo := c[0] as int - 0xE0, Payload(c[1]), Payload(c[2]);
      Split(x, 0x40, hi * 0x40 + mid, lo);
      Split(x / 0x40, 0x40, hi, mid);
      Split(x, 0x1000, hi, mid * 0x40 + lo);
    } else if |c| == 4 {
      var top, hi, mid, lo := c[0] as int - 0xF0, Payload(c[1]), Payload(c[2]), Payload(c[3]);
      Split(x, 0x40, top * 0x1000 + hi * 0x40 + mid, lo);
      Split(x / 0x40, 0x40, top * 0x40 + hi, mid);
      Split(x, 0x1000, top * 0x40 + hi, mid * 0x40 + lo);
      Split(x / 0x1000, 0x40, top, hi);
      Split(x, 0x4_0000, top, hi * 0x1000 + mid * 0x40 + lo);
    }
  }

  /**
   * A non-empty well-formed sequence is the character its leading byte
   * announces followed by a well-formed rest, and nothing else.
   */
  lemma IsUtf8Unfold(s: seq<u8>)
    requires s != []
    ensures IsUtf8(s) <==> CharWidth(s) > 0 && IsUtf8(s[CharWidth(s)..])
  {
    var n := CharWidth(s);
    if n > 0 && IsUtf8(s[n..]) {
      assert 1 <= n <= |s| && n <= 4 && IsUtf8Char(s[..n]) && IsUtf8(s[n..]);
    }
  }

  /**
   * `String::from_utf8`: the text the bytes encode, or no text when they
   * are not well-formed UTF-8.
   */
  function FromUtf8(s: seq<u8>): (r: Option<string>)
    ensures r.Some? <==> IsUtf8(s)
    ensures r.Some? ==> Encode(r.value) == s
    decreases |s|
  {
    if s == [] then Some([])
    else
      IsUtf8Unfold(s);
      var n := CharWidth(s);
      if n == 0 then None
      else
        match FromUtf8(s[n..])
        case None => None
        case Some(rest) =>
          var ch := DecodeChar(s[..n]);
          DecodeCharEncodes(s[..n]);
          EncodeJoin(s, n, ch, rest);
          Some([ch] + rest)
  }

  /** Decoding undoes encoding: every text survives the round trip. */
  lemma {:induction false} FromUtf8Encode(t: string)
    ensures FromUtf8(Encode(t)) == Some(t)
  {
    if t != [] {
      var c := EncodeChar(t[0]);
      var s := Encode(t);
      EncodeCharIsUtf8Char(t[0]);
      assert s[..|c|] == c;
      assert s[|c|..] == Encode(t[1..]);
      FromUtf8Encode(t[1..]);
      assert t == [t[0]] + t[1..];
    }
  }
}
