/**
 * Uri.EscapeDataString: every character outside the unreserved set of
 * section 2.3 of RFC 3986 is written as the percent-encoded octets
 * (section 2.1 of RFC 3986) of its UTF-8 form, with upper-case hex digits.
 */
module Escaping {
  import opened Outcomes

  type Byte = x: int | 0 <= x < 256

  /** ALPHA / DIGIT / "-" / "." / "_" / "~" (section 2.3 of RFC 3986). */
  predicate Unreserved(c: char) {
    ('A' <= c <= 'Z') || ('a' <= c <= 'z') || ('0' <= c <= '9')
    || c == '-' || c == '.' || c == '_' || c == '~'
  }

  /** The UTF-8 octets of one Unicode scalar value. */
  function Utf8(c: char): (bytes: seq<Byte>)
    ensures 1 <= |bytes| <= 4
    ensures (c as int < 0x80) == (|bytes| == 1)
  {
    var n := c as int;
    if n < 0x80 then [n]
    else if n < 0x800 then [0xC0 + n / 0x40, 0x80 + n % 0x40]
    else if n < 0x1_0000 then [0xE0 + n / 0x1000, 0x80 + (n / 0x40) % 0x40, 0x80 + n % 0x40]
    else [0xF0 + n / 0x4_0000, 0x80 + (n / 0x1000) % 0x40, 0x80 + (n / 0x40) % 0x40, 0x80 + n % 0x40]
  }

  /** The UTF-8 octets of a text. */
  function Utf8String(s: string): seq<Byte>
    decreases |s|
  {
    if s == [] then [] else Utf8(s[0]) + Utf8String(s[1..])
  }

  function HexDigit(d: int): (c: char)
    requires 0 <= d < 16
    ensures HexValue(c) == Some(d)
  {
    "0123456789ABCDEF"[d]
  }

  function HexValue(c: char): Option<int> {
    if '0' <= c <= '9' then Some(c as int - '0' as int)
    else if 'A' <= c <= 'F' then Some(c as int - 'A' as int + 10)
    else if 'a' <= c <= 'f' then Some(c as int - 'a' as int + 10)
    else None
  }

  /** "%XX" for every octet. */
  function PercentEncode(bytes: seq<Byte>): (r: string)
    ensures |r| == 3 * |bytes|
    ensures forall i :: 0 <= i < |r| ==> Unreserved(r[i]) || r[i] == '%'
    decreases |bytes|
  {
    if bytes == [] then []
    else ['%', HexDigit(bytes[0] / 16), HexDigit(bytes[0] % 16)] + PercentEncode(bytes[1..])
  }

  function EscapeChar(c: char): string {
    if Unreserved(c) then [c] else PercentEncode(Utf8(c))
  }

  /** Uri.EscapeDataString: the result holds only unreserved characters and '%',
      so it never holds a '&', '=' or white space; unreserved text is unchanged. */
  function EscapeDataString(s: string): (r: string)
    ensures forall i :: 0 <= i < |r| ==> Unreserved(r[i]) || r[i] == '%'
    ensures (forall i :: 0 <= i < |s| ==> Unreserved(s[i])) ==> r == s
    decreases |s|
  {
    if s == [] then [] else EscapeChar(s[0]) + EscapeDataString(s[1..])
  }

  /** Percent-decoding to octets: None for a malformed escape or a character that
      would have had to be escaped. */
  function Unescape(t: string): Option<seq<Byte>>
    decreases |t|
  {
    if t == [] then Some([])
    else if t[0] == '%' then
      if |t| >= 3 && HexValue(t[1]).Some? && HexValue(t[2]).Some? then
        Prepend([HexValue(t[1]).value * 16 + HexValue(t[2]).value], Unescape(t[3..]))
      else None
    else if Unreserved(t[0]) then Prepend([t[0] as int], Unescape(t[1..]))
    else None
  }

  function Prepend(head: seq<Byte>, tail: Option<seq<Byte>>): Option<seq<Byte>> {
    if tail.Some? then Some(head + tail.value) else None
  }

  lemma UnescapeOctet(b: Byte, rest: string)
    ensures Unescape(['%', HexDigit(b / 16), HexDigit(b % 16)] + rest) == Prepend([b], Unescape(rest))
  {
    var t := ['%', HexDigit(b / 16), HexDigit(b % 16)] + rest;
    assert t[3..] == rest;
    assert (b / 16) * 16 + b % 16 == b;
  }

  lemma PrependTwice(head: seq<Byte>, next: seq<Byte>, tail: Option<seq<Byte>>)
    ensures Prepend(head, Prepend(next, tail)) == Prepend(head + next, tail)
  {
    if tail.Some? {
      assert head + (next + tail.value) == (head + next) + tail.value;
    }
  }

  /** One more octet in front keeps the decoding in step with the octets. */
  lemma UnescapeOctetThen(b: Byte, more: seq<Byte>, rest: string)
    requires Unescape(PercentEncode(more) + rest) == Prepend(more, Unescape(rest))
    ensures Unescape(PercentEncode([b] + more) + rest) == Prepend([b] + more, Unescape(rest))
  {
    var tail := PercentEncode(more) + rest;
    assert PercentEncode([b] + more) + rest == ['%', HexDigit(b / 16), HexDigit(b % 16)] + tail by {
      assert ([b] + more)[1..] == more;
    }
    UnescapeOctet(b, tail);
    PrependTwice([b], more, Unescape(rest));
  }

  lemma {:induction false} UnescapePercentEncode(bytes: seq<Byte>, rest: string)
    ensures Unescape(PercentEncode(bytes) + rest) == Prepend(bytes, Unescape(rest))
    decreases |bytes|
  {
    if bytes != [] {
      UnescapePercentEncode(bytes[1..], rest);
      UnescapeOctetThen(bytes[0], bytes[1..], rest);
      assert [bytes[0]] + bytes[1..] == bytes;
    } else {
      assert PercentEncode(bytes) + rest == rest;
      var u := Unescape(rest);
      if u.Some? {
        assert bytes + u.value == u.value;
      }
    }
  }

  /** Percent-decoding an escaped text gives back the UTF-8 octets of the text. */
  lemma {:induction false} UnescapeEscapeDataString(s: string)
    ensures Unescape(EscapeDataString(s)) == Some(Utf8String(s))
    decreases |s|
  {
    if s != [] {
      var c := s[0];
      var rest := EscapeDataString(s[1..]);
      UnescapeEscapeDataString(s[1..]);
      if Unreserved(c) {
        assert ([c] + rest)[1..] == rest;
      } else {
        UnescapePercentEncode(Utf8(c), rest);
      }
    }
  }
}
