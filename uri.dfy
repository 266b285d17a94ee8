/**
 * `encodeURI` and `encodeURIComponent` (ECMA-262, section 19.2.6, URI
 * Handling Functions): every character outside the encoder's unescaped set
 * is written as the UTF-8 bytes of its code point, each as `%XY` with
 * upper-case hexadecimal digits. Also a percent-decoder to bytes, the
 * partner against which the encoders are proved.
 */
module UriEncoding {
  import opened Wrappers
  import opened Decimal

  type Byte = b: int | 0 <= b < 256

  predicate IsAsciiAlpha(c: char)
  {
    'a' <= c <= 'z' || 'A' <= c <= 'Z'
  }

  /** uriUnreserved: ASCII letters, decimal digits and the marks - _ . ! ~ * ' ( ). */
  predicate IsUnreserved(c: char)
  {
    || IsAsciiAlpha(c) || IsDigit(c)
    || c == '-' || c == '_' || c == '.' || c == '!' || c == '~' || c == '*' || c == '\'' || c == '(' || c == ')'
  }

  /** uriReserved and the number sign, which `encodeURI` also leaves alone. */
  predicate IsReservedOrHash(c: char)
  {
    || c == ';' || c == '/' || c == '?' || c == ':' || c == '@' || c == '&'
    || c == '=' || c == '+' || c == '$' || c == ',' || c == '#'
  }

  /** The characters an encoder copies: `encodeURIComponent` (wholeUri false) or `encodeURI` (wholeUri true). */
  predicate Unescaped(c: char, wholeUri: bool)
  {
    IsUnreserved(c) || (wholeUri && IsReservedOrHash(c))
  }

  /** The UTF-8 encoding of one Unicode scalar value. */
  function Utf8(c: char): (bs: seq<Byte>)
    ensures 1 <= |bs| <= 4
    ensures |bs| == 1 <==> c as int < 0x80
    ensures |bs| == 1 ==> bs[0] == c as int
  {
    var cp := c as int;
    if cp < 0x80 then [cp]
    else if cp < 0x800 then [0xC0 + cp / 64, 0x80 + cp % 64]
    else if cp < 0x10000 then [0xE0 + cp / 4096, 0x80 + cp / 64 % 64, 0x80 + cp % 64]
    else [0xF0 + cp / 0x40000, 0x80 + cp / 4096 % 64, 0x80 + cp / 64 % 64, 0x80 + cp % 64]
  }

  /** The UTF-8 encoding of a string. */
  function Utf8String(s: string): seq<Byte>
  {
    if s == [] then [] else Utf8(s[0]) + Utf8String(s[1..])
  }

  predicate IsUpperHex(c: char)
  {
    IsDigit(c) || 'A' <= c <= 'F'
  }

  predicate IsHex(c: char)
  {
    IsUpperHex(c) || 'a' <= c <= 'f'
  }

  function HexDigit(d: nat): (c: char)
    requires d < 16
    ensures IsUpperHex(c)
  {
    if d < 10 then ('0' as int + d) as char else ('A' as int + d - 10) as char
  }

  /** The value of a hexadecimal digit, either case, as the decoders read it. */
  function HexValue(c: char): (d: nat)
    requires IsHex(c)
    ensures d < 16
  {
    if c <= '9' then c as int - '0' as int
    else if c <= 'F' then c as int - 'A' as int + 10
    else c as int - 'a' as int + 10
  }

  lemma HexDigitValue(d: nat)
    requires d < 16
    ensures HexValue(HexDigit(d)) == d
  {
  }

  /** One byte as a `%XY` escape. */
  function PercentEscape(b: Byte): string
  {
    ['%', HexDigit(b / 16), HexDigit(b % 16)]
  }

  function EscapeBytes(bs: seq<Byte>): string
  {
    if bs == [] then "" else PercentEscape(bs[0]) + EscapeBytes(bs[1..])
  }

  function EncodeChar(c: char, wholeUri: bool): string
  {
    if Unescaped(c, wholeUri) then [c] else EscapeBytes(Utf8(c))
  }

  function Encode(s: string, wholeUri: bool): string
  {
    if s == [] then "" else EncodeChar(s[0], wholeUri) + Encode(s[1..], wholeUri)
  }

  /** `encodeURI(s)`. */
  function EncodeURI(s: string): string
  {
    Encode(s, true)
  }

  /** `encodeURIComponent(s)`. */
  function EncodeURIComponent(s: string): string
  {
    Encode(s, false)
  }

  /** `bs` followed by a decoded remainder; None stays None. */
  function Prepend(bs: seq<Byte>, rest: Option<seq<Byte>>): Option<seq<Byte>>
  {
    match rest
    case None => None
    case Some(r) => Some(bs + r)
  }

  /**
   * Percent-decoding to bytes, as a URI's consumer undoes the encoding: `%XY`
   * is the byte XY, an ASCII character is its own byte; a stray `%` or a
   * non-ASCII character is malformed.
   */
  function DecodeBytes(s: string): Option<seq<Byte>>
  {
    if s == [] then Some([])
    else if s[0] == '%' then
      if |s| >= 3 && IsHex(s[1]) && IsHex(s[2])
      then Prepend([HexValue(s[1]) * 16 + HexValue(s[2])], DecodeBytes(s[3..]))
      else None
    else if s[0] as int < 0x80 then Prepend([s[0] as int], DecodeBytes(s[1..]))
    else None
  }

  /** Encoding is character by character: it distributes over concatenation. */
  lemma {:induction false} EncodeAppend(a: string, b: string, wholeUri: bool)
    ensures Encode(a + b, wholeUri) == Encode(a, wholeUri) + Encode(b, wholeUri)
  {
    if a == [] {
      assert a + b == b;
    } else {
      assert (a + b)[0] == a[0];
      assert (a + b)[1..] == a[1..] + b;
      EncodeAppend(a[1..], b, wholeUri);
    }
  }

  /** Text made only of characters the encoder copies is left unchanged. */
  lemma {:induction false} EncodeKeeps(s: string, wholeUri: bool)
    requires forall i :: 0 <= i < |s| ==> Unescaped(s[i], wholeUri)
    ensures Encode(s, wholeUri) == s
  {
    if s != [] {
      EncodeKeeps(s[1..], wholeUri);
    }
  }

  lemma DecodeOneEscape(b: Byte, rest: string)
    ensures DecodeBytes(PercentEscape(b) + rest) == Prepend([b], DecodeBytes(rest))
  {
    var t := PercentEscape(b) + rest;
    HexDigitValue(b / 16);
    HexDigitValue(b % 16);
    assert t[0] == '%' && t[1] == HexDigit(b / 16) && t[2] == HexDigit(b % 16);
    assert t[3..] == rest;
  }

  lemma {:induction false} DecodeEscapes(bs: seq<Byte>, rest: string)
    ensures DecodeBytes(EscapeBytes(bs) + rest) == Prepend(bs, DecodeBytes(rest))
  {
    if bs == [] {
      assert EscapeBytes(bs) + rest == rest;
      if DecodeBytes(rest).Some? {
        assert bs + DecodeBytes(rest).value == DecodeBytes(rest).value;
      }
    } else {
      assert EscapeBytes(bs) + rest == PercentEscape(bs[0]) + (EscapeBytes(bs[1..]) + rest);
      DecodeOneEscape(bs[0], EscapeBytes(bs[1..]) + rest);
      DecodeEscapes(bs[1..], rest);
      if DecodeBytes(rest).Some? {
        assert [bs[0]] + (bs[1..] + DecodeBytes(rest).value) == bs + DecodeBytes(rest).value;
      }
    }
  }

  /** Percent-decoding undoes either encoder, giving the UTF-8 bytes of the original text. */
  lemma {:induction false} DecodeEncode(s: string, wholeUri: bool)
    ensures DecodeBytes(Encode(s, wholeUri)) == Some(Utf8String(s))
  {
    if s != [] {
      var c := s[0];
      DecodeEncode(s[1..], wholeUri);
      if Unescaped(c, wholeUri) {
        assert c as int < 0x80;
        assert (EncodeChar(c, wholeUri) + Encode(s[1..], wholeUri))[1..] == Encode(s[1..], wholeUri);
      } else {
        DecodeEscapes(Utf8(c), Encode(s[1..], wholeUri));
      }
    }
  }

  /** Characters other than `%` and the upper-case hexadecimal digits occur in the encoding exactly where the encoder copied them. */
  lemma {:induction false} EncodeContains(s: string, wholeUri: bool, x: char)
    requires x != '%' && !IsUpperHex(x)
    ensures x in Encode(s, wholeUri) <==> x in s && Unescaped(x, wholeUri)
  {
    if s != [] {
      EncodeContains(s[1..], wholeUri, x);
      var c := s[0];
      assert x in EncodeChar(c, wholeUri) <==> x == c && Unescaped(x, wholeUri) by {
        if !Unescaped(c, wholeUri) {
          EscapesAlphabet(Utf8(c), x);
        }
      }
      assert s == [c] + s[1..];
    }
  }

  lemma {:induction false} EscapesAlphabet(bs: seq<Byte>, x: char)
    requires x != '%' && !IsUpperHex(x)
    ensures x !in EscapeBytes(bs)
  {
    if bs != [] {
      EscapesAlphabet(bs[1..], x);
    }
  }

  /** `encodeURIComponent` output holds no `&`, `=`, `#` or `?`: it cannot split a query string. */
  lemma ComponentHasNoDelimiters(s: string)
    ensures '&' !in EncodeURIComponent(s) && '=' !in EncodeURIComponent(s)
    ensures '#' !in EncodeURIComponent(s) && '?' !in EncodeURIComponent(s)
  {
    EncodeContains(s, false, '&');
    EncodeContains(s, false, '=');
    EncodeContains(s, false, '#');
    EncodeContains(s, false, '?');
  }

  /** `encodeURI` leaves `&`, `=`, `?`, `/` and `#` as they are: one occurs in the output exactly when it occurs in the input. */
  lemma UriKeepsDelimiters(s: string, x: char)
    requires x in "&=?/#"
    ensures x in EncodeURI(s) <==> x in s
  {
    EncodeContains(s, true, x);
  }

  /** Replacing every `%` by `%25`: what a second round of encoding does to already-encoded text. */
  function EscapePercents(t: string): string
  {
    if t == [] then "" else (if t[0] == '%' then "%25" else [t[0]]) + EscapePercents(t[1..])
  }

  /** Every character of an encoding is one the encoder copies, or `%`. */
  lemma {:induction false} EncodeAlphabet(s: string, wholeUri: bool)
    ensures forall i :: 0 <= i < |Encode(s, wholeUri)| ==>
      Unescaped(Encode(s, wholeUri)[i], wholeUri) || Encode(s, wholeUri)[i] == '%'
  {
    if s != [] {
      EncodeAlphabet(s[1..], wholeUri);
      EscapesUnescaped(Utf8(s[0]), wholeUri);
    }
  }

  lemma {:induction false} EscapesUnescaped(bs: seq<Byte>, wholeUri: bool)
    ensures forall i :: 0 <= i < |EscapeBytes(bs)| ==> Unescaped(EscapeBytes(bs)[i], wholeUri) || EscapeBytes(bs)[i] == '%'
  {
    if bs != [] {
      EscapesUnescaped(bs[1..], wholeUri);
    }
  }

  /** `encodeURI` escapes a percent sign as `%25`. */
  lemma PercentEscaped()
    ensures EncodeChar('%', true) == "%25"
  {
    assert !Unescaped('%', true);
    assert Utf8('%') == [0x25];
    assert PercentEscape(0x25) == ['%', HexDigit(2), HexDigit(5)];
  }

  lemma {:induction false} UriOfEncodedText(t: string)
    requires forall i :: 0 <= i < |t| ==> Unescaped(t[i], true) || t[i] == '%'
    ensures EncodeURI(t) == EscapePercents(t)
  {
    if t != [] {
      UriOfEncodedText(t[1..]);
      if t[0] == '%' {
        PercentEscaped();
      }
    }
  }

  /**
   * `encodeURI(encodeURIComponent(s))` escapes the component encoding a
   * second time: each of its `%` becomes `%25` and nothing else changes.
   */
  lemma DoubleEncoding(s: string)
    ensures EncodeURI(EncodeURIComponent(s)) == EscapePercents(EncodeURIComponent(s))
  {
    EncodeAlphabet(s, false);
    UriOfEncodedText(EncodeURIComponent(s));
  }
}
