/** Percent-encoding with the characters a query may hold (sections 2.1 and 3.4 of RFC 3986), as used
    for the fragment of an ss URI in Proxy.swift. */
module Percent {
  import opened Alphabets
  import opened Basics
  import opened Text

  /** CharacterSet.urlQueryAllowed. */
  predicate Allowed(c: char) {
    'A' <= c <= 'Z' || 'a' <= c <= 'z' || '0' <= c <= '9' || c in "!$&'()*+,-./:;=?@_~"
  }

  function Hex(v: nat): char
    requires v < 16
  {
    if v < 10 then ('0' as int + v) as char else ('A' as int + v - 10) as char
  }

  function HexValue(c: char): (r: Option<nat>)
    ensures r.Some? ==> r.value < 16
  {
    if '0' <= c <= '9' then Some(c as int - '0' as int)
    else if 'A' <= c <= 'F' then Some(c as int - 'A' as int + 10)
    else if 'a' <= c <= 'f' then Some(c as int - 'a' as int + 10)
    else None
  }

  /** addingPercentEncoding. */
  function Encode(s: string): string
    requires Bytes(s)
  {
    if s == "" then ""
    else (if Allowed(s[0]) then [s[0]] else ['%', Hex(s[0] as int / 16), Hex(s[0] as int % 16)]) + Encode(s[1..])
  }

  function Decoded(s: string): Option<string> {
    if s == "" then Some("")
    else if s[0] != '%' then
      match Decoded(s[1..])
      case Some(r) => Some([s[0]] + r)
      case None => None
    else if |s| < 3 then None
    else match (HexValue(s[1]), HexValue(s[2]), Decoded(s[3..]))
         case (Some(h), Some(l), Some(r)) => Some([(16 * h + l) as char] + r)
         case _ => None
  }

  /** removingPercentEncoding: nil for a stray percent sign or bytes that are no text. */
  function Decode(s: string): Option<string> {
    match Decoded(s)
    case Some(r) => if Utf8(r) then Some(r) else None
    case None => None
  }

  lemma HexBack(c: char)
    requires c < 256 as char
    ensures HexValue(Hex(c as int / 16)) == Some(c as int / 16)
    ensures HexValue(Hex(c as int % 16)) == Some(c as int % 16)
    ensures (16 * (c as int / 16) + c as int % 16) as char == c
  {
  }

  lemma {:induction false} DecodedEncode(s: string)
    requires Bytes(s)
    ensures Decoded(Encode(s)) == Some(s)
    ensures '#' !in Encode(s)
  {
    hide Hex, HexValue, Allowed;
    if s != "" {
      var c := s[0];
      DecodedEncode(s[1..]);
      var e := Encode(s);
      if Allowed(c) {
        AllowedIsPlain(c);
        assert e == [c] + Encode(s[1..]);
        assert e[1..] == Encode(s[1..]);
        assert s == [c] + s[1..];
      } else {
        EscapeBack(c, Encode(s[1..]));
        assert s == [c] + s[1..];
      }
    }
  }

  lemma EscapeBack(c: char, rest: string)
    requires c < 256 as char && Decoded(rest).Some? && '#' !in rest
    ensures var e := ['%', Hex(c as int / 16), Hex(c as int % 16)] + rest;
            Decoded(e) == Some([c] + Decoded(rest).value) && '#' !in e
  {
    hide Hex, HexValue;
    var e := ['%', Hex(c as int / 16), Hex(c as int % 16)] + rest;
    assert e[3..] == rest;
    HexBack(c);
    HexIsPlain(c as int / 16);
    HexIsPlain(c as int % 16);
  }

  lemma AllowedIsPlain(c: char)
    requires Allowed(c)
    ensures c != '%' && c != '#'
  {
  }

  lemma HexIsPlain(v: nat)
    requires v < 16
    ensures Hex(v) != '#'
  {
  }

  /** Every text is restored, and its encoding cannot be mistaken for a fragment separator. */
  lemma RoundTrip(s: string)
    requires Utf8(s)
    ensures Bytes(s) && Decode(Encode(s)) == Some(s) && '#' !in Encode(s)
  {
    Utf8Bytes(s);
    DecodedEncode(s);
  }

  // ---- The characters ----

  const HEX_UPPER := "0123456789ABCDEF"
  const HEX_LOWER := "0123456789abcdef"

  /** Hexadecimal digits are written in upper case and read in both. */
  lemma HexIs(v: nat)
    requires v < 16
    ensures |HEX_UPPER| == 16 && |HEX_LOWER| == 16
    ensures Hex(v) == HEX_UPPER[v] && HexValue(HEX_UPPER[v]) == Some(v) && HexValue(HEX_LOWER[v]) == Some(v)
  {
  }

  lemma HexOnly(c: char)
    requires HexValue(c).Some?
    ensures |HEX_UPPER| == 16 && |HEX_LOWER| == 16
    ensures c == HEX_UPPER[HexValue(c).value] || c == HEX_LOWER[HexValue(c).value]
  {
  }

  /** What a query may hold: pchar, slash and question mark (sections 3.3 and 3.4 of RFC 3986). */
  predicate QueryChar(c: char) {
    || IsUpper(c) || IsLower(c) || IsDigit(c) || c in "-._~" // unreserved
    || c in "!$&'()*+,;="                                    // sub-delims
    || c in ":@/?"
  }

  lemma AllowedIs(c: char)
    ensures Allowed(c) <==> QueryChar(c)
  {
    hide IsUpper, IsLower, IsDigit;
    UpperIs(c);
    LowerIs(c);
    DigitIs(c);
  }

  /** A character is left alone if a query may hold it, and escaped by its two digits otherwise. */
  lemma EncodeIs(c: char, rest: string)
    requires c < 256 as char && Bytes(rest)
    ensures Bytes([c] + rest) && |HEX_UPPER| == 16
    ensures Encode([c] + rest) ==
            (if QueryChar(c) then [c] else "%" + [HEX_UPPER[c as int / 16], HEX_UPPER[c as int % 16]]) + Encode(rest)
  {
    hide Allowed, QueryChar, Hex;
    AllowedIs(c);
    HexIs(c as int / 16);
    HexIs(c as int % 16);
    assert ([c] + rest)[1..] == rest;
  }

  /** An escape is read in either case, any other character stands for itself, and a percent sign
      without two digits makes the text unreadable. */
  lemma DecodedIs(c: char, h: char, l: char, rest: string)
    ensures c != '%' ==>
              Decoded([c] + rest) == if Decoded(rest).Some? then Some([c] + Decoded(rest).value) else None
    ensures HexValue(h).Some? && HexValue(l).Some? ==>
              Decoded("%" + [h, l] + rest) ==
              if Decoded(rest).Some?
              then Some([(16 * HexValue(h).value + HexValue(l).value) as char] + Decoded(rest).value)
              else None
    ensures HexValue(h).None? || HexValue(l).None? ==> Decoded("%" + [h, l] + rest).None?
    ensures Decoded("%").None? && Decoded(['%', h]).None?
  {
    hide HexValue;
    assert ([c] + rest)[1..] == rest;
    assert ("%" + [h, l] + rest)[3..] == rest;
  }

  /** Escapes of bytes that are no text are refused. */
  lemma DecodeIs(s: string)
    ensures Decode(s) == if Decoded(s).Some? && Utf8(Decoded(s).value) then Decoded(s) else None
  {
  }
}
