/** base64EncodeUrlSafe and base64DecodeUrlSafe of Proxy.swift: base64 (section 4 of RFC 4648) with
    the URL-safe alphabet (section 5) and without padding (section 3.2). */
module Base64 {
  import opened Alphabets
  import opened Basics
  import opened Text

  function Digit(v: nat): char
    requires v < 64
  {
    if v < 26 then ('A' as int + v) as char
    else if v < 52 then ('a' as int + v - 26) as char
    else if v < 62 then ('0' as int + v - 52) as char
    else if v == 62 then '+' else '/'
  }

  function Value(c: char): (r: Option<nat>)
    ensures r.Some? ==> r.value < 64
  {
    if 'A' <= c <= 'Z' then Some(c as int - 'A' as int)
    else if 'a' <= c <= 'z' then Some(c as int - 'a' as int + 26)
    else if '0' <= c <= '9' then Some(c as int - '0' as int + 52)
    else if c == '+' then Some(62) else if c == '/' then Some(63) else None
  }

  lemma ValueDigit(v: nat)
    requires v < 64
    ensures Value(Digit(v)) == Some(v)
  {
  }

  /** The digits of one to three bytes. */
  function Digits3(a: nat, b: nat, c: nat): (r: string)
    requires a < 256 && b < 256 && c < 256
    ensures |r| == 4 && forall i :: 0 <= i < 4 ==> Value(r[i]).Some?
  {
    [Digit(a / 4), Digit(a % 4 * 16 + b / 16), Digit(b % 16 * 4 + c / 64), Digit(c % 64)]
  }

  function Digits(s: string): string
    requires Bytes(s)
  {
    if s == "" then ""
    else if |s| == 1 then Digits3(s[0] as int, 0, 0)[..2]
    else if |s| == 2 then Digits3(s[0] as int, s[1] as int, 0)[..3]
    else Digits3(s[0] as int, s[1] as int, s[2] as int) + Digits(s[3..])
  }

  function Padding(n: nat): string {
    if n % 3 == 1 then "==" else if n % 3 == 2 then "=" else ""
  }

  /** base64EncodedData. */
  function Encode(s: string): string
    requires Bytes(s)
  {
    Digits(s) + Padding(|s|)
  }

  /** One group of four digits, with up to two padding characters, as bytes. */
  function Bytes3(t: string): Option<string>
    requires |t| == 4
  {
    match (Value(t[0]), Value(t[1]), Value(t[2]), Value(t[3]))
    case (Some(p), Some(q), Some(r), Some(s)) =>
      Some([(p * 4 + q / 16) as char, (q % 16 * 16 + r / 4) as char, (r % 4 * 64 + s) as char])
    case (Some(p), Some(q), Some(r), None) =>
      if t[3] == '=' then Some([(p * 4 + q / 16) as char, (q % 16 * 16 + r / 4) as char]) else None
    case (Some(p), Some(q), None, None) =>
      if t[2] == '=' && t[3] == '=' then Some([(p * 4 + q / 16) as char]) else None
    case _ => None
  }

  /** Data(base64Encoded:) without options; padding may only end the text. */
  function Decode(t: string): Option<string> {
    if t == "" then Some("")
    else if |t| < 4 then None
    else if '=' in t[..4] && |t| > 4 then None
    else match (Bytes3(t[..4]), Decode(t[4..]))
         case (Some(a), Some(b)) => Some(a + b)
         case _ => None
  }

  function Replaced(s: string, a: char, b: char): (r: string)
    ensures |r| == |s| && forall i :: 0 <= i < |s| ==> r[i] == if s[i] == a then b else s[i]
  {
    seq(|s|, i requires 0 <= i < |s| => if s[i] == a then b else s[i])
  }

  function Removed(s: string, c: char): string {
    if s == "" then "" else (if s[0] == c then "" else [s[0]]) + Removed(s[1..], c)
  }

  /** base64EncodeUrlSafe; None is nil. */
  function EncodeUrlSafe(orig: Option<string>): string
    requires orig.Some? ==> Bytes(orig.value)
  {
    match orig
    case None => ""
    case Some(s) => Removed(Replaced(Replaced(Encode(s), '+', '-'), '/', '_'), '=')
  }

  function Repeat(c: char, n: nat): string {
    seq(n, i => c)
  }

  /** base64DecodeUrlSafe; a text with a colon is passed through. */
  function DecodeUrlSafe(s: string): Option<string> {
    if ':' in s then Some(s)
    else
      var t := Replaced(Replaced(s, '-', '+'), '_', '/');
      var u := t + Repeat('=', if |t| % 4 != 0 then 4 - |t| % 4 else 0);
      match Decode(u)
      case None => None
      case Some(d) => if Utf8(d) then Some(d) else None
  }

  lemma {:induction false} DigitsShape(s: string)
    requires Bytes(s)
    ensures forall i :: 0 <= i < |Digits(s)| ==> Value(Digits(s)[i]).Some?
    ensures |Digits(s)| == |s| / 3 * 4 + (if |s| % 3 == 0 then 0 else 1 + |s| % 3)
  {
    hide Value, Digits3;
    if |s| >= 3 {
      DigitsShape(s[3..]);
      assert |s[3..]| / 3 == |s| / 3 - 1;
    }
  }

  /** Three bytes are the same bits as four digits. */
  lemma Bits(a: nat, b: nat, c: nat)
    requires a < 256 && b < 256 && c < 256
    ensures var (p, q, r, s) := (a / 4, a % 4 * 16 + b / 16, b % 16 * 4 + c / 64, c % 64);
            && p < 64 && q < 64 && r < 64 && s < 64
            && p * 4 + q / 16 == a && q % 16 * 16 + r / 4 == b && r % 4 * 64 + s == c
  {
  }

  lemma PaddingIsNoDigit()
    ensures Value('=') == None
  {
  }

  lemma GroupOfThree(a: nat, b: nat, c: nat)
    requires a < 256 && b < 256 && c < 256
    ensures Bytes3(Digits3(a, b, c)) == Some([a as char, b as char, c as char])
  {
    hide Value, Digit;
    Bits(a, b, c);
    ValueDigit(a / 4);
    ValueDigit(a % 4 * 16 + b / 16);
    ValueDigit(b % 16 * 4 + c / 64);
    ValueDigit(c % 64);
  }

  lemma GroupOfTwo(a: nat, b: nat)
    requires a < 256 && b < 256
    ensures Bytes3(Digits3(a, b, 0)[..3] + "=") == Some([a as char, b as char])
  {
    hide Value, Digit;
    Bits(a, b, 0);
    ValueDigit(a / 4);
    ValueDigit(a % 4 * 16 + b / 16);
    ValueDigit(b % 16 * 4);
    PaddingIsNoDigit();
  }

  lemma GroupOfOne(a: nat)
    requires a < 256
    ensures Bytes3(Digits3(a, 0, 0)[..2] + "==") == Some([a as char])
  {
    hide Value, Digit;
    Bits(a, 0, 0);
    ValueDigit(a / 4);
    ValueDigit(a % 4 * 16);
    PaddingIsNoDigit();
  }

  /** Decoding undoes encoding. */
  lemma {:induction false} RoundTrip(s: string)
    requires Bytes(s)
    ensures Decode(Encode(s)) == Some(s)
  {
    hide Bytes3, Digits3, Value;
    if s == "" {
    } else if |s| < 3 {
      LastGroup(s);
    } else {
      var d := Digits3(s[0] as int, s[1] as int, s[2] as int);
      GroupOfThree(s[0] as int, s[1] as int, s[2] as int);
      PaddingIsNoDigit();
      RoundTrip(s[3..]);
      var t := Encode(s);
      assert t == d + Encode(s[3..]) by { assert |s[3..]| % 3 == |s| % 3; }
      assert t[..4] == d && t[4..] == Encode(s[3..]);
      assert s == [s[0], s[1], s[2]] + s[3..];
    }
  }

  lemma LastGroup(s: string)
    requires Bytes(s) && 0 < |s| < 3
    ensures Decode(Encode(s)) == Some(s)
  {
    hide Bytes3, Digits3, Value;
    var t := Encode(s);
    assert |t| == 4 && t[..4] == t && t[4..] == "";
    assert Decode("") == Some("");
    if |s| == 1 {
      GroupOfOne(s[0] as int);
      assert [s[0]] + "" == s;
    } else {
      GroupOfTwo(s[0] as int, s[1] as int);
      assert [s[0], s[1]] + "" == s;
    }
  }

  lemma {:induction false} RemovedEnd(s: string, c: char, n: nat)
    requires c !in s
    ensures Removed(s + Repeat(c, n), c) == s
    decreases |s|, n
  {
    if s == "" {
      if n > 0 {
        assert (s + Repeat(c, n))[1..] == "" + Repeat(c, n - 1);
        RemovedEnd(s, c, n - 1);
      }
    } else {
      assert (s + Repeat(c, n))[1..] == s[1..] + Repeat(c, n);
      RemovedEnd(s[1..], c, n);
    }
  }

  /** The characters of an encoded text: letters, digits, '-' and '_'. */
  predicate UrlDigit(c: char) {
    'A' <= c <= 'Z' || 'a' <= c <= 'z' || '0' <= c <= '9' || c == '-' || c == '_'
  }

  function Swapped(s: string): (r: string)
    ensures |r| == |s|
  {
    Replaced(Replaced(s, '+', '-'), '/', '_')
  }

  lemma UrlSafeDigits(s: string)
    requires Bytes(s)
    ensures EncodeUrlSafe(Some(s)) == Swapped(Digits(s))
    ensures forall i :: 0 <= i < |EncodeUrlSafe(Some(s))| ==> UrlDigit(EncodeUrlSafe(Some(s))[i])
  {
    hide Digits;
    DigitsShape(s);
    var d, p := Digits(s), Padding(|s|);
    var n := |p|;
    assert p == Repeat('=', n);
    assert Swapped(d + p) == Swapped(d) + Repeat('=', n);
    RemovedEnd(Swapped(d), '=', n);
  }

  /** Swapping the two special digits back restores the standard alphabet. */
  lemma SwappedBack(d: string)
    requires forall i :: 0 <= i < |d| ==> Value(d[i]).Some?
    ensures Replaced(Replaced(Swapped(d), '-', '+'), '_', '/') == d
    ensures ':' !in Swapped(d)
  {
    var r := Replaced(Replaced(Swapped(d), '-', '+'), '_', '/');
    assert forall i :: 0 <= i < |d| ==> r[i] == d[i];
  }

  /** The padding that was dropped is what the length calls for. */
  lemma PaddingBack(s: string)
    requires Bytes(s)
    ensures Digits(s) + Repeat('=', if |Digits(s)| % 4 != 0 then 4 - |Digits(s)| % 4 else 0) == Encode(s)
  {
    hide Digits;
    DigitsShape(s);
  }

  /** Both layers of the codec undo each other for every text. */
  lemma UrlSafeRoundTrip(s: string)
    requires Utf8(s)
    ensures Bytes(s) && DecodeUrlSafe(EncodeUrlSafe(Some(s))) == Some(s)
  {
    hide Digits, Decode, Removed, Replaced, Swapped, Repeat, Encode, Value, EncodeUrlSafe;
    Utf8Bytes(s);
    UrlSafeDigits(s);
    DigitsShape(s);
    SwappedBack(Digits(s));
    PaddingBack(s);
    RoundTrip(s);
  }

  /** Nil and the empty text are encoded alike, so both come back as the empty text. */
  lemma UrlSafeOfNone()
    ensures EncodeUrlSafe(None) == "" && EncodeUrlSafe(Some("")) == "" && DecodeUrlSafe("") == Some("")
  {
    assert Replaced(Replaced("", '+', '-'), '/', '_') == "";
    var t := Replaced(Replaced("", '-', '+'), '_', '/');
    assert t == "" && t + Repeat('=', 0) == "";
  }

  // ---- The alphabet and the bits ----

  /** Table 1 of RFC 4648. */
  const TABLE := UPPER + LOWER + DIGITS + "+/"

  predicate InTable(c: char) {
    c in TABLE
  }

  lemma TableAt(v: nat)
    requires v < 64
    ensures |TABLE| == 64
    ensures TABLE[v] == if v < 26 then UPPER[v] else if v < 52 then LOWER[v - 26]
                        else if v < 62 then DIGITS[v - 52] else if v == 62 then '+' else '/'
  {
  }

  lemma DigitsAreTable(v: nat)
    requires v < 64
    ensures |TABLE| == 64 && Digit(v) == TABLE[v] && Value(TABLE[v]) == Some(v)
  {
    TableAt(v);
    if v < 26 {
      UpperAt(v);
    } else if v < 52 {
      LowerAt(v - 26);
    } else if v < 62 {
      DigitAt(v - 52);
    }
  }

  lemma ValueIsTable(c: char)
    ensures Value(c).Some? <==> InTable(c)
    ensures |TABLE| == 64 && (Value(c).Some? ==> TABLE[Value(c).value] == c)
  {
    hide Value, InTable;
    TableAt(0);
    if Value(c).Some? {
      ValueBack(c);
      DigitsAreTable(Value(c).value);
      AtInTable(Value(c).value);
    }
    if InTable(c) {
      var k := PlaceInTable(c);
      DigitsAreTable(k);
    }
  }

  lemma ValueBack(c: char)
    requires Value(c).Some?
    ensures Digit(Value(c).value) == c
  {
  }

  lemma AtInTable(k: nat)
    requires k < |TABLE|
    ensures InTable(TABLE[k])
  {
  }

  lemma PlaceInTable(c: char) returns (k: nat)
    requires InTable(c)
    ensures k < |TABLE| && TABLE[k] == c
  {
    k :| k < |TABLE| && TABLE[k] == c;
  }

  /** Three bytes are written as the four digits of the same 24-bit number, most significant first. */
  lemma DigitsAreBits(a: nat, b: nat, c: nat)
    requires a < 256 && b < 256 && c < 256
    ensures var d := Digits3(a, b, c);
            0x4_0000 * Value(d[0]).value + 0x1000 * Value(d[1]).value + 0x40 * Value(d[2]).value + Value(d[3]).value
            == 0x1_0000 * a + 0x100 * b + c
  {
    hide Value, Digit;
    Bits(a, b, c);
    ValueDigit(a / 4);
    ValueDigit(a % 4 * 16 + b / 16);
    ValueDigit(b % 16 * 4 + c / 64);
    ValueDigit(c % 64);
  }

  /** Four digits are read as the three bytes of the same 24-bit number; with padding, as its first one
      or two. */
  lemma BytesAreBits(p: nat, q: nat, r: nat, s: nat)
    requires p < 64 && q < 64 && r < 64 && s < 64
    ensures |TABLE| == 64
    ensures var n := 0x4_0000 * p + 0x1000 * q + 0x40 * r + s;
            var (a, b, c) := (n / 0x1_0000, n / 0x100 % 0x100, n % 0x100);
            && Bytes3([TABLE[p], TABLE[q], TABLE[r], TABLE[s]]) == Some([a as char, b as char, c as char])
            && Bytes3([TABLE[p], TABLE[q], TABLE[r], '=']) == Some([a as char, b as char])
            && Bytes3([TABLE[p], TABLE[q], '=', '=']) == Some([a as char])
  {
    hide Value;
    DigitsAreTable(p);
    DigitsAreTable(q);
    DigitsAreTable(r);
    DigitsAreTable(s);
    PaddingIsNoDigit();
    GroupNumber(p, q, r, s);
  }

  lemma GroupNumber(p: nat, q: nat, r: nat, s: nat)
    requires p < 64 && q < 64 && r < 64 && s < 64
    ensures var n := 0x4_0000 * p + 0x1000 * q + 0x40 * r + s;
            && n / 0x1_0000 == p * 4 + q / 16 && n / 0x100 % 0x100 == q % 16 * 16 + r / 4
            && n % 0x100 == r % 4 * 64 + s
            && p * 4 + q / 16 < 0x100 && q % 16 * 16 + r / 4 < 0x100 && r % 4 * 64 + s < 0x100
  {
    BytesOfNumber(p * 4 + q / 16, q % 16 * 16 + r / 4, r % 4 * 64 + s);
    SameNumber(p, q / 16, q % 16, r / 4, r % 4, s);
  }

  lemma BytesOfNumber(a: nat, b: nat, c: nat)
    requires a < 0x100 && b < 0x100 && c < 0x100
    ensures var n := 0x1_0000 * a + 0x100 * b + c;
            n / 0x1_0000 == a && n / 0x100 == 0x100 * a + b && n / 0x100 % 0x100 == b && n % 0x100 == c
  {
    assert (0x1_0000 * a + 0x100 * b + c) / 0x100 == 0x100 * a + b;
  }

  lemma SameNumber(p: nat, q1: nat, q0: nat, r1: nat, r0: nat, s: nat)
    ensures 0x4_0000 * p + 0x1000 * (q1 * 16 + q0) + 0x40 * (r1 * 4 + r0) + s ==
            0x1_0000 * (p * 4 + q1) + 0x100 * (q0 * 16 + r1) + (r0 * 64 + s)
  {
  }

  /** Groups of four digits, of which the last may end in one or two padding characters. */
  ghost predicate Grouped(t: string) {
    && |t| % 4 == 0
    && forall i :: 0 <= i < |t| ==>
         InTable(t[i]) || (t[i] == '=' && (i == |t| - 1 || (i == |t| - 2 && t[|t| - 1] == '=')))
  }

  /** Data(base64Encoded:) refuses every other text. */
  lemma {:induction false} DecodeExactly(t: string)
    ensures Decode(t).Some? <==> Grouped(t)
  {
    hide Value, Bytes3, Grouped, InTable;
    if |t| < 4 {
      GroupedShort(t);
    } else {
      GroupExactly(t[..4]);
      DecodeExactly(t[4..]);
      GroupedSplits(t);
    }
  }

  lemma GroupedShort(t: string)
    requires |t| < 4
    ensures Grouped(t) <==> t == ""
  {
  }

  /** A longer text is grouped if and only if its first group has no padding and the rest is grouped. */
  lemma GroupedSplits(t: string)
    requires |t| >= 4
    ensures Grouped(t) <==> Grouped(t[..4]) && (|t| > 4 ==> '=' !in t[..4]) && Grouped(t[4..])
  {
    hide InTable;
    var g, rest := t[..4], t[4..];
    PaddingIsNoDigit();
    ValueIsTable('=');
    assert forall i :: 0 <= i < 4 ==> g[i] == t[i];
    assert forall i :: 0 <= i < |rest| ==> rest[i] == t[i + 4];
    assert forall i :: 4 <= i < |t| ==> t[i] == rest[i - 4];
    assert |t| % 4 == 0 <==> |rest| % 4 == 0;
  }

  lemma GroupExactly(g: string)
    requires |g| == 4
    ensures Bytes3(g).Some? <==> Grouped(g)
  {
    hide Value, InTable;
    ValueIsTable(g[0]);
    ValueIsTable(g[1]);
    ValueIsTable(g[2]);
    ValueIsTable(g[3]);
    ValueIsTable('=');
    PaddingIsNoDigit();
  }

  // ---- The URL-safe forms ----

  /** A text with a colon is no base64 and is passed through. */
  lemma ColonPasses(s: string)
    requires ':' in s
    ensures DecodeUrlSafe(s) == Some(s)
  {
  }

  /** Minus and underscore stand for plus and slash, which are read as well. */
  lemma AlphabetsAlike(s: string)
    requires ':' !in s
    ensures DecodeUrlSafe(Swapped(s)) == DecodeUrlSafe(s) && ':' !in Swapped(s)
    ensures forall i :: 0 <= i < |s| ==>
              Swapped(s)[i] == if s[i] == '+' then '-' else if s[i] == '/' then '_' else s[i]
  {
    hide Decode, Repeat;
    var t, u := Swapped(s), Replaced(Replaced(s, '-', '+'), '_', '/');
    assert Replaced(Replaced(t, '-', '+'), '_', '/') == u;
  }

  /** Padding may be there or not. */
  lemma PaddedToo(s: string)
    requires Utf8(s)
    ensures Bytes(s) && DecodeUrlSafe(Encode(s)) == Some(s)
  {
    hide Digits, Decode, Repeat, Value, InTable;
    Utf8Bytes(s);
    DigitsShape(s);
    RoundTrip(s);
    var e := Encode(s);
    assert |e| % 4 == 0;
    EncodedPlain(s);
    assert Replaced(Replaced(e, '-', '+'), '_', '/') == e;
    assert e + Repeat('=', 0) == e by { NoRepeat('='); }
  }

  lemma NoRepeat(c: char)
    ensures Repeat(c, 0) == ""
  {
  }

  lemma EncodedPlain(s: string)
    requires Bytes(s)
    ensures forall c :: c in Encode(s) ==> InTable(c) || c == '='
    ensures ':' !in Encode(s) && '-' !in Encode(s) && '_' !in Encode(s)
  {
    hide Digits, Value, InTable;
    DigitsShape(s);
    forall c | c in Encode(s) ensures InTable(c) || c == '=' {
      var k :| 0 <= k < |Encode(s)| && Encode(s)[k] == c;
      ValueIsTable(c);
    }
    ValueIsTable(':');
    ValueIsTable('-');
    ValueIsTable('_');
    NotInTable();
  }

  lemma NotInTable()
    ensures Value(':').None? && Value('-').None? && Value('_').None?
  {
  }

  /** Padding may be left out; a single digit behind the last group is refused. */
  lemma PaddingOptional(s: string)
    requires ':' !in s
    ensures |s| % 4 == 3 ==> DecodeUrlSafe(s + "=") == DecodeUrlSafe(s)
    ensures |s| % 4 == 2 ==> DecodeUrlSafe(s + "==") == DecodeUrlSafe(s)
    ensures |s| % 4 == 1 ==> DecodeUrlSafe(s) == None
  {
    hide Decode;
    var t := Replaced(Replaced(s, '-', '+'), '_', '/');
    if |s| % 4 == 3 {
      assert Replaced(Replaced(s + "=", '-', '+'), '_', '/') == t + "=";
      assert Repeat('=', 1) == "=" && (t + "=") + Repeat('=', 0) == t + "=";
    } else if |s| % 4 == 2 {
      assert Replaced(Replaced(s + "==", '-', '+'), '_', '/') == t + "==";
      assert Repeat('=', 2) == "==" && (t + "==") + Repeat('=', 0) == t + "==";
    } else if |s| % 4 == 1 {
      var u := t + Repeat('=', 3);
      assert u[|u| - 3] == '=';
      DecodeExactly(u);
      NotThree(u);
    }
  }

  lemma NotThree(u: string)
    requires |u| >= 3 && u[|u| - 3] == '='
    ensures !Grouped(u)
  {
    hide Value, InTable;
    ValueIsTable('=');
    PaddingIsNoDigit();
  }

  /** Bytes that are no text are refused. */
  lemma NoText(s: string)
    requires ':' !in s && '-' !in s && '_' !in s && |s| % 4 == 0
    ensures DecodeUrlSafe(s) == if Decode(s).Some? && Utf8(Decode(s).value) then Decode(s) else None
  {
    hide Decode, Utf8;
    assert Replaced(Replaced(s, '-', '+'), '_', '/') == s;
    NoRepeat('=');
    assert s + "" == s;
  }
}
