/** The string operations Proxy.swift uses. A text is given by its UTF-8 bytes, one char below 256
    for each byte. */
module Text {
  import opened Alphabets
  import opened Basics

  /** How many bytes a character that starts with c takes; 0 if none does (section 3 of RFC 3629). */
  function Lead(c: char): nat {
    if c < 128 as char then 1
    else if 194 as char <= c < 224 as char then 2
    else if 224 as char <= c < 240 as char then 3
    else if 240 as char <= c < 245 as char then 4
    else 0
  }

  predicate Tail(c: char) {
    128 as char <= c < 192 as char
  }

  /** The second byte excludes overlong forms, surrogates and values beyond Unicode. */
  predicate SecondFits(first: char, second: char) {
    && (first == 224 as char ==> second >= 160 as char)
    && (first == 237 as char ==> second < 160 as char)
    && (first == 240 as char ==> second >= 144 as char)
    && (first == 244 as char ==> second < 144 as char)
  }

  /** s starts with a whole character. */
  predicate StartsWell(s: string)
    requires s != ""
  {
    var k := Lead(s[0]);
    && 0 < k <= |s|
    && (k > 1 ==> Tail(s[1]) && SecondFits(s[0], s[1]))
    && (k > 2 ==> Tail(s[2]))
    && (k > 3 ==> Tail(s[3]))
  }

  predicate Utf8(s: string) {
    s == "" || (StartsWell(s) && Utf8(s[Lead(s[0])..]))
  }

  lemma {:induction false} Utf8Append(a: string, b: string)
    requires Utf8(a) && Utf8(b)
    ensures Utf8(a + b)
  {
    hide StartsWell, Lead;
    if a == "" {
      assert a + b == b;
    } else {
      LeadBounds(a);
      var k := Lead(a[0]);
      Utf8Append(a[k..], b);
      assert (a + b)[k..] == a[k..] + b;
      StartsAppend(a, b);
    }
  }

  lemma LeadBounds(a: string)
    requires a != "" && StartsWell(a)
    ensures 0 < Lead(a[0]) <= |a|
  {
  }

  lemma StartsAppend(a: string, b: string)
    requires a != "" && StartsWell(a)
    ensures StartsWell(a + b)
  {
  }

  ghost predicate Ascii(s: string) {
    forall i :: 0 <= i < |s| ==> s[i] < 128 as char
  }

  lemma {:induction false} AsciiUtf8(s: string)
    requires Ascii(s)
    ensures Utf8(s)
  {
    if s != "" {
      assert forall i :: 0 <= i < |s| - 1 ==> s[1..][i] == s[i + 1];
      AsciiUtf8(s[1..]);
    }
  }

  ghost predicate Bytes(s: string) {
    forall i :: 0 <= i < |s| ==> s[i] < 256 as char
  }

  lemma {:induction false} Utf8Bytes(s: string)
    requires Utf8(s)
    ensures Bytes(s)
  {
    if s != "" {
      LeadBounds(s);
      var k := Lead(s[0]);
      Utf8Bytes(s[k..]);
      forall i | 0 <= i < |s| ensures s[i] < 256 as char {
        if i >= k { assert s[i] == s[k..][i - k]; }
      }
    }
  }

  // ---- Searching and splitting ----

  /** The position of the first c, or the length. */
  function First(s: string, c: char): (r: nat)
    ensures r <= |s| && (forall i :: 0 <= i < r ==> s[i] != c) && (r < |s| ==> s[r] == c)
  {
    if s == "" || s[0] == c then 0 else 1 + First(s[1..], c)
  }

  /** The position of the last c, or -1. */
  function Last(s: string, c: char): (r: int)
    ensures -1 <= r < |s| && (forall i :: r < i < |s| ==> s[i] != c) && (r >= 0 ==> s[r] == c)
  {
    if s == "" then -1 else if s[|s| - 1] == c then |s| - 1 else Last(s[..|s| - 1], c)
  }

  lemma FirstIs(a: string, c: char, b: string)
    requires c !in a
    ensures First(a + [c] + b, c) == |a|
  {
    var s := a + [c] + b;
    assert s[|a|] == c;
    forall i | 0 <= i < |a| ensures s[i] != c {
      assert s[i] == a[i] && a[i] in a;
    }
  }

  /** The last position follows the last position of the rest. */
  lemma {:induction false} LastIs(a: string, c: char, b: string)
    requires c !in b
    ensures Last(a + [c] + b, c) == |a|
  {
    var s := a + [c] + b;
    if b == "" {
      assert s == a + [c];
    } else {
      var n := |b| - 1;
      assert b[n] in b && s[|s| - 1] == b[n];
      assert s[..|s| - 1] == a + [c] + b[..n];
      assert forall x :: x in b[..n] ==> x in b;
      LastIs(a, c, b[..n]);
    }
  }

  /** components(separatedBy:). */
  function Split(s: string, c: char): (r: seq<string>)
    ensures |r| >= 1
    decreases |s|
  {
    var i := First(s, c);
    if i == |s| then [s] else [s[..i]] + Split(s[i + 1..], c)
  }

  /** joined(separator:). */
  function Join(parts: seq<string>, c: char): string {
    if parts == [] then "" else if |parts| == 1 then parts[0] else parts[0] + [c] + Join(parts[1..], c)
  }

  /** The first part ends at the first separator. */
  lemma SplitIs(a: string, c: char, b: string)
    requires c !in a
    ensures Split(a, c) == [a] && Split(a + [c] + b, c) == [a] + Split(b, c)
  {
    FirstIs(a, c, b);
    FirstNone(a, c);
    assert (a + [c] + b)[..|a|] == a && (a + [c] + b)[|a| + 1..] == b;
  }

  lemma {:induction false} FirstNone(a: string, c: char)
    requires c !in a
    ensures First(a, c) == |a|
  {
    if a != "" {
      assert a[0] in a;
      FirstNone(a[1..], c);
    }
  }

  /** Splitting undoes joining when no part holds the separator. */
  lemma {:induction false} SplitJoin(parts: seq<string>, c: char)
    requires parts != [] && forall p :: p in parts ==> c !in p
    ensures Split(Join(parts, c), c) == parts
  {
    var p := parts[0];
    assert p in parts;
    if |parts| > 1 {
      var rest := Join(parts[1..], c);
      FirstIs(p, c, rest);
      assert (p + [c] + rest)[|p| + 1..] == rest;
      assert (p + [c] + rest)[..|p|] == p;
      SplitJoin(parts[1..], c);
    }
  }

  /** The parts hold no separator, and there is one more of them than separators. */
  lemma {:induction false} SplitParts(s: string, c: char)
    ensures forall p :: p in Split(s, c) ==> c !in p
    ensures |Split(s, c)| == 1 + Count(s, c)
    decreases |s|
  {
    var i := First(s, c);
    if i < |s| {
      SplitParts(s[i + 1..], c);
      CountNone(s[..i], c);
      assert s == s[..i] + ([c] + s[i + 1..]);
      CountAppend(s[..i], [c] + s[i + 1..], c);
      CountAppend([c], s[i + 1..], c);
      assert [c][1..] == "";
    } else {
      assert s[..i] == s;
      CountNone(s, c);
    }
  }

  function Count(s: string, c: char): nat {
    if s == "" then 0 else (if s[0] == c then 1 else 0) + Count(s[1..], c)
  }

  lemma {:induction false} CountAppend(a: string, b: string, c: char)
    ensures Count(a + b, c) == Count(a, c) + Count(b, c)
  {
    if a == "" {
      assert a + b == b;
    } else {
      CountAppend(a[1..], b, c);
      assert (a + b)[1..] == a[1..] + b;
    }
  }

  lemma {:induction false} CountNone(s: string, c: char)
    requires c !in s
    ensures Count(s, c) == 0
  {
    if s != "" { CountNone(s[1..], c); }
  }

  lemma {:induction false} CountSome(s: string, c: char)
    requires c in s
    ensures Count(s, c) > 0
  {
    assert s == [s[0]] + s[1..];
    if s[0] != c { CountSome(s[1..], c); }
  }

  /** Another character occurs in a joined text only if it occurs in a part. */
  lemma {:induction false} JoinLacks(parts: seq<string>, sep: char, c: char)
    requires c != sep && forall p :: p in parts ==> c !in p
    ensures c !in Join(parts, sep)
  {
    if |parts| > 0 { assert parts[0] in parts; }
    if |parts| > 1 { JoinLacks(parts[1..], sep, c); }
  }

  /** The last part follows the last separator. */
  lemma {:induction false} JoinLast(parts: seq<string>, sep: char)
    requires |parts| > 1
    ensures Join(parts, sep) == Join(parts[..|parts| - 1], sep) + [sep] + parts[|parts| - 1]
  {
    var rest := parts[1..];
    var front := parts[..|parts| - 1];
    assert front[0] == parts[0];
    if |parts| > 2 {
      JoinLast(rest, sep);
      assert rest[..|rest| - 1] == front[1..];
      assert parts[0] + [sep] + (Join(front[1..], sep) + [sep] + rest[|rest| - 1])
          == (parts[0] + [sep] + Join(front[1..], sep)) + [sep] + rest[|rest| - 1];
    }
  }

  predicate At(s: string, t: string, i: int) {
    0 <= i && i + |t| <= |s| && s[i..i + |t|] == t
  }

  /** The position of the last occurrence of t among the first n and itself, or -1. */
  function LastText(s: string, t: string, n: nat): (r: int)
    ensures -1 <= r <= n && (r >= 0 ==> At(s, t, r))
    ensures forall i :: r < i <= n ==> !At(s, t, i)
  {
    if At(s, t, n) then n else if n == 0 then -1 else LastText(s, t, n - 1)
  }

  // ---- Letter case, for ASCII letters ----

  function LowerChar(c: char): char {
    if 'A' <= c <= 'Z' then (c as int + 32) as char else c
  }

  function Lower(s: string): (r: string)
    ensures |r| == |s| && forall i :: 0 <= i < |s| ==> r[i] == LowerChar(s[i])
  {
    seq(|s|, i requires 0 <= i < |s| => LowerChar(s[i]))
  }

  lemma LowerSlice(s: string, n: nat)
    requires n <= |s|
    ensures Lower(s)[..n] == Lower(s[..n])
  {
  }

  // ---- Decimal numbers ----

  /** Int. */
  type Int64 = x: int | -0x8000_0000_0000_0000 <= x < 0x8000_0000_0000_0000

  function DigitChar(n: nat): char
    requires n < 10
  {
    ('0' as int + n) as char
  }

  function DecimalNat(n: nat): (r: string)
    ensures r != "" && forall i :: 0 <= i < |r| ==> '0' <= r[i] <= '9'
  {
    if n < 10 then [DigitChar(n)] else DecimalNat(n / 10) + [DigitChar(n % 10)]
  }

  /** "\(n)". */
  function Decimal(n: int): (r: string)
    ensures r != "" && forall i :: 0 <= i < |r| ==> '0' <= r[i] <= '9' || r[i] == '-'
  {
    if n < 0 then "-" + DecimalNat(-n) else DecimalNat(n)
  }

  function ParseNat(s: string): Option<nat> {
    if s == "" then None
    else
      var last := s[|s| - 1];
      if !('0' <= last <= '9') then None
      else if |s| == 1 then Some(last as int - '0' as int)
      else match ParseNat(s[..|s| - 1])
           case None => None
           case Some(n) => Some(10 * n + (last as int - '0' as int))
  }

  /** Int(_:). */
  function ParseInt(s: string): Option<Int64> {
    var negative := s != "" && s[0] == '-';
    var digits := if negative || (s != "" && s[0] == '+') then s[1..] else s;
    match ParseNat(digits)
    case None => None
    case Some(n) =>
      var v: int := if negative then -(n as int) else n;
      if -0x8000_0000_0000_0000 <= v < 0x8000_0000_0000_0000 then Some(v) else None
  }

  lemma {:induction false} ParseDecimalNat(n: nat)
    ensures ParseNat(DecimalNat(n)) == Some(n)
  {
    if n >= 10 {
      ParseDecimalNat(n / 10);
      var s := DecimalNat(n);
      assert s[..|s| - 1] == DecimalNat(n / 10);
    }
  }

  /** Printed numbers are read back. */
  lemma ParseDecimal(n: Int64)
    ensures ParseInt(Decimal(n)) == Some(n)
  {
    hide DecimalNat, ParseNat;
    var m: int := n;
    if m < 0 {
      ParseDecimalNat(-m);
      assert Decimal(m)[1..] == DecimalNat(-m);
    } else {
      ParseDecimalNat(m);
      assert '0' <= Decimal(m)[0] <= '9';
    }
  }

  /** The two alphabets, letter by letter; nothing else changes. */
  lemma LowerIsAlphabet(k: nat, c: char)
    requires k < 26
    ensures |UPPER| == 26 && |LOWER| == 26 && LowerChar(UPPER[k]) == LOWER[k]
    ensures !IsUpper(c) ==> LowerChar(c) == c
  {
    UpperAt(k);
    LowerAt(k);
    UpperIs(c);
  }

  // ---- What digits stand for ----

  /** A number is written with the ten digits, the last one for its remainder. */
  lemma DecimalIs(n: nat, d: nat)
    requires d < 10
    ensures |DIGITS| == 10 && Decimal(d) == [DIGITS[d]]
    ensures n > 0 ==> Decimal(10 * n + d) == Decimal(n) + [DIGITS[d]]
    ensures n > 0 ==> Decimal(0 - n) == "-" + Decimal(n)
  {
    DigitAt(d);
    assert (10 * n + d) / 10 == n && (10 * n + d) % 10 == d;
  }

  ghost predicate AllDigits(s: string) {
    s != "" && forall i :: 0 <= i < |s| ==> IsDigit(s[i])
  }

  lemma {:induction false} ParsesDigits(s: string)
    ensures ParseNat(s).Some? <==> AllDigits(s)
  {
    hide IsDigit;
    if s != "" {
      var front, last := s[..|s| - 1], s[|s| - 1];
      DigitIs(last);
      ParsesDigits(front);
      assert forall i :: 0 <= i < |front| ==> front[i] == s[i];
      if |s| == 1 {
        assert ParseNat(s).Some? <==> '0' <= last <= '9';
      }
    }
  }

  /** One more digit is ten times as much and that digit. */
  lemma ParsesIs(s: string, d: nat)
    requires d < 10
    ensures |DIGITS| == 10 && ParseNat([DIGITS[d]]) == Some(d)
    ensures AllDigits(s) ==> ParseNat(s).Some? && ParseNat(s + [DIGITS[d]]) == Some(10 * ParseNat(s).value + d)
  {
    hide AllDigits;
    DigitAt(d);
    ParsesDigits(s);
    if AllDigits(s) {
      assert s != "";
      assert (s + [DIGITS[d]])[..|s|] == s && (s + [DIGITS[d]])[|s|] == DIGITS[d];
    }
  }

  /** Int(_:) reads digits, behind an optional sign, if the number fits 64 bits. */
  lemma ParseIntReads(s: string)
    requires AllDigits(s)
    ensures ParseNat(s).Some?
    ensures var n: int := ParseNat(s).value;
            && (if n < 0x8000_0000_0000_0000 then ParseInt(s).Some? && ParseInt(s).value == n else ParseInt(s).None?)
            && ParseInt("+" + s) == ParseInt(s)
            && (if n <= 0x8000_0000_0000_0000 then ParseInt("-" + s).Some? && ParseInt("-" + s).value == -n
                else ParseInt("-" + s).None?)
  {
    hide AllDigits, ParseNat;
    ParsesDigits(s);
    FirstIsDigit(s);
    assert ("+" + s)[0] == '+' && ("+" + s)[1..] == s;
    assert ("-" + s)[0] == '-' && ("-" + s)[1..] == s;
  }

  /** And nothing else. */
  lemma ParseIntRefuses(s: string)
    requires !AllDigits(s)
    ensures ParseInt("+" + s).None? && ParseInt("-" + s).None?
    ensures s == "" || (s[0] != '-' && s[0] != '+') ==> ParseInt(s).None?
  {
    hide AllDigits, ParseNat;
    ParsesDigits(s);
    assert ("+" + s)[0] == '+' && ("+" + s)[1..] == s;
    assert ("-" + s)[0] == '-' && ("-" + s)[1..] == s;
  }

  lemma FirstIsDigit(s: string)
    requires AllDigits(s)
    ensures s != "" && s[0] != '-' && s[0] != '+'
  {
    DigitIs(s[0]);
  }
}
