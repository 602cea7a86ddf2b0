/** Which byte strings are texts: exactly the UTF-8 encodings of sequences of Unicode scalar values
    (section 3 of RFC 3629). */
module Unicode {
  import opened Basics
  import opened Text

  /** A code point that is not a surrogate. */
  predicate Scalar(v: int) {
    0 <= v < 0xd800 || 0xe000 <= v < 0x11_0000
  }

  /** The octets of one character, by the number range it falls in. */
  function Octets(v: int): (r: string)
    requires Scalar(v)
    ensures r != ""
  {
    if v < 0x80 then [v as char]
    else if v < 0x800 then [(0xc0 + v / 0x40) as char, (0x80 + v % 0x40) as char]
    else if v < 0x1_0000 then
      [(0xe0 + v / 0x1000) as char, (0x80 + v / 0x40 % 0x40) as char, (0x80 + v % 0x40) as char]
    else
      [(0xf0 + v / 0x4_0000) as char, (0x80 + v / 0x1000 % 0x40) as char, (0x80 + v / 0x40 % 0x40) as char,
       (0x80 + v % 0x40) as char]
  }

  ghost predicate Scalars(vs: seq<int>) {
    forall i :: 0 <= i < |vs| ==> Scalar(vs[i])
  }

  function Spell(vs: seq<int>): string
    requires Scalars(vs)
  {
    if vs == [] then "" else Octets(vs[0]) + Spell(vs[1..])
  }

  lemma OctetsStart(v: int, rest: string)
    requires Scalar(v)
    ensures var s := Octets(v) + rest;
            StartsWell(s) && Lead(s[0]) == |Octets(v)| && s[|Octets(v)|..] == rest
  {
  }

  lemma TwoOctets(a: int, b: int)
    requires 0xc2 <= a < 0xe0 && 0x80 <= b < 0xc0
    ensures var v := (a - 0xc0) * 0x40 + (b - 0x80);
            0x80 <= v < 0x800 && v / 0x40 == a - 0xc0 && v % 0x40 == b - 0x80
  {
  }

  lemma ThreeOctets(a: int, b: int, c: int)
    requires 0xe0 <= a < 0xf0 && 0x80 <= b < 0xc0 && 0x80 <= c < 0xc0
    requires (a == 0xe0 ==> b >= 0xa0) && (a == 0xed ==> b < 0xa0)
    ensures var v := (a - 0xe0) * 0x1000 + (b - 0x80) * 0x40 + (c - 0x80);
            && 0x800 <= v < 0x1_0000 && Scalar(v)
            && v / 0x1000 == a - 0xe0 && v / 0x40 % 0x40 == b - 0x80 && v % 0x40 == c - 0x80
  {
    var v := (a - 0xe0) * 0x1000 + (b - 0x80) * 0x40 + (c - 0x80);
    assert v / 0x40 == (a - 0xe0) * 0x40 + (b - 0x80);
  }

  lemma FourOctets(a: int, b: int, c: int, d: int)
    requires 0xf0 <= a < 0xf5 && 0x80 <= b < 0xc0 && 0x80 <= c < 0xc0 && 0x80 <= d < 0xc0
    requires (a == 0xf0 ==> b >= 0x90) && (a == 0xf4 ==> b < 0x90)
    ensures var v := (a - 0xf0) * 0x4_0000 + (b - 0x80) * 0x1000 + (c - 0x80) * 0x40 + (d - 0x80);
            && 0x1_0000 <= v < 0x11_0000 && v / 0x4_0000 == a - 0xf0
            && v / 0x1000 % 0x40 == b - 0x80 && v / 0x40 % 0x40 == c - 0x80 && v % 0x40 == d - 0x80
  {
    var v := (a - 0xf0) * 0x4_0000 + (b - 0x80) * 0x1000 + (c - 0x80) * 0x40 + (d - 0x80);
    assert v / 0x1000 == (a - 0xf0) * 0x40 + (b - 0x80);
    assert v / 0x40 == ((a - 0xf0) * 0x40 + (b - 0x80)) * 0x40 + (c - 0x80);
  }

  /** The character at the start of a text. */
  lemma StartsWith(s: string) returns (v: int)
    requires s != "" && StartsWell(s)
    ensures Scalar(v) && Octets(v) == s[..Lead(s[0])]
  {
    if s[0] < 128 as char {
      v := s[0] as int;
    } else if s[0] < 224 as char {
      v := StartsWithTwo(s);
    } else if s[0] < 240 as char {
      v := StartsWithThree(s);
    } else {
      v := StartsWithFour(s);
    }
  }

  lemma StartsWithTwo(s: string) returns (v: int)
    requires s != "" && StartsWell(s) && Lead(s[0]) == 2
    ensures Scalar(v) && Octets(v) == s[..2]
  {
    TwoOctets(s[0] as int, s[1] as int);
    v := (s[0] as int - 0xc0) * 0x40 + (s[1] as int - 0x80);
    assert s[..2] == [s[0], s[1]];
  }

  lemma StartsWithThree(s: string) returns (v: int)
    requires s != "" && StartsWell(s) && Lead(s[0]) == 3
    ensures Scalar(v) && Octets(v) == s[..3]
  {
    ThreeOctets(s[0] as int, s[1] as int, s[2] as int);
    v := (s[0] as int - 0xe0) * 0x1000 + (s[1] as int - 0x80) * 0x40 + (s[2] as int - 0x80);
    assert s[..3] == [s[0], s[1], s[2]];
  }

  lemma StartsWithFour(s: string) returns (v: int)
    requires s != "" && StartsWell(s) && Lead(s[0]) == 4
    ensures Scalar(v) && Octets(v) == s[..4]
  {
    FourOctets(s[0] as int, s[1] as int, s[2] as int, s[3] as int);
    v := (s[0] as int - 0xf0) * 0x4_0000 + (s[1] as int - 0x80) * 0x1000 + (s[2] as int - 0x80) * 0x40
         + (s[3] as int - 0x80);
    assert s[..4] == [s[0], s[1], s[2], s[3]];
  }

  lemma {:induction false} SpellIsText(vs: seq<int>)
    requires Scalars(vs)
    ensures Utf8(Spell(vs))
  {
    hide StartsWell, Lead, Octets;
    if vs != [] {
      SpellIsText(vs[1..]);
      OctetsStart(vs[0], Spell(vs[1..]));
    }
  }

  lemma {:induction false} TextIsSpelt(s: string) returns (vs: seq<int>)
    requires Utf8(s)
    ensures Scalars(vs) && Spell(vs) == s
  {
    hide StartsWell, Lead, Octets;
    if s == "" {
      vs := [];
    } else {
      LeadBounds(s);
      var v := StartsWith(s);
      var rest := TextIsSpelt(s[Lead(s[0])..]);
      vs := [v] + rest;
      assert vs[1..] == rest && s == s[..Lead(s[0])] + s[Lead(s[0])..];
    }
  }

  /** A byte string is a text if and only if it spells a sequence of Unicode scalar values. */
  lemma TextExactly(s: string)
    ensures Utf8(s) <==> exists vs :: Scalars(vs) && Spell(vs) == s
  {
    if Utf8(s) {
      var vs := TextIsSpelt(s);
    }
    if vs :| Scalars(vs) && Spell(vs) == s {
      SpellIsText(vs);
    }
  }
}
