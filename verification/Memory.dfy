/** Byte memory as a value. */
module Memory {
  import opened Basics

  /** The memory with the bytes written at a position. */
  function Write(mem: seq<Byte>, at: nat, bytes: seq<Byte>): (r: seq<Byte>)
    requires at + |bytes| <= |mem|
    ensures |r| == |mem| && r[at..at + |bytes|] == bytes && r[..at] == mem[..at]
    ensures r[at + |bytes|..] == mem[at + |bytes|..]
  {
    mem[..at] + bytes + mem[at + |bytes|..]
  }

  /** What whoever a region is lent to does to the memory. */
  method Fill(mem: array<Byte>, at: nat, bytes: seq<Byte>)
    requires at + |bytes| <= mem.Length
    modifies mem
    ensures mem[..] == Write(old(mem[..]), at, bytes)
  {
    var i := 0;
    while i < |bytes|
      invariant 0 <= i <= |bytes|
      invariant mem[..] == Write(old(mem[..]), at, bytes[..i])
    {
      mem[at + i] := bytes[i];
      i := i + 1;
      WriteOne(old(mem[..]), at, bytes, i);
    }
    assert bytes[..i] == bytes;
  }

  lemma WriteOne(mem: seq<Byte>, at: nat, bytes: seq<Byte>, i: nat)
    requires at + |bytes| <= |mem| && 0 < i <= |bytes|
    ensures Write(mem, at, bytes[..i]) == Write(mem, at, bytes[..i - 1])[at + i - 1 := bytes[i - 1]]
  {
    assert bytes[..i] == bytes[..i - 1] + [bytes[i - 1]];
  }

  /** Writing leaves everything before and behind alone. */
  lemma WriteElsewhere(mem: seq<Byte>, at: nat, bytes: seq<Byte>, a: int, b: int)
    requires at + |bytes| <= |mem| && 0 <= a <= b <= |mem| && (b <= at || at + |bytes| <= a)
    ensures Write(mem, at, bytes)[a..b] == mem[a..b]
  {
    var w := Write(mem, at, bytes);
    if b <= at {
      assert w[a..b] == w[..at][a..b];
      assert mem[a..b] == mem[..at][a..b];
    } else {
      var e := at + |bytes|;
      assert w[a..b] == w[e..][a - e..b - e];
      assert mem[a..b] == mem[e..][a - e..b - e];
    }
  }

  /** What is read across the end of a written piece. */
  lemma WriteJoins(mem: seq<Byte>, at: nat, bytes: seq<Byte>, n: nat)
    requires at + |bytes| + n <= |mem|
    ensures Write(mem, at, bytes)[at..at + |bytes| + n] == bytes + mem[at + |bytes|..at + |bytes| + n]
  {
    var w := Write(mem, at, bytes);
    WriteElsewhere(mem, at, bytes, at + |bytes|, at + |bytes| + n);
    assert w[at..at + |bytes| + n] == w[at..at + |bytes|] + w[at + |bytes|..at + |bytes| + n];
  }

  lemma FirstOfSlice(s: seq<Byte>, a: nat, m: nat, n: nat)
    requires n <= m && a + m <= |s|
    ensures s[a..a + m][..n] == s[a..a + n]
  {
  }

  lemma SliceJoins(s: seq<Byte>, a: nat, b: nat, c: nat)
    requires a <= b <= c <= |s|
    ensures s[a..c] == s[a..b] + s[b..c]
  {
  }

  lemma SliceOfSlice(s: seq<Byte>, at: nat, len: nat, i: nat, j: nat)
    requires at + len <= |s| && i <= j <= len
    ensures s[at..at + len][i..j] == s[at + i..at + j]
  {
    var t := s[at..at + len];
    assert forall k :: i <= k < j ==> t[k] == s[at + k];
  }

  lemma SubSlice(s: seq<Byte>, t: seq<Byte>, a: int, b: int, c: int, d: int)
    requires 0 <= a <= c <= d <= b <= |s| && b <= |t| && s[a..b] == t[a..b]
    ensures s[c..d] == t[c..d]
  {
    assert forall k :: c <= k < d ==> s[k] == s[a..b][k - a] && t[k] == t[a..b][k - a];
  }
}
