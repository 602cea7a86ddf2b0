/** ChunkBuffer2.h on values: a circular buffer of packets laid out in blocks of memory. */
module Ring {
  import opened Memory
  import opened Basics

  const INT_MAX := 0x7fff_ffff

  /** bdivide_up by the size of a block, which is four bytes. */
  function Blocks(n: nat): (r: nat)
    ensures n <= 4 * r < n + 4
  {
    if n % 4 > 0 then n / 4 + 1 else n / 4
  }

  /** A size_t stored in an int. */
  function AsInt(n: nat): (r: int)
    ensures n <= INT_MAX ==> r == n
    ensures r == n ==> n <= INT_MAX
  {
    var v := n % 0x1_0000_0000;
    if v > INT_MAX then v - 0x1_0000_0000 else v
  }

  /** A C int in memory. */
  function LoadInt(mem: seq<Byte>, at: nat): int
    requires at + 4 <= |mem|
  {
    var v: int := mem[at] as int + 256 * mem[at + 1] as int
                  + 65536 * mem[at + 2] as int + 16777216 * mem[at + 3] as int;
    AsInt(v)
  }

  function IntBytes(n: nat): (r: seq<Byte>)
    requires n <= INT_MAX
    ensures |r| == 4 && LoadInt(r, 0) == n
  {
    var q1 := n / 256;
    var q2 := q1 / 256;
    [n % 256, q1 % 256, q2 % 256, q2 / 256]
  }

  /** Positions and lengths are in blocks, destinations in bytes. A destination is None and its
      size -1 where the C pointer is NULL. */
  datatype Ring = Ring(
    size: nat,
    wrap: nat,
    start: nat,
    used: nat,
    mtu: nat,
    mem: seq<Byte>,
    inputDest: Option<nat>,
    inputAvail: int,
    outputDest: Option<nat>,
    outputAvail: int)

  predicate Wrapped(r: Ring) {
    r.used >= r.wrap - r.start
  }

  function End(r: Ring): int {
    if Wrapped(r) then r.used - (r.wrap - r.start) else r.start + r.used
  }

  function Free(r: Ring): int {
    if Wrapped(r) then r.start - End(r) else r.size - End(r)
  }

  /** What ChunkBuffer2 asserts about its indices. */
  predicate Bounds(r: Ring) {
    && 0 < r.wrap <= r.size && r.start < r.wrap && r.used <= r.wrap
    && (r.wrap == r.size || Wrapped(r))
    && |r.mem| == 4 * r.size
  }

  function UpdateInput(r: Ring): Ring
    requires Bounds(r)
  {
    if r.size - End(r) - 1 >= r.mtu && Free(r) > 0 then
      r.(inputDest := Some(4 * (End(r) + 1)), inputAvail := AsInt(4 * (Free(r) - 1)))
    else
      r.(inputDest := None, inputAvail := -1)
  }

  function UpdateOutput(r: Ring): Ring
    requires Bounds(r)
  {
    if r.used > 0 then r.(outputDest := Some(4 * (r.start + 1)), outputAvail := LoadInt(r.mem, 4 * r.start))
    else r.(outputDest := None, outputAvail := -1)
  }

  /** No packet may start later than this, so that a packet of the MTU fits behind its header. */
  function Limit(r: Ring): int {
    r.size - 1 - r.mtu
  }

  /** Blocks lo..hi hold a chain of headers and packets. */
  ghost predicate Laid(mem: seq<Byte>, lo: int, hi: int, limit: int)
    requires 0 <= lo && 4 * hi <= |mem|
    decreases hi - lo
  {
    lo == hi ||
    (lo < hi && lo <= limit &&
     var n := LoadInt(mem, 4 * lo);
     0 <= n && lo + 1 + Blocks(n) <= hi && Laid(mem, lo + 1 + Blocks(n), hi, limit))
  }

  /** The packets of such a chain. */
  ghost function Parse(mem: seq<Byte>, lo: int, hi: int): seq<Packet>
    requires 0 <= lo && 4 * hi <= |mem|
    decreases hi - lo
  {
    if lo >= hi then []
    else
      var n := LoadInt(mem, 4 * lo);
      if n < 0 || lo + 1 + Blocks(n) > hi then []
      else [mem[4 * (lo + 1)..4 * (lo + 1) + n]] + Parse(mem, lo + 1 + Blocks(n), hi)
  }

  /** The packets in the buffer, oldest first. */
  ghost function Contents(r: Ring): seq<Packet>
    requires Bounds(r)
  {
    if Wrapped(r) then Parse(r.mem, r.start, r.wrap) + Parse(r.mem, 0, End(r))
    else Parse(r.mem, r.start, End(r))
  }

  ghost predicate Chained(r: Ring)
    requires Bounds(r)
  {
    if Wrapped(r) then Laid(r.mem, r.start, r.wrap, Limit(r)) && Laid(r.mem, 0, End(r), Limit(r))
    else Laid(r.mem, r.start, End(r), Limit(r)) && (End(r) <= Limit(r) || Limit(r) < 0)
  }

  /** The room behind the first header, in bytes, fits an int. */
  predicate Countable(blocks: nat) {
    4 * (blocks - 1) <= INT_MAX
  }

  ghost predicate Inv(r: Ring) {
    && Bounds(r) && Countable(r.size) && r.size - r.wrap <= r.mtu
    && Chained(r)
    && r == UpdateInput(r) && r == UpdateOutput(r)
  }

  lemma Distribute(m: nat, a: nat, b: nat)
    ensures m * (a + b) == m * a + m * b
    ensures b >= 2 ==> m * b >= 2 * m
  {
  }

  /** The number of blocks ChunkBuffer2_calc_blocks computes for num packets of chunkLen bytes. */
  function BlocksFor(chunkLen: nat, num: nat): (r: nat)
    ensures num > 0 ==> Blocks(chunkLen) < r
  {
    Distribute(1 + Blocks(chunkLen), 1, num);
    (1 + Blocks(chunkLen)) * (num + 1)
  }

  /** A header and the bytes rounded up to whole blocks, once for every packet and once more. */
  lemma BlocksForIs(chunkLen: nat, num: nat)
    ensures BlocksFor(chunkLen, num) == num + num * ((chunkLen + 3) / 4) + 1 + (chunkLen + 3) / 4
  {
    var b := (chunkLen + 3) / 4;
    assert Blocks(chunkLen) == b;
    Distribute(1 + b, num, num);
    assert (1 + b) * (num + 1) == num + num * b + 1 + b;
  }

  function Init(mem: seq<Byte>, blocks: nat, mtu: nat): Ring
    requires 0 < blocks && |mem| == 4 * blocks
  {
    UpdateOutput(UpdateInput(Ring(blocks, blocks, 0, 0, Blocks(mtu), mem, None, -1, None, -1)))
  }

  /** The header is written and the indices move. */
  function Advance(r: Ring, len: nat): Ring
    requires Bounds(r) && 0 <= End(r) < r.size && len <= INT_MAX
  {
    var end := End(r);
    var r1 := r.(mem := Write(r.mem, 4 * end, IntBytes(len)), used := r.used + 1 + Blocks(len));
    if r1.used <= r.wrap - r.start && r.mtu > r.size - (end + 1 + Blocks(len)) - 1
    then r1.(wrap := end + 1 + Blocks(len))
    else r1
  }

  lemma UpdateBounds(r: Ring)
    requires Bounds(r)
    ensures Bounds(UpdateInput(r))
  {
  }

  function Submit(r: Ring, len: nat): Ring
    requires Inv(r) && r.inputDest.Some? && len <= r.inputAvail
  {
    AdvanceBounds(r, len);
    UpdateBounds(Advance(r, len));
    var r1 := UpdateInput(Advance(r, len));
    if r1.used == 1 + Blocks(len) then UpdateOutput(r1) else r1
  }

  /** The indices move past the first packet. */
  function Retreat(r: Ring): Ring
    requires Inv(r) && r.outputDest.Some?
  {
    var n := 1 + Blocks(r.outputAvail);
    var r1 := r.(start := r.start + n, used := r.used - n);
    if r1.start == r1.wrap then r1.(start := 0, wrap := r.size) else r1
  }

  function Consume(r: Ring): Ring
    requires Inv(r) && r.outputDest.Some?
  {
    RetreatBounds(r);
    var r1 := Retreat(r);
    UpdateOutput(if Wrapped(r) then UpdateInput(r1) else r1)
  }

  lemma InvBounds(r: Ring)
    requires Inv(r)
    ensures Bounds(r)
  {
  }

  lemma AdvanceBounds(r: Ring, len: nat)
    requires Inv(r) && r.inputDest.Some? && len <= r.inputAvail
    ensures len <= INT_MAX && 0 <= End(r) < r.size && Bounds(Advance(r, len))
    ensures r.inputDest == Some(4 * (End(r) + 1)) && 4 * (End(r) + 1) + len <= |r.mem|
    ensures End(r) + 1 + Blocks(len) <= if Wrapped(r) then r.start else r.size
  {
  }

  lemma RetreatBounds(r: Ring)
    requires Inv(r) && r.outputDest.Some?
    ensures r.outputAvail >= 0 && 1 + Blocks(r.outputAvail) <= r.used && Bounds(Retreat(r))
    ensures Wrapped(r) ==> End(Retreat(r)) == End(r)
  {
  }

  lemma LaidOrder(mem: seq<Byte>, lo: int, hi: int, limit: int)
    requires 0 <= lo && 4 * hi <= |mem| && Laid(mem, lo, hi, limit)
    ensures lo <= hi && (lo < hi ==> lo <= limit)
  {
  }

  /** A chain depends on its own blocks only. */
  lemma {:induction false} LaidFrame(mem: seq<Byte>, mem': seq<Byte>, lo: int, hi: int, limit: int)
    requires 0 <= lo <= hi && 4 * hi <= |mem| && 4 * hi <= |mem'|
    requires mem[4 * lo..4 * hi] == mem'[4 * lo..4 * hi] && Laid(mem, lo, hi, limit)
    ensures Laid(mem', lo, hi, limit) && Parse(mem', lo, hi) == Parse(mem, lo, hi)
    decreases hi - lo
  {
    hide LoadInt, Blocks;
    if lo < hi {
      SameBytes(mem, mem', 4 * lo, 4 * hi);
      var n := LoadInt(mem, 4 * lo);
      var next := lo + 1 + Blocks(n);
      SubSlice(mem, mem', 4 * lo, 4 * hi, 4 * next, 4 * hi);
      SubSlice(mem, mem', 4 * lo, 4 * hi, 4 * (lo + 1), 4 * (lo + 1) + n);
      LaidFrame(mem, mem', next, hi, limit);
    }
  }

  lemma SameBytes(s: seq<Byte>, t: seq<Byte>, a: int, b: int)
    requires 0 <= a && a + 4 <= b <= |s| && b <= |t| && s[a..b] == t[a..b]
    ensures LoadInt(s, a) == LoadInt(t, a)
  {
    assert forall k :: 0 <= k < 4 ==> s[a + k] == s[a..b][k] && t[a + k] == t[a..b][k];
  }

  /** A chain may be extended at its end. */
  lemma {:induction false} LaidAppend(mem: seq<Byte>, lo: int, mid: int, hi: int, limit: int)
    requires 0 <= lo && 0 <= mid && 4 * hi <= |mem| && 4 * mid <= |mem|
    requires Laid(mem, lo, mid, limit) && Laid(mem, mid, hi, limit)
    ensures Laid(mem, lo, hi, limit) && Parse(mem, lo, hi) == Parse(mem, lo, mid) + Parse(mem, mid, hi)
    decreases mid - lo
  {
    hide LoadInt, Blocks;
    LaidOrder(mem, lo, mid, limit);
    LaidOrder(mem, mid, hi, limit);
    if lo == mid {
      assert Parse(mem, lo, mid) == [];
    } else {
      LaidAppend(mem, lo + 1 + Blocks(LoadInt(mem, 4 * lo)), mid, hi, limit);
    }
  }

  /** A header and the blocks behind it are a chain of one packet. */
  lemma LaidOne(mem: seq<Byte>, lo: int, n: nat, limit: int)
    requires 0 <= lo <= limit && 4 * (lo + 1 + Blocks(n)) <= |mem| && LoadInt(mem, 4 * lo) == n
    ensures Laid(mem, lo, lo + 1 + Blocks(n), limit)
    ensures Parse(mem, lo, lo + 1 + Blocks(n)) == [mem[4 * (lo + 1)..4 * (lo + 1) + n]]
  {
    var next := lo + 1 + Blocks(n);
    assert Laid(mem, next, next, limit);
    assert Parse(mem, next, next) == [];
  }

  lemma SameBytes0(s: seq<Byte>, a: nat)
    requires a + 4 <= |s|
    ensures LoadInt(s, a) == LoadInt(s[a..a + 4], 0)
  {
  }

  lemma LoadWritten(mem: seq<Byte>, at: nat, n: nat)
    requires at + 4 <= |mem| && n <= INT_MAX
    ensures LoadInt(Write(mem, at, IntBytes(n)), at) == n
  {
    var w := Write(mem, at, IntBytes(n));
    SameBytes0(w, at);
  }

  /** A header written behind a chain adds the bytes after it as the last packet. */
  lemma AppendOne(mem: seq<Byte>, lo: int, end: int, len: nat, limit: int)
    requires 0 <= lo && 0 <= end <= limit && len <= INT_MAX && 4 * (end + 1 + Blocks(len)) <= |mem|
    requires Laid(mem, lo, end, limit)
    ensures var mem' := Write(mem, 4 * end, IntBytes(len));
            && Laid(mem', lo, end + 1 + Blocks(len), limit)
            && Parse(mem', lo, end + 1 + Blocks(len)) == Parse(mem, lo, end) + [mem[4 * (end + 1)..4 * (end + 1) + len]]
  {
    hide LoadInt, Blocks, Laid, Parse, Write, IntBytes;
    var mem' := Write(mem, 4 * end, IntBytes(len));
    LaidOrder(mem, lo, end, limit);
    WriteElsewhere(mem, 4 * end, IntBytes(len), 4 * lo, 4 * end);
    LaidFrame(mem, mem', lo, end, limit);
    LoadWritten(mem, 4 * end, len);
    LaidOne(mem', end, len, limit);
    WriteElsewhere(mem, 4 * end, IntBytes(len), 4 * (end + 1), 4 * (end + 1) + len);
    LaidAppend(mem', lo, end, end + 1 + Blocks(len), limit);
  }

  /** The packet that SubmitPacket(len) takes from the input region. */
  ghost function Arrived(r: Ring, len: nat): Packet
    requires Inv(r) && r.inputDest.Some? && len <= r.inputAvail
  {
    AdvanceBounds(r, len);
    r.mem[r.inputDest.value..r.inputDest.value + len]
  }

  lemma AdvanceChains(r: Ring, len: nat)
    requires Inv(r) && r.inputDest.Some? && len <= r.inputAvail
    ensures 0 <= End(r) < r.size && Bounds(Advance(r, len)) && Chained(Advance(r, len))
    ensures Contents(Advance(r, len)) == Contents(r) + [Arrived(r, len)]
    ensures Advance(r, len).size - Advance(r, len).wrap <= r.mtu
  {
    hide LoadInt, Blocks, Laid, Parse, Write, IntBytes;
    AdvanceBounds(r, len);
    var end, limit, a := End(r), Limit(r), Advance(r, len);
    if Wrapped(r) {
      AppendOne(r.mem, 0, end, len, limit);
      WriteElsewhere(r.mem, 4 * end, IntBytes(len), 4 * r.start, 4 * r.wrap);
      LaidFrame(r.mem, a.mem, r.start, r.wrap, limit);
    } else {
      AppendOne(r.mem, r.start, end, len, limit);
      Nothing(a.mem, limit);
    }
  }

  lemma Nothing(mem: seq<Byte>, limit: int)
    ensures Laid(mem, 0, 0, limit) && Parse(mem, 0, 0) == []
  {
  }

  /** The cached output stays right: the first packet is where it was, unless there was none. */
  lemma AdvanceKeepsOutput(r: Ring, len: nat)
    requires Inv(r) && r.inputDest.Some? && len <= r.inputAvail
    ensures 0 <= End(r) < r.size && Bounds(Advance(r, len))
    ensures r.used > 0 ==> Advance(r, len) == UpdateOutput(Advance(r, len))
    ensures r.used == 0 <==> Advance(r, len).used == 1 + Blocks(len)
    ensures Advance(r, len).outputDest == r.outputDest && Advance(r, len).outputAvail == r.outputAvail
    ensures Advance(r, len).mtu == r.mtu && Advance(r, len).size == r.size && Advance(r, len).used > 0
    ensures r.outputDest.Some? <==> r.used > 0
  {
    hide LoadInt, Blocks, Laid, Parse, Write, IntBytes;
    AdvanceBounds(r, len);
    if r.used > 0 {
      var a := Advance(r, len);
      WriteElsewhere(r.mem, 4 * End(r), IntBytes(len), 4 * r.start, 4 * r.start + 4);
      SameBytes(r.mem, a.mem, 4 * r.start, 4 * r.start + 4);
    }
  }

  /** Refreshing the cached destinations changes nothing else, and one does not spoil the other. */
  lemma UpdatesKeep(r: Ring)
    requires Bounds(r)
    ensures var s := UpdateInput(r);
            Bounds(s) && Contents(s) == Contents(r) && (Chained(s) <==> Chained(r)) && s == UpdateInput(s)
    ensures var s := UpdateOutput(r);
            && Bounds(s) && Contents(s) == Contents(r) && (Chained(s) <==> Chained(r)) && s == UpdateOutput(s)
            && (r == UpdateInput(r) ==> s == UpdateInput(s))
    ensures var s := UpdateInput(r);
            && UpdateOutput(s).inputDest == s.inputDest && UpdateOutput(s).inputAvail == s.inputAvail
            && s.outputDest == r.outputDest && s.outputAvail == r.outputAvail
            && (r == UpdateOutput(r) ==> s == UpdateOutput(s))
    ensures UpdateInput(r).(inputDest := r.inputDest, inputAvail := r.inputAvail) == r
    ensures UpdateOutput(r).(outputDest := r.outputDest, outputAvail := r.outputAvail) == r
  {
    hide LoadInt, Laid, Parse, AsInt, Chained, Contents, Bounds, UpdateInput, UpdateOutput;
    UpdateInputKeeps(r);
    UpdateOutputKeeps(r);
    UpdateOutputKeeps(UpdateInput(r));
  }

  lemma UpdateInputKeeps(r: Ring)
    requires Bounds(r)
    ensures var s := UpdateInput(r);
            && Bounds(s) && Contents(s) == Contents(r) && (Chained(s) <==> Chained(r)) && s == UpdateInput(s)
            && s.outputDest == r.outputDest && s.outputAvail == r.outputAvail
            && (r == UpdateOutput(r) ==> s == UpdateOutput(s))
            && s.(inputDest := r.inputDest, inputAvail := r.inputAvail) == r
  {
    hide LoadInt, Laid, Parse, AsInt;
  }

  lemma UpdateOutputKeeps(r: Ring)
    requires Bounds(r)
    ensures var s := UpdateOutput(r);
            && Bounds(s) && Contents(s) == Contents(r) && (Chained(s) <==> Chained(r)) && s == UpdateOutput(s)
            && s.inputDest == r.inputDest && s.inputAvail == r.inputAvail
            && (r == UpdateInput(r) ==> s == UpdateInput(s))
            && s.(outputDest := r.outputDest, outputAvail := r.outputAvail) == r
  {
    hide LoadInt, Laid, Parse, AsInt;
  }

  /** SubmitPacket appends the bytes of the input region to the contents. */
  lemma SubmitAppends(r: Ring, len: nat)
    requires Inv(r) && r.inputDest.Some? && len <= r.inputAvail
    ensures Inv(Submit(r, len)) && Contents(Submit(r, len)) == Contents(r) + [Arrived(r, len)]
    ensures r.outputDest.Some? ==>
              Submit(r, len).outputDest == r.outputDest && Submit(r, len).outputAvail == r.outputAvail
    ensures Submit(r, len).used > 0 && Submit(r, len).mtu == r.mtu && Submit(r, len).size == r.size
  {
    hide Blocks, Advance, Chained, Contents, UpdateInput, UpdateOutput, Wrapped, Bounds;
    UpdatesKeep(r);
    AdvanceBounds(r, len);
    AdvanceChains(r, len);
    AdvanceKeepsOutput(r, len);
    UpdatesKeep(Advance(r, len));
    UpdatesKeep(UpdateInput(Advance(r, len)));
  }

  /** An output destination is there exactly when a packet is. */
  lemma OutputPresent(r: Ring)
    requires Inv(r)
    ensures r.used > 0 <==> r.outputDest.Some?
    ensures r.outputAvail >= 0 <==> r.used > 0
    ensures r.inputDest.Some? <==> r.inputAvail >= 0
  {
    hide LoadInt, Blocks, Laid;
    if r.used > 0 { RetreatBounds(r); }
  }

  lemma RetreatChains(r: Ring)
    requires Inv(r) && r.outputDest.Some?
    ensures Bounds(Retreat(r)) && Chained(Retreat(r)) && Retreat(r).size - Retreat(r).wrap <= r.mtu
    ensures 0 <= r.outputAvail && r.outputDest.value + r.outputAvail <= |r.mem|
    ensures Contents(r) == [r.mem[r.outputDest.value..r.outputDest.value + r.outputAvail]] + Contents(Retreat(r))
  {
    hide LoadInt, Blocks, Write, IntBytes, Laid, Parse, AsInt;
    RetreatBounds(r);
    Nothing(r.mem, Limit(r));
    if Wrapped(r) {
      FirstOf(r.mem, r.start, r.wrap, Limit(r));
      LaidOrder(r.mem, r.start, r.wrap, Limit(r));
      if r.start + 1 + Blocks(r.outputAvail) == r.wrap {
        assert Retreat(r).start == 0 && End(Retreat(r)) == End(r) && !Wrapped(Retreat(r));
      }
    } else {
      FirstOf(r.mem, r.start, End(r), Limit(r));
    }
  }

  lemma FirstOf(mem: seq<Byte>, lo: int, hi: int, limit: int)
    requires 0 <= lo < hi && 4 * hi <= |mem| && Laid(mem, lo, hi, limit)
    ensures var n := LoadInt(mem, 4 * lo);
            && 0 <= n && lo + 1 + Blocks(n) <= hi && Laid(mem, lo + 1 + Blocks(n), hi, limit)
            && Parse(mem, lo, hi) == [mem[4 * (lo + 1)..4 * (lo + 1) + n]] + Parse(mem, lo + 1 + Blocks(n), hi)
            && (lo + 1 + Blocks(n) == hi ==> Parse(mem, lo + 1 + Blocks(n), hi) == [])
  {
  }

  /** Skipping the update of the input is right when the data is not wrapped, and the update never
      moves the input. */
  lemma RetreatKeepsInput(r: Ring)
    requires Inv(r) && r.outputDest.Some?
    ensures Bounds(Retreat(r)) && Retreat(r).mem == r.mem && Retreat(r).mtu == r.mtu && Retreat(r).size == r.size
    ensures var s := if Wrapped(r) then UpdateInput(Retreat(r)) else Retreat(r);
            && s == UpdateInput(s)
            && (r.inputDest.Some? ==> s.inputDest == r.inputDest && s.inputAvail >= r.inputAvail)
  {
    hide LoadInt, Chained, Retreat, AsInt;
    RetreatBounds(r);
    RetreatEnd(r);
  }

  lemma RetreatEnd(r: Ring)
    requires Inv(r) && r.outputDest.Some?
    ensures Bounds(Retreat(r)) && End(Retreat(r)) == End(r) && Free(Retreat(r)) >= Free(r)
    ensures !Wrapped(r) ==> Free(Retreat(r)) == Free(r)
    ensures Retreat(r).inputDest == r.inputDest && Retreat(r).inputAvail == r.inputAvail
    ensures Retreat(r).mem == r.mem && Retreat(r).mtu == r.mtu && Retreat(r).size == r.size
  {
    hide LoadInt, Blocks, Laid, Parse, AsInt;
    RetreatBounds(r);
    RetreatChains(r);
  }

  /** ConsumePacket removes the packet the output refers to, and does not move the input. */
  lemma ConsumeRemoves(r: Ring)
    requires Inv(r) && r.outputDest.Some?
    ensures Inv(Consume(r)) && 0 <= r.outputAvail && r.outputDest.value + r.outputAvail <= |r.mem|
    ensures Contents(r) == [r.mem[r.outputDest.value..r.outputDest.value + r.outputAvail]] + Contents(Consume(r))
    ensures r.inputDest.Some? ==> Consume(r).inputDest == r.inputDest && Consume(r).inputAvail >= r.inputAvail
    ensures Consume(r).mem == r.mem && Consume(r).mtu == r.mtu && Consume(r).size == r.size
  {
    hide Retreat, Chained, Contents, UpdateInput, UpdateOutput, Wrapped, Bounds;
    RetreatKeepsInput(r);
    RetreatChains(r);
    var t := Retreat(r);
    var s := if Wrapped(r) then UpdateInput(t) else t;
    UpdatesKeep(t);
    UpdatesKeep(s);
  }

  /** Bytes written into the input region disturb nothing else. */
  lemma FillKeeps(r: Ring, at: nat, bytes: seq<Byte>)
    requires Inv(r) && r.inputDest.Some? && r.inputDest.value <= at && at + |bytes| <= r.inputDest.value + r.inputAvail
    ensures at + |bytes| <= |r.mem|
    ensures var s := r.(mem := Write(r.mem, at, bytes)); Inv(s) && Contents(s) == Contents(r)
  {
    hide LoadInt, Blocks, Write, Laid, Parse, AsInt;
    var mem', limit := Write(r.mem, at, bytes), Limit(r);
    if Wrapped(r) {
      WriteElsewhere(r.mem, at, bytes, 4 * r.start, 4 * r.wrap);
      LaidFrame(r.mem, mem', r.start, r.wrap, limit);
      WriteElsewhere(r.mem, at, bytes, 0, 4 * End(r));
      LaidFrame(r.mem, mem', 0, End(r), limit);
      SameBytes(r.mem, mem', 4 * r.start, 4 * r.wrap);
    } else {
      LaidOrder(r.mem, r.start, End(r), limit);
      WriteElsewhere(r.mem, at, bytes, 4 * r.start, 4 * End(r));
      LaidFrame(r.mem, mem', r.start, End(r), limit);
      if r.used > 0 { SameBytes(r.mem, mem', 4 * r.start, 4 * End(r)); }
    }
  }

  /** The room the buffer reports is the room there is if and only if its bytes fit an int. */
  lemma RoomIsExact(r: Ring)
    requires Bounds(r) && UpdateInput(r).inputDest.Some?
    ensures UpdateInput(r).inputAvail == 4 * (Free(r) - 1) <==> 4 * (Free(r) - 1) <= INT_MAX
  {
    hide AsInt;
  }

  /** A fresh buffer is empty; the room it reports is right if and only if its bytes can be counted. */
  lemma InitIsEmpty(mem: seq<Byte>, blocks: nat, mtu: nat)
    requires 0 < blocks && |mem| == 4 * blocks
    ensures var r := Init(mem, blocks, mtu);
            && Bounds(r) && Contents(r) == [] && r.outputDest == None && r.size == blocks && r.mtu == Blocks(mtu)
            && (Countable(blocks) ==> Inv(r))
            && (Blocks(mtu) < blocks ==>
                  r.inputDest == Some(4) && (r.inputAvail == 4 * (blocks - 1) <==> Countable(blocks)))
  {
    hide AsInt;
  }

  /** The branch for a buffer end behind which a packet of the MTU can never fit is not taken,
      unless the whole buffer is too small for one. */
  lemma EndLeavesRoom(r: Ring)
    requires Inv(r)
    ensures r.mtu < r.size <==> r.size - End(r) - 1 >= r.mtu
  {
    hide LoadInt, Blocks, Parse, Laid;
    if Wrapped(r) {
      LaidOrder(r.mem, r.start, r.wrap, Limit(r));
    }
  }

  /** An empty buffer has room. */
  lemma EmptyAvail(r: Ring)
    requires Inv(r) && r.used == 0 && r.mtu < r.size
    ensures r.inputAvail >= 4 * r.mtu
  {
    hide LoadInt, Blocks, Parse, Laid;
    EndLeavesRoom(r);
  }

  /** The blocks that packets take up, with their headers. */
  ghost function Cost(ps: seq<Packet>): nat {
    if ps == [] then 0 else 1 + Blocks(|ps[0]|) + Cost(ps[1..])
  }

  lemma {:induction false} CostAppend(ps: seq<Packet>, qs: seq<Packet>)
    ensures Cost(ps + qs) == Cost(ps) + Cost(qs)
  {
    hide Blocks;
    if ps == [] {
      assert ps + qs == qs;
    } else {
      CostAppend(ps[1..], qs);
      assert (ps + qs)[1..] == ps[1..] + qs;
    }
  }

  lemma {:induction false} ParseCost(mem: seq<Byte>, lo: int, hi: int, limit: int)
    requires 0 <= lo && 4 * hi <= |mem| && Laid(mem, lo, hi, limit)
    ensures lo <= hi && Cost(Parse(mem, lo, hi)) == hi - lo
    decreases hi - lo
  {
    hide LoadInt, Blocks;
    LaidOrder(mem, lo, hi, limit);
    if lo < hi {
      FirstOf(mem, lo, hi, limit);
      ParseCost(mem, lo + 1 + Blocks(LoadInt(mem, 4 * lo)), hi, limit);
    }
  }

  lemma UsedIsCost(r: Ring)
    requires Inv(r)
    ensures r.used == Cost(Contents(r))
  {
    hide LoadInt, Blocks, Laid, Parse;
    if Wrapped(r) {
      ParseCost(r.mem, r.start, r.wrap, Limit(r));
      ParseCost(r.mem, 0, End(r), Limit(r));
      CostAppend(Parse(r.mem, r.start, r.wrap), Parse(r.mem, 0, End(r)));
    } else {
      ParseCost(r.mem, r.start, End(r), Limit(r));
    }
  }

  lemma {:induction false} CostBound(ps: seq<Packet>, mtu: nat)
    requires forall p :: p in ps ==> Blocks(|p|) <= mtu
    ensures Cost(ps) <= (1 + mtu) * |ps|
  {
    hide Blocks;
    if ps != [] {
      CostBound(ps[1..], mtu);
      Distribute(1 + mtu, |ps| - 1, 1);
      assert ps[0] in ps;
    }
  }

  /** Blocks for two packets of the MTU are enough: one may be lost at the end of the memory. */
  lemma RoomForOne(r: Ring)
    requires Inv(r) && r.used + 2 * (1 + r.mtu) <= r.size
    ensures r.inputDest.Some? && r.inputAvail >= 4 * r.mtu
  {
    hide LoadInt, Blocks, Laid, Parse;
    EndLeavesRoom(r);
  }

  /** A buffer of the size ChunkBuffer2_calc_blocks gives for num packets has room for another one
      as long as it holds fewer than num, however the packets lie in it. */
  lemma RoomForNum(r: Ring, num: nat)
    requires Inv(r) && r.size == (1 + r.mtu) * (num + 1)
    requires forall p :: p in Contents(r) ==> Blocks(|p|) <= r.mtu
    requires |Contents(r)| < num
    ensures r.inputDest.Some? && r.inputAvail >= 4 * r.mtu
  {
    hide Contents, Blocks, Laid, Parse, LoadInt;
    var k := |Contents(r)|;
    UsedIsCost(r);
    CostBound(Contents(r), r.mtu);
    Distribute(1 + r.mtu, k, num + 1 - k);
    RoomForOne(r);
  }

  /** A packet submitted to an empty buffer is the one to send. */
  lemma SubmitIntoEmpty(r: Ring, len: nat)
    requires Inv(r) && r.inputDest.Some? && len <= r.inputAvail && r.used == 0
    ensures Submit(r, len).outputAvail == len
  {
    hide LoadInt, Blocks, Laid, Submit, Bounds, Chained, Consume, Contents;
    InvBounds(r);
    SubmitAppends(r, len);
    UsedIsCost(r);
    var s := Submit(r, len);
    InvBounds(s);
    OutputPresent(s);
    ConsumeRemoves(s);
    assert Contents(s)[0] == Arrived(r, len) && |Arrived(r, len)| == len;
  }
}
