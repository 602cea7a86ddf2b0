/** Every event of the flow keeps its invariant. */
module FlowSafety {
  import opened Flow
  import opened Framing
  import opened Memory
  import opened PassInterface
  import opened Basics
  import R = Ring

  lemma {:induction false} ConcatAppend(ss: seq<seq<Byte>>, s: seq<Byte>)
    ensures Concat(ss + [s]) == Concat(ss) + s
  {
    if ss == [] {
      assert ss + [s] == [s] && [s][1..] == [];
    } else {
      ConcatAppend(ss[1..], s);
      assert (ss + [s])[1..] == ss[1..] + [s];
    }
  }

  lemma ConcatFirst(ss: seq<seq<Byte>>)
    requires ss != []
    ensures Concat(ss) == ss[0] + Concat(ss[1..])
  {
  }

  lemma InitInv(mem: seq<Byte>, blocks: nat, mtu: nat)
    requires mtu <= MAX_PAYLOAD && R.Blocks(2 + mtu) < blocks && |mem| == 4 * blocks && R.Countable(blocks)
    ensures Inv(Init(mem, blocks, mtu), Trace([], []))
  {
    hide R.Inv, R.Contents;
    R.InitIsEmpty(mem, blocks, 2 + mtu);
    StreamNone();
    R.OutputPresent(R.Init(mem, blocks, 2 + mtu));
  }

  /** Writing into the region being filled disturbs nothing that was written before. */
  lemma FillRegion(p: Pipe, at: nat, bytes: seq<Byte>)
    requires Filling(p.mtu, p.writer, p.ri1, p.packet, p.ri2, p.ring) && Sending(p.ring, p.pi, p.sender, p.spi)
    requires p.ri2.phase != Idle && p.ri2.data <= at && at + |bytes| <= p.ri2.data + 2 + p.mtu
    ensures at + |bytes| <= |p.ring.mem|
    ensures var r := p.ring.(mem := Write(p.ring.mem, at, bytes));
            && Filling(p.mtu, p.writer, p.ri1, p.packet, p.ri2, r) && Sending(r, p.pi, p.sender, p.spi)
            && R.Bounds(r) && R.Bounds(p.ring) && R.Contents(r) == R.Contents(p.ring)
  {
    hide R.Inv, R.Contents;
    RoomFor(p);
    R.FillKeeps(p.ring, at, bytes);
    R.InvBounds(p.ring.(mem := Write(p.ring.mem, at, bytes)));
  }

  lemma FillKeepsInv(p: Pipe, t: Trace, bytes: seq<Byte>)
    requires Inv(p, t) && Enabled(p, Fill(bytes))
    ensures Inv(Step(p, t, Fill(bytes)), Record(p, t, Fill(bytes)))
  {
    hide R.Inv, R.Contents, R.Bounds, Accounted, Sending, Write;
    FillRegion(p, p.writer.out.value, bytes);
  }

  lemma FitsAppend(ps: seq<Packet>, p: Packet, mtu: nat)
    requires Fits(ps, mtu) && |p| <= mtu
    ensures Fits(ps + [p], mtu)
  {
  }

  /** A finished packet is in flight from the moment the user lets go of it. */
  lemma WrittenAccounted(t: Trace, mtu: nat, buffered: seq<Byte>, gone: nat, packet: Packet)
    requires Accounted(t, mtu, buffered, gone, []) && |packet| <= mtu && |packet| <= MAX_PAYLOAD
    ensures Accounted(t.(written := t.written + [packet]), mtu, buffered, gone, Encode(packet))
  {
    hide Stream, Fits, Encode;
    StreamOne(packet);
    StreamAppend(t.written, [packet]);
    FitsAppend(t.written, packet, mtu);
    FitsAppend(t.written, packet, MAX_PAYLOAD);
    assert t.wire + (buffered[gone..] + []) + Encode(packet) == t.wire + (buffered[gone..] + Encode(packet));
  }

  lemma EndKeepsInv(p: Pipe, t: Trace, len: nat)
    requires Inv(p, t) && Enabled(p, End(len))
    ensures Inv(Step(p, t, End(len)), Record(p, t, End(len)))
  {
    hide R.Inv, R.Contents, R.Bounds, Sizes, Accounted, Sending;
    RoomFor(p);
    WrittenAccounted(t, p.mtu, Concat(R.Contents(p.ring)), Gone(p.pi, p.sender, p.spi),
                     p.ring.mem[p.writer.out.value..p.writer.out.value + len]);
  }

  /** The header in front of the packet makes it the encoded packet. */
  lemma HeaderJoins(p: Pipe)
    requires Filling(p.mtu, p.writer, p.ri1, p.packet, p.ri2, p.ring) && p.ri1.phase == DonePending
    ensures p.ri2.data + 2 + p.ri1.doneLen <= |p.ring.mem|
    ensures Region(WriteLength(p.ring.mem, p.ri2.data, p.ri1.doneLen), p.ri2.data, 2 + p.ri1.doneLen)
            == InFlight(p.ring.mem, p.ri1, p.ri2)
  {
    hide R.Inv, Write, Header;
    RoomFor(p);
    WriteJoins(p.ring.mem, p.ri2.data, Header(p.ri1.doneLen), p.ri1.doneLen);
  }

  lemma Ri1DoneKeepsInv(p: Pipe, t: Trace)
    requires Inv(p, t) && Enabled(p, Ri1Done)
    ensures Inv(Step(p, t, Ri1Done), Record(p, t, Ri1Done))
  {
    hide R.Inv, R.Contents, R.Bounds, Accounted, Sending, Write, Header, Region;
    FillRegion(p, p.ri2.data, Header(p.ri1.doneLen));
    HeaderJoins(p);
  }

  lemma SimpleKeepsInv(p: Pipe, t: Trace, e: Event)
    requires Inv(p, t) && Enabled(p, e) && (e.Start? || e.Ri1Operation? || e.Ri2Operation?)
    ensures Inv(Step(p, t, e), Record(p, t, e))
  {
    hide R.Inv, R.Contents, R.Bounds, Accounted, Sizes, Sending, Concat;
  }

  lemma FirstLength(ring: R.Ring, mtu: nat)
    requires R.Inv(ring) && R.Bounds(ring) && ring.used > 0 && Sizes(ring, mtu)
    ensures R.Contents(ring) != [] && ring.outputAvail == |R.Contents(ring)[0]| >= 2
    ensures ring.outputAvail <= |Concat(R.Contents(ring))|
  {
    hide R.Inv, R.Contents, R.Consume, R.Bounds;
    R.OutputPresent(ring);
    R.ConsumeRemoves(ring);
    assert R.Contents(ring)[0] in R.Contents(ring);
    ConcatFirst(R.Contents(ring));
  }

  lemma SenderKeepsInv(p: Pipe, t: Trace, e: Event)
    requires Inv(p, t) && Enabled(p, e) && (e.PiOperation? || e.SpiOperation? || e.SpiDone?)
    ensures Inv(Step(p, t, e), Record(p, t, e))
  {
    hide R.Inv, R.Contents, R.Bounds, Accounted, Sizes, Filling, Concat;
    FirstLength(p.ring, p.mtu);
  }

  /** Bytes that go on the wire leave the buffer. */
  lemma TakenAccounted(t: Trace, mtu: nat, buffered: seq<Byte>, gone: nat, flight: seq<Byte>, n: nat)
    requires Accounted(t, mtu, buffered, gone, flight) && gone + n <= |buffered|
    ensures Accounted(t.(wire := t.wire + buffered[gone..gone + n]), mtu, buffered, gone + n, flight)
  {
    hide Stream, Fits;
    assert buffered[gone..] == buffered[gone..gone + n] + buffered[gone + n..];
    var piece := buffered[gone..gone + n];
    assert t.wire + ((piece + buffered[gone + n..]) + flight) == (t.wire + piece) + (buffered[gone + n..] + flight);
  }

  /** The bytes the transport takes are the next ones of the first packet. */
  lemma TakenIsNext(p: Pipe, n: nat)
    requires Sending(p.ring, p.pi, p.sender, p.spi) && p.spi.phase == Busy && 0 < n <= p.spi.len
    ensures R.Bounds(p.ring) && p.spi.data + n <= |p.ring.mem|
    ensures var (c, g) := (Concat(R.Contents(p.ring)), p.sender.used);
            g + n <= |c| && p.ring.mem[p.spi.data..p.spi.data + n] == c[g..g + n]
  {
    hide R.Inv, R.Contents, R.Bounds, Concat;
    TakeFacts(p);
    var cs := R.Contents(p.ring);
    ConcatFirst(cs);
    var whole := p.ring.mem[p.spi.data..p.spi.data + p.spi.len];
    FirstOfSlice(p.ring.mem, p.spi.data, p.spi.len, n);
    assert Concat(cs)[p.sender.used..p.sender.used + n] == cs[0][p.sender.used..][..n];
  }

  lemma TakeKeepsInv(p: Pipe, t: Trace, n: nat)
    requires Inv(p, t) && Enabled(p, Take(n))
    ensures Inv(Step(p, t, Take(n)), Record(p, t, Take(n)))
  {
    hide R.Inv, R.Contents, R.Bounds, Accounted, Sizes, Filling, Concat;
    TakenIsNext(p, n);
    TakenAccounted(t, p.mtu, Concat(R.Contents(p.ring)), p.sender.used, InFlight(p.ring.mem, p.ri1, p.ri2), n);
  }

  lemma Ri2Submits(p: Pipe)
    requires Filling(p.mtu, p.writer, p.ri1, p.packet, p.ri2, p.ring) && p.ri2.phase == DonePending
    ensures R.Inv(p.ring) && R.Bounds(p.ring) && p.ring.inputDest.Some? && p.ri2.doneLen <= p.ring.inputAvail
    ensures R.Arrived(p.ring, p.ri2.doneLen) == InFlight(p.ring.mem, p.ri1, p.ri2)
    ensures |R.Arrived(p.ring, p.ri2.doneLen)| == p.ri2.doneLen
  {
    hide R.Inv, R.Bounds;
    RoomFor(p);
  }

  /** The packet buffer takes the packet in: the input chain starts over if there is room. */
  lemma Ri2DoneFills(p: Pipe, t: Trace)
    requires Inv(p, t) && Enabled(p, Ri2Done)
    ensures var q := Step(p, t, Ri2Done);
            && Filling(q.mtu, q.writer, q.ri1, q.packet, q.ri2, q.ring)
            && Sending(q.ring, q.pi, q.sender, q.spi) && R.Bounds(q.ring)
            && R.Contents(q.ring) == R.Contents(p.ring) + [InFlight(p.ring.mem, p.ri1, p.ri2)]
            && Gone(q.pi, q.sender, q.spi) == Gone(p.pi, p.sender, p.spi)
            && InFlight(q.ring.mem, q.ri1, q.ri2) == []
  {
    hide R.Inv, R.Bounds, R.Contents, R.Submit, R.Arrived, Sizes, Accounted;
    Ri2Submits(p);
    R.SubmitAppends(p.ring, p.ri2.doneLen);
    R.OutputPresent(p.ring);
    R.OutputPresent(R.Submit(p.ring, p.ri2.doneLen));
    R.InvBounds(R.Submit(p.ring, p.ri2.doneLen));
  }

  lemma ArrivedAccounted(t: Trace, mtu: nat, cs: seq<seq<Byte>>, gone: nat, flight: seq<Byte>)
    requires Accounted(t, mtu, Concat(cs), gone, flight)
    ensures Accounted(t, mtu, Concat(cs + [flight]), gone, [])
  {
    hide Stream, Fits;
    ConcatAppend(cs, flight);
    assert (Concat(cs) + flight)[gone..] == Concat(cs)[gone..] + flight;
  }

  lemma SizesAppend(ring: R.Ring, ring': R.Ring, mtu: nat, s: seq<Byte>)
    requires R.Bounds(ring) && R.Bounds(ring') && Sizes(ring, mtu)
    requires R.Contents(ring') == R.Contents(ring) + [s] && 2 <= |s| <= 2 + mtu
    ensures Sizes(ring', mtu)
  {
    hide R.Contents;
  }

  lemma Ri2DoneKeepsInv(p: Pipe, t: Trace)
    requires Inv(p, t) && Enabled(p, Ri2Done)
    ensures Inv(Step(p, t, Ri2Done), Record(p, t, Ri2Done))
  {
    hide R.Contents, R.Inv, R.Bounds, R.Submit, Accounted, Sizes, Filling, Sending, Concat, InFlight, Step;
    Ri2DoneFills(p, t);
    Ri2Length(p);
    var q := Step(p, t, Ri2Done);
    var flight := InFlight(p.ring.mem, p.ri1, p.ri2);
    ArrivedAccounted(t, p.mtu, R.Contents(p.ring), Gone(p.pi, p.sender, p.spi), flight);
    SizesAppend(p.ring, q.ring, p.mtu, flight);
    assert q.mtu == p.mtu by { Ri2KeepsMtu(p, t); }
  }

  lemma Ri2Length(p: Pipe)
    requires Filling(p.mtu, p.writer, p.ri1, p.packet, p.ri2, p.ring) && p.ri2.phase == DonePending
    ensures 2 <= |InFlight(p.ring.mem, p.ri1, p.ri2)| <= 2 + p.mtu
  {
    hide R.Inv, R.Bounds;
    Ri2Submits(p);
  }

  lemma Ri2KeepsMtu(p: Pipe, t: Trace)
    requires Inv(p, t) && Enabled(p, Ri2Done)
    ensures Step(p, t, Ri2Done).mtu == p.mtu
  {
    hide R.Inv, R.Bounds, R.Submit, R.Contents;
  }

  /** The packet buffer drops the packet that was sent and sends the next one, if there is one. */
  lemma PiDoneSends(p: Pipe, t: Trace)
    requires Inv(p, t) && Enabled(p, PiDone)
    ensures var q := Step(p, t, PiDone);
            && Filling(q.mtu, q.writer, q.ri1, q.packet, q.ri2, q.ring)
            && Sending(q.ring, q.pi, q.sender, q.spi) && R.Bounds(q.ring) && q.mtu == p.mtu
            && R.Contents(p.ring) != [] && R.Contents(q.ring) == R.Contents(p.ring)[1..]
            && Gone(p.pi, p.sender, p.spi) == |R.Contents(p.ring)[0]| && Gone(q.pi, q.sender, q.spi) == 0
            && InFlight(q.ring.mem, q.ri1, q.ri2) == InFlight(p.ring.mem, p.ri1, p.ri2)
  {
    hide R.Inv, R.Bounds, R.Contents, R.Consume, Sizes, Accounted, Region;
    R.OutputPresent(p.ring);
    R.ConsumeRemoves(p.ring);
    R.OutputPresent(R.Consume(p.ring));
    R.InvBounds(R.Consume(p.ring));
    var c := R.Contents(p.ring);
    assert c[0] == p.ring.mem[p.ring.outputDest.value..p.ring.outputDest.value + p.ring.outputAvail];
    assert c[1..] == R.Contents(R.Consume(p.ring));
  }

  lemma SentAccounted(t: Trace, mtu: nat, cs: seq<seq<Byte>>, flight: seq<Byte>)
    requires cs != [] && Accounted(t, mtu, Concat(cs), |cs[0]|, flight)
    ensures Accounted(t, mtu, Concat(cs[1..]), 0, flight)
  {
    hide Stream, Fits;
    assert Concat(cs)[|cs[0]|..] == Concat(cs[1..]);
    assert Concat(cs[1..])[0..] == Concat(cs[1..]);
  }

  lemma SizesTail(ring: R.Ring, ring': R.Ring, mtu: nat)
    requires R.Bounds(ring) && R.Bounds(ring') && Sizes(ring, mtu)
    requires R.Contents(ring) != [] && R.Contents(ring') == R.Contents(ring)[1..]
    ensures Sizes(ring', mtu)
  {
    hide R.Contents;
  }

  lemma PiDoneKeepsInv(p: Pipe, t: Trace)
    requires Inv(p, t) && Enabled(p, PiDone)
    ensures Inv(Step(p, t, PiDone), Record(p, t, PiDone))
  {
    hide R.Contents, R.Inv, R.Bounds, R.Consume, Accounted, Sizes, Filling, Sending, Concat, InFlight, Step;
    PiDoneSends(p, t);
    SentAccounted(t, p.mtu, R.Contents(p.ring), InFlight(p.ring.mem, p.ri1, p.ri2));
    SizesTail(p.ring, Step(p, t, PiDone).ring, p.mtu);
  }

  /** Every event keeps the invariant, whatever the order in which the jobs are executed. */
  lemma StepKeepsInv(p: Pipe, t: Trace, e: Event)
    requires Inv(p, t) && Enabled(p, e)
    ensures Inv(Step(p, t, e), Record(p, t, e))
  {
    hide Inv, Step, Record;
    match e
    case Fill(bytes) => FillKeepsInv(p, t, bytes);
    case End(len) => EndKeepsInv(p, t, len);
    case Ri1Done => Ri1DoneKeepsInv(p, t);
    case Ri2Done => Ri2DoneKeepsInv(p, t);
    case PiDone => PiDoneKeepsInv(p, t);
    case Take(n) => TakeKeepsInv(p, t, n);
    case PiOperation => SenderKeepsInv(p, t, e);
    case SpiOperation => SenderKeepsInv(p, t, e);
    case SpiDone => SenderKeepsInv(p, t, e);
    case _ => SimpleKeepsInv(p, t, e);
  }
}
