/** What the flow promises over whole runs, alone and with the decoder at the other end. */
module FlowRuns {
  import opened Flow
  import opened FlowSafety
  import opened Framing
  import opened PassInterface
  import opened Basics
  import D = Decoder
  import DecoderRuns
  import R = Ring
  import opened Transfer

  ghost predicate Legal(p: Pipe, t: Trace, es: seq<Event>)
    requires Inv(p, t)
    decreases es
  {
    es == [] ||
    (Enabled(p, es[0]) &&
     (StepKeepsInv(p, t, es[0]); Legal(Step(p, t, es[0]), Record(p, t, es[0]), es[1..])))
  }

  ghost function Run(p: Pipe, t: Trace, es: seq<Event>): (r: (Pipe, Trace))
    requires Inv(p, t) && Legal(p, t, es)
    ensures Inv(r.0, r.1)
    decreases es
  {
    if es == [] then (p, t)
    else (StepKeepsInv(p, t, es[0]); Run(Step(p, t, es[0]), Record(p, t, es[0]), es[1..]))
  }

  const SILENCE := Trace([], [])

  // ---- Safety of the bytes ----

  /** The packet buffer holds nothing and no packet is on its way into it. */
  ghost predicate Drained(p: Pipe) {
    p.ring.used == 0 && p.ri1.phase != DonePending && p.ri2.phase != DonePending
  }

  /** The wire never carries anything but the encoding of what was written, in order, and carries
      all of it when the flow is drained. */
  lemma WireIsPrefix(p: Pipe, t: Trace)
    requires Inv(p, t)
    ensures Fits(t.written, p.mtu) && Fits(t.written, MAX_PAYLOAD) && t.wire <= Stream(t.written)
    ensures Drained(p) ==> t.wire == Stream(t.written)
  {
    hide R.Inv, R.Contents, R.Bounds, Sizes, Filling, Stream, Fits, R.LoadInt, R.Blocks;
    if Drained(p) {
      R.UsedIsCost(p.ring);
      CostNone(R.Contents(p.ring));
    }
  }

  lemma CostNone(ps: seq<Packet>)
    requires R.Cost(ps) == 0
    ensures ps == [] && Concat(ps) == []
  {
  }

  // ---- Flow control ----

  predicate Settled(i: Phase) {
    i == Idle || i == Busy
  }

  predicate Quiet(p: Pipe) {
    Settled(p.ri1.phase) && Settled(p.ri2.phase) && Settled(p.pi.phase) && Settled(p.spi.phase)
  }

  /** A receive is outstanding exactly when there is room for a packet of the MTU, a send exactly
      when there is a packet; when no job is left, the user may write exactly in the first case and
      the transport is busy exactly in the second, and one of the two holds: no deadlock. */
  lemma FlowControl(p: Pipe, t: Trace)
    requires Inv(p, t)
    ensures p.ri2.phase != Idle <==> p.ring.inputAvail >= 2 + p.mtu
    ensures p.pi.phase != Idle <==> p.ring.used > 0
    ensures Quiet(p) ==> (p.writer.out.Some? <==> p.ring.inputAvail >= 2 + p.mtu)
    ensures Quiet(p) ==> (p.spi.phase == Busy <==> p.ring.used > 0)
    ensures Quiet(p) ==> p.writer.out.Some? || p.spi.phase == Busy
  {
    hide R.Inv, R.Contents, Sizes, Accounted, R.Blocks;
    if p.ring.used == 0 {
      EmptyHasRoom(p, t);
    }
  }

  lemma EmptyHasRoom(p: Pipe, t: Trace)
    requires Inv(p, t) && p.ring.used == 0
    ensures p.ring.inputAvail >= 2 + p.mtu
  {
    hide R.Inv, R.Contents, Sizes, Accounted, Sending;
    R.EmptyAvail(p.ring);
  }

  /** While the buffer holds fewer than num packets it takes another one: with the size that
      PacketBuffer_Init computes, a quiet flow refuses StartPacket only when num packets wait. */
  lemma AcceptsUpToNum(p: Pipe, t: Trace, num: nat)
    requires Inv(p, t) && p.ring.size == R.BlocksFor(2 + p.mtu, num)
    requires R.Bounds(p.ring) && |R.Contents(p.ring)| < num
    ensures p.ring.inputAvail >= 2 + p.mtu
    ensures Quiet(p) && !p.writer.writing ==> Step(p, t, Start).writer.writing
  {
    hide R.Inv, R.Contents, Accounted, Sending, R.Bounds, Step;
    R.RoomForNum(p.ring, num) by {
      forall s | s in R.Contents(p.ring) ensures R.Blocks(|s|) <= p.ring.mtu { BlocksMonotone(|s|, 2 + p.mtu); }
    }
    FlowControl(p, t);
    if Quiet(p) && !p.writer.writing { StartWrites(p, t); }
  }

  lemma StartWrites(p: Pipe, t: Trace)
    requires Inv(p, t) && p.writer.out.Some? && !p.writer.writing
    ensures Step(p, t, Start).writer.writing
  {
  }

  lemma BlocksMonotone(a: nat, b: nat)
    requires a <= b
    ensures R.Blocks(a) <= R.Blocks(b)
  {
  }

  // ---- Progress ----

  predicate ByUser(e: Event) {
    e.Start? || e.Fill? || e.End?
  }

  /** Steps a packet of n bytes takes at most from the buffer to the wire. */
  function SendCost(n: nat): nat {
    3 * n + 2
  }

  ghost function SendCosts(ps: seq<Packet>): nat {
    if ps == [] then 0 else SendCost(|ps[0]|) + SendCosts(ps[1..])
  }

  /** Steps until the writer has a region again, with the packet in flight. */
  function InputWork(ri1: Lend, ri2: Lend): nat {
    if ri1.phase == DonePending then 4 + SendCost(2 + ri1.doneLen)
    else if ri2.phase == DonePending then 3 + SendCost(ri2.doneLen)
    else if ri2.phase == Busy then (if ri1.phase == OperationPending then 1 else 0)
    else 2
  }

  /** Steps until the first packet has gone. */
  function FirstWork(pi: Lend, sender: Sender, spi: Lend): int {
    if pi.phase == OperationPending then SendCost(pi.len)
    else if pi.phase == DonePending then 1
    else if pi.phase == Busy then
      3 * (sender.inLen - sender.used)
      + (if spi.phase == OperationPending then 1 else if spi.phase == Busy then 0 else -1)
    else 0
  }

  ghost function Work(p: Pipe): int
    requires R.Bounds(p.ring)
  {
    var ps := R.Contents(p.ring);
    InputWork(p.ri1, p.ri2) + FirstWork(p.pi, p.sender, p.spi) + (if ps == [] then 0 else SendCosts(ps[1..]))
  }


  lemma {:induction false} SendCostsAppend(ps: seq<Packet>, p: Packet)
    ensures SendCosts(ps + [p]) == SendCosts(ps) + SendCost(|p|)
  {
    if ps == [] {
      assert ps + [p] == [p] && [p][1..] == [];
    } else {
      SendCostsAppend(ps[1..], p);
      assert (ps + [p])[1..] == ps[1..] + [p];
    }
  }

  /** The work on the packets in the buffer, given what is left of the first. */
  ghost function QueueWork(ps: seq<Packet>, first: int): int {
    first + (if ps == [] then 0 else SendCosts(ps[1..]))
  }

  lemma QueueGrows(ps: seq<Packet>, p: Packet, first: int, first': int)
    requires if ps == [] then first == 0 && first' == SendCost(|p|) else first' == first
    ensures QueueWork(ps + [p], first') == QueueWork(ps, first) + SendCost(|p|)
  {
    if ps == [] {
      assert ps + [p] == [p] && [p][1..] == [];
    } else {
      assert (ps + [p])[1..] == ps[1..] + [p];
      SendCostsAppend(ps[1..], p);
    }
  }

  lemma NoPackets(r: R.Ring)
    requires R.Inv(r) && R.Bounds(r)
    ensures r.used == 0 <==> R.Contents(r) == []
  {
    hide R.Inv, R.Contents, R.Blocks;
    R.UsedIsCost(r);
    if r.used == 0 { CostNone(R.Contents(r)); }
  }

  lemma SubmitWorks(p: Pipe, t: Trace)
    requires Inv(p, t) && Enabled(p, Ri2Done)
    ensures R.Bounds(Step(p, t, Ri2Done).ring) && Work(Step(p, t, Ri2Done)) < Work(p)
  {
    hide R.Inv, R.Bounds, R.Contents, R.Submit, Sizes, Accounted, Concat, Sending;
    Ri2DoneFills(p, t);
    Ri2Length(p);
    NoPackets(p.ring);
    SubmitFirst(p, t);
    var q := Step(p, t, Ri2Done);
    QueueGrows(R.Contents(p.ring), InFlight(p.ring.mem, p.ri1, p.ri2), FirstWork(p.pi, p.sender, p.spi),
               FirstWork(q.pi, q.sender, q.spi));
  }

  lemma SubmitFirst(p: Pipe, t: Trace)
    requires Inv(p, t) && Enabled(p, Ri2Done)
    ensures var q := Step(p, t, Ri2Done);
            && (if p.ring.used == 0
                then FirstWork(p.pi, p.sender, p.spi) == 0
                     && FirstWork(q.pi, q.sender, q.spi) == SendCost(p.ri2.doneLen)
                else FirstWork(q.pi, q.sender, q.spi) == FirstWork(p.pi, p.sender, p.spi))
            && InputWork(q.ri1, q.ri2) <= 2
            && |InFlight(p.ring.mem, p.ri1, p.ri2)| == p.ri2.doneLen
  {
    hide R.Inv, R.Bounds, R.Contents, R.Submit, Sizes, Accounted, Concat;
    Ri2Submits(p);
    R.OutputPresent(p.ring);
    if p.ring.used == 0 { R.SubmitIntoEmpty(p.ring, p.ri2.doneLen); }
  }

  lemma ConsumeWorks(p: Pipe, t: Trace)
    requires Inv(p, t) && Enabled(p, PiDone)
    ensures R.Bounds(Step(p, t, PiDone).ring) && Work(Step(p, t, PiDone)) < Work(p)
  {
    hide R.Inv, R.Bounds, R.Contents, R.Consume, Sizes, Accounted, Concat, Sending;
    PiDoneSends(p, t);
    ConsumeFirst(p, t);
    NoPackets(Step(p, t, PiDone).ring);
  }

  lemma ConsumeFirst(p: Pipe, t: Trace)
    requires Inv(p, t) && Enabled(p, PiDone)
    ensures var q := Step(p, t, PiDone);
            && R.Inv(q.ring) && R.Bounds(q.ring)
            && FirstWork(q.pi, q.sender, q.spi) ==
               (if R.Contents(q.ring) == [] then 0 else SendCost(|R.Contents(q.ring)[0]|))
            && InputWork(q.ri1, q.ri2) == InputWork(p.ri1, p.ri2)
  {
    hide R.Inv, R.Bounds, R.Contents, R.Consume, Accounted, Concat, Sizes;
    PiDoneSends(p, t);
    var q := Step(p, t, PiDone);
    NoPackets(q.ring);
    R.OutputPresent(p.ring);
    R.OutputPresent(q.ring);
    if q.ring.used > 0 {
      R.ConsumeRemoves(q.ring);
    }
  }

  lemma OtherWorks(p: Pipe, t: Trace, e: Event)
    requires Inv(p, t) && Enabled(p, e) && !ByUser(e) && !e.Ri2Done? && !e.PiDone?
    ensures R.Bounds(Step(p, t, e).ring) && Work(Step(p, t, e)) < Work(p)
  {
    hide R.Inv, R.Bounds, R.Contents, Accounted, Concat, Sizes;
    StepKeepsInv(p, t, e);
    R.InvBounds(Step(p, t, e).ring);
    assert R.Contents(Step(p, t, e).ring) == R.Contents(p.ring) by {
      if e.Ri1Done? { FillRegion(p, p.ri2.data, Header(p.ri1.doneLen)); }
    }
    if p.ring.used > 0 { FirstLength(p.ring, p.mtu); }
  }

  /** Every step that is not the user's leaves less work. */
  lemma StepWorks(p: Pipe, t: Trace, e: Event)
    requires Inv(p, t) && Enabled(p, e) && !ByUser(e)
    ensures R.Bounds(Step(p, t, e).ring) && Work(Step(p, t, e)) < Work(p)
  {
    hide Inv, Step, Work;
    if e.Ri2Done? {
      SubmitWorks(p, t);
    } else if e.PiDone? {
      ConsumeWorks(p, t);
    } else {
      OtherWorks(p, t, e);
    }
  }

  lemma WorkBounds(p: Pipe, t: Trace)
    requires Inv(p, t)
    ensures R.Bounds(p.ring) && Work(p) >= 0
  {
    hide R.Inv, R.Contents, R.Bounds, Accounted, Sizes, Filling;
  }

  /** A flow that can do nothing but wait for its user has put everything on the wire and offers the
      user a region for the next packet. */
  lemma StuckIsDrained(p: Pipe, t: Trace)
    requires Inv(p, t) && forall e :: Enabled(p, e) ==> ByUser(e)
    ensures Drained(p) && t.wire == Stream(t.written) && p.writer.out.Some?
  {
    hide R.Inv, R.Contents, Sizes, Accounted, Filling, Sending, Stream;
    assert !Enabled(p, Ri1Operation) && !Enabled(p, Ri1Done) && !Enabled(p, Ri2Operation) && !Enabled(p, Ri2Done);
    assert !Enabled(p, PiOperation) && !Enabled(p, PiDone) && !Enabled(p, SpiOperation) && !Enabled(p, SpiDone);
    assert !Enabled(p, Take(1));
    FlowControl(p, t);
    if p.spi.phase == Busy { BusyHasBytes(p, t); }
    WireIsPrefix(p, t);
  }

  lemma BusyHasBytes(p: Pipe, t: Trace)
    requires Inv(p, t) && p.spi.phase == Busy
    ensures Enabled(p, Take(1))
  {
    hide R.Inv, R.Contents, Sizes, Accounted, Filling;
  }

  /** Without the user the flow runs down: a run has at most Work(p) steps, and wherever it cannot be
      continued all that was written is on the wire. */
  lemma {:induction false} RunsDown(p: Pipe, t: Trace, es: seq<Event>)
    requires Inv(p, t) && Legal(p, t, es) && forall e :: e in es ==> !ByUser(e)
    ensures R.Bounds(p.ring) && |es| <= Work(p)
    ensures Run(p, t, es).1.written == t.written
    ensures (forall e :: Enabled(Run(p, t, es).0, e) ==> ByUser(e)) ==> Run(p, t, es).1.wire == Stream(t.written)
    decreases |es|
  {
    hide Inv, Step, Work, Stream;
    WorkBounds(p, t);
    if es == [] {
      if forall e :: Enabled(p, e) ==> ByUser(e) { StuckIsDrained(p, t); }
    } else {
      var e := es[0];
      assert e in es;
      StepKeepsInv(p, t, e);
      StepWorks(p, t, e);
      RunsDown(Step(p, t, e), Record(p, t, e), es[1..]);
    }
  }

  // ---- End to end ----

  lemma {:induction false} RunKeepsMtu(p: Pipe, t: Trace, es: seq<Event>)
    requires Inv(p, t) && Legal(p, t, es)
    ensures Run(p, t, es).0.mtu == p.mtu && Run(p, t, es).0.ring.size == p.ring.size
    ensures Run(p, t, es).0.ring.mtu == p.ring.mtu
    decreases |es|
  {
    hide Inv, Step, Record, Enabled;
    if es != [] {
      StepKeepsInv(p, t, es[0]);
      StepKeepsMtu(p, t, es[0]);
      RunKeepsMtu(Step(p, t, es[0]), Record(p, t, es[0]), es[1..]);
    }
  }

  lemma StepKeepsMtu(p: Pipe, t: Trace, e: Event)
    requires Inv(p, t) && Enabled(p, e)
    ensures var q := Step(p, t, e); q.mtu == p.mtu && q.ring.size == p.ring.size && q.ring.mtu == p.ring.mtu
  {
    hide R.Inv, R.Contents, Sizes, Accounted, Sending, R.Submit, R.Consume, R.Bounds;
    if e.Ri2Done? {
      Ri2Submits(p);
      R.SubmitAppends(p.ring, p.ri2.doneLen);
    } else if e.PiDone? {
      PiDoneSends(p, t);
      ConsumeKeepsSize(p, t);
    }
  }

  lemma ConsumeKeepsSize(p: Pipe, t: Trace)
    requires Inv(p, t) && Enabled(p, PiDone)
    ensures var q := Step(p, t, PiDone); q.ring.size == p.ring.size && q.ring.mtu == p.ring.mtu
  {
    hide R.Inv, R.Contents, Sizes, Accounted, Filling, R.Consume, R.Bounds;
    R.OutputPresent(p.ring);
    R.ConsumeRemoves(p.ring);
  }

  /** With the buffer that PacketBuffer_Init allocates for num packets, no run makes a flow with no
      job left refuse a packet while fewer than num wait to be sent. */
  lemma RunAccepts(mem: seq<Byte>, num: nat, mtu: nat, es: seq<Event>)
    requires num > 0 && mtu <= MAX_PAYLOAD && |mem| == 4 * R.BlocksFor(2 + mtu, num)
             && R.Countable(R.BlocksFor(2 + mtu, num))
    requires (InitInv(mem, R.BlocksFor(2 + mtu, num), mtu);
              Legal(Init(mem, R.BlocksFor(2 + mtu, num), mtu), SILENCE, es))
    ensures Inv(Init(mem, R.BlocksFor(2 + mtu, num), mtu), SILENCE)
    ensures var (p, t) := Run(Init(mem, R.BlocksFor(2 + mtu, num), mtu), SILENCE, es);
            && R.Bounds(p.ring)
            && (Quiet(p) && !p.writer.writing && |R.Contents(p.ring)| < num ==> Step(p, t, Start).writer.writing)
  {
    hide Inv, Run, Legal, R.Contents, R.Bounds, R.Blocks, Step, Quiet;
    var blocks := R.BlocksFor(2 + mtu, num);
    InitInv(mem, blocks, mtu);
    var start := Init(mem, blocks, mtu);
    var (p, t) := Run(start, SILENCE, es);
    RunKeepsMtu(start, SILENCE, es);
    WorkBounds(p, t);
    if |R.Contents(p.ring)| < num { AcceptsUpToNum(p, t, num); }
  }

  /** A flow and a decoder on the two ends of a byte stream that may delay and cut but not change the
      bytes: at every moment of every run, however the jobs are ordered, the writes and reads are cut
      and the ends are interleaved, the packets delivered are the first of those written, byte for
      byte and with no error; they are all of them once the flow is drained, the stream is empty and
      the decoder waits. The decoder's MTU must not be below the flow's. */
  lemma EndToEnd(mem: seq<Byte>, blocks: nat, mtu: nat, es: seq<Event>, buf: seq<Byte>, decoderMtu: nat,
                 ds: seq<D.Event>)
    requires mtu <= decoderMtu <= MAX_PAYLOAD && R.Blocks(2 + mtu) < blocks && |mem| == 4 * blocks
             && R.Countable(blocks)
    requires (InitInv(mem, blocks, mtu); Legal(Init(mem, blocks, mtu), SILENCE, es))
    requires |buf| == 2 + decoderMtu && D.Reset !in ds
    requires (D.InitInv(buf, decoderMtu); DecoderRuns.Legal(D.Init(buf, decoderMtu), D.NEW_LOG, ds))
    requires DecoderRuns.Fed(ds) <= Run(Init(mem, blocks, mtu), SILENCE, es).1.wire
    ensures Inv(Init(mem, blocks, mtu), SILENCE) && D.Inv(D.Init(buf, decoderMtu), D.NEW_LOG)
    ensures var (p, t) := Run(Init(mem, blocks, mtu), SILENCE, es);
            var (d, l) := DecoderRuns.Run(D.Init(buf, decoderMtu), D.NEW_LOG, ds);
            && l.errors == 0 && l.delivered <= t.written
            && (Drained(p) && DecoderRuns.Fed(ds) == t.wire
                && (d.input.phase == OperationPending || d.input.phase == Busy) ==>
                  l.delivered == t.written)
  {
    hide Inv, Run, D.Inv, D.Init, Stream, Fits, DecoderRuns.Fed, DecoderRuns.Run, DecoderRuns.Legal, Legal, Drained;
    InitInv(mem, blocks, mtu);
    D.InitInv(buf, decoderMtu);
    var start := Init(mem, blocks, mtu);
    var (p, t) := Run(start, SILENCE, es);
    RunKeepsMtu(start, SILENCE, es);
    WireIsPrefix(p, t);
    FitsMore(t.written, mtu, decoderMtu);
    DecoderRuns.RoundTrip(buf, decoderMtu, ds, t.written);
  }

  /** Everything arrives: where neither end can go on by itself, which RunsDown shows is reached after a
      bounded number of steps on both sides, and the stream has handed over what is on the wire, the
      packets delivered are the packets written. */
  lemma EndToEndAtRest(mem: seq<Byte>, blocks: nat, mtu: nat, es: seq<Event>,
                       buf: seq<Byte>, decoderMtu: nat, ds: seq<D.Event>)
    requires mtu <= decoderMtu <= MAX_PAYLOAD && R.Blocks(2 + mtu) < blocks
    requires |mem| == 4 * blocks && R.Countable(blocks)
    requires (InitInv(mem, blocks, mtu); Legal(Init(mem, blocks, mtu), SILENCE, es))
    requires |buf| == 2 + decoderMtu && D.Reset !in ds
    requires (D.InitInv(buf, decoderMtu); DecoderRuns.Legal(D.Init(buf, decoderMtu), D.NEW_LOG, ds))
    requires DecoderRuns.Fed(ds) == Run(Init(mem, blocks, mtu), SILENCE, es).1.wire
    requires forall e :: Enabled(Run(Init(mem, blocks, mtu), SILENCE, es).0, e) ==> ByUser(e)
    requires forall e :: D.Enabled(DecoderRuns.Run(D.Init(buf, decoderMtu), D.NEW_LOG, ds).0, e) ==>
                           DecoderRuns.FromOutside(e)
    ensures Inv(Init(mem, blocks, mtu), SILENCE) && D.Inv(D.Init(buf, decoderMtu), D.NEW_LOG)
    ensures var l := DecoderRuns.Run(D.Init(buf, decoderMtu), D.NEW_LOG, ds).1;
            l.errors == 0 && l.delivered == Run(Init(mem, blocks, mtu), SILENCE, es).1.written
  {
    hide Inv, Run, D.Inv, D.Init, Stream, Fits, DecoderRuns.Fed, DecoderRuns.Run, DecoderRuns.Legal, Legal, Read, Init,
         Enabled, D.Enabled, ByUser, DecoderRuns.FromOutside;
    InitInv(mem, blocks, mtu);
    D.InitInv(buf, decoderMtu);
    var (p, t) := Run(Init(mem, blocks, mtu), SILENCE, es);
    var (d, l) := DecoderRuns.Run(D.Init(buf, decoderMtu), D.NEW_LOG, ds);
    StuckIsDrained(p, t);
    DecoderRuns.StuckWaits(d, l);
    EndToEnd(mem, blocks, mtu, es, buf, decoderMtu, ds);
  }

  lemma FitsMore(ps: seq<Packet>, a: nat, b: nat)
    requires Fits(ps, a) && a <= b
    ensures Fits(ps, b)
  {
  }
}
