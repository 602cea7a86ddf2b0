/** PacketProtoFlow.c with its stages and the stream sender behind it, on values: BufferWriter,
    PacketProtoEncoder, PacketBuffer and PacketStreamSender pass regions of one memory along. */
module Flow {
  import opened Framing
  import opened Memory
  import opened PassInterface
  import opened Basics
  import R = Ring
  import opened Transfer

  // ---- BufferWriter.c ----

  /** out is None when out_have is 0. */
  datatype Writer = Writer(out: Option<nat>, writing: bool)

  function WriterRecv(w: Writer, data: nat): Writer
    requires w.out.None?
  {
    w.(out := Some(data))
  }

  /** The packet is refused when there is no buffer for it. */
  function StartPacket(w: Writer): Writer
    requires !w.writing
  {
    w.(writing := w.out.Some?)
  }

  function EndPacket(w: Writer): Writer
    requires w.out.Some? && w.writing
  {
    Writer(None, false)
  }

  // ---- PacketProtoEncoder.c; the state is output_packet ----

  /** output_handler_recv; input is the interface of the writer. */
  function EncoderRecv(input: Lend, data: nat, mtu: nat): Lend
    requires input.phase == Idle
  {
    Offer(input, data + 2, mtu)
  }

  /** input_handler_done writes the header in front of the packet. */
  function WriteLength(mem: seq<Byte>, packet: nat, inLen: nat): seq<Byte>
    requires inLen <= MAX_PAYLOAD && packet + 2 <= |mem|
  {
    Write(mem, packet, Header(inLen))
  }

  // ---- PacketBuffer.c; input is the encoder's interface, output the stream sender's ----

  datatype Stage = Stage(ring: R.Ring, input: Lend, output: Lend)

  function BufferInputDone(s: Stage, inputMtu: nat, inLen: nat): Stage
    requires R.Inv(s.ring) && s.ring.inputDest.Some? && inLen <= s.ring.inputAvail
    requires s.input.phase == Idle && (s.ring.outputAvail < 0 ==> s.output.phase == Idle)
  {
    R.SubmitAppends(s.ring, inLen);
    var r := R.Submit(s.ring, inLen);
    R.OutputPresent(r);
    Stage(r,
          if r.inputAvail >= inputMtu then Offer(s.input, r.inputDest.value, inputMtu) else s.input,
          if s.ring.outputAvail < 0 then Offer(s.output, r.outputDest.value, r.outputAvail) else s.output)
  }

  function BufferOutputDone(s: Stage, inputMtu: nat): Stage
    requires R.Inv(s.ring) && s.ring.outputDest.Some?
    requires s.output.phase == Idle && (s.ring.inputAvail < inputMtu ==> s.input.phase == Idle)
  {
    R.ConsumeRemoves(s.ring);
    var r := R.Consume(s.ring);
    Stage(r,
          if s.ring.inputAvail < inputMtu && r.inputAvail >= inputMtu
          then Offer(s.input, r.inputDest.value, inputMtu) else s.input,
          if r.outputAvail >= 0 then Offer(s.output, r.outputDest.value, r.outputAvail) else s.output)
  }

  // ---- PacketStreamSender.c ----

  /** inLen is -1 when there is no packet. */
  datatype Sender = Sender(inLen: int, data: nat, used: nat)

  datatype SenderPort = SenderPort(s: Sender, input: Lend, output: Lend)

  /** send_data. */
  function SendData(p: SenderPort): SenderPort
    requires p.s.inLen >= 0 && p.input.phase == Busy && p.output.phase == Idle
  {
    if p.s.used < p.s.inLen
    then p.(output := Offer(p.output, p.s.data + p.s.used, p.s.inLen - p.s.used))
    else p.(s := p.s.(inLen := -1), input := Report(p.input, 0))
  }

  function SenderInput(p: SenderPort, data: nat, len: nat): SenderPort
    requires p.s.inLen == -1 && p.input.phase == Busy && p.output.phase == Idle
  {
    SendData(p.(s := Sender(len, data, 0)))
  }

  function SenderOutputDone(p: SenderPort, n: nat): SenderPort
    requires p.s.inLen >= 0 && 0 < n <= p.s.inLen - p.s.used && p.input.phase == Busy && p.output.phase == Idle
  {
    SendData(p.(s := p.s.(used := p.s.used + n)))
  }

  // ---- The whole flow ----

  /** ri1 is the interface of the writer, ri2 that of the encoder, pi that of the stream sender and
      spi the stream below it. packet is the encoder's output_packet. The memory is ring.mem. */
  datatype Pipe = Pipe(
    mtu: nat,
    writer: Writer,
    ri1: Lend,
    packet: Option<nat>,
    ri2: Lend,
    ring: R.Ring,
    pi: Lend,
    sender: Sender,
    spi: Lend)

  /** PacketProtoFlow_Init and PacketBuffer_Init; mem is the allocated buffer. */
  function Init(mem: seq<Byte>, blocks: nat, mtu: nat): Pipe
    requires R.Blocks(2 + mtu) < blocks && |mem| == 4 * blocks
  {
    R.InitIsEmpty(mem, blocks, 2 + mtu);
    var r := R.Init(mem, blocks, 2 + mtu);
    Pipe(mtu, Writer(None, false), NOTHING_LENT, None, Offer(NOTHING_LENT, r.inputDest.value, 2 + mtu), r,
         NOTHING_LENT, Sender(-1, 0, 0), NOTHING_LENT)
  }

  datatype Event =
    | Start                       // the user calls StartPacket
    | Fill(bytes: seq<Byte>)      // the user writes into the packet
    | End(len: nat)               // the user calls EndPacket
    | Ri1Operation | Ri1Done      // the jobs of the interfaces, in any order
    | Ri2Operation | Ri2Done
    | PiOperation | PiDone
    | SpiOperation | SpiDone
    | Take(n: nat)                // the transport takes n bytes

  predicate Enabled(p: Pipe, e: Event) {
    match e
    case Start => !p.writer.writing
    case Fill(bytes) => p.writer.writing && |bytes| == p.mtu
    case End(len) => p.writer.writing && len <= p.mtu
    case Ri1Operation => p.ri1.phase == OperationPending
    case Ri1Done => p.ri1.phase == DonePending
    case Ri2Operation => p.ri2.phase == OperationPending
    case Ri2Done => p.ri2.phase == DonePending
    case PiOperation => p.pi.phase == OperationPending
    case PiDone => p.pi.phase == DonePending
    case SpiOperation => p.spi.phase == OperationPending
    case SpiDone => p.spi.phase == DonePending
    case Take(n) => p.spi.phase == Busy && 0 < n <= p.spi.len
  }

  /** The packets the user finished and the bytes the transport took. */
  datatype Trace = Trace(written: seq<Packet>, wire: seq<Byte>)

  ghost function Concat(ss: seq<seq<Byte>>): seq<Byte> {
    if ss == [] then [] else ss[0] + Concat(ss[1..])
  }

  /** From the writer to the buffer: who holds the region that is being filled. */
  ghost predicate Filling(mtu: nat, writer: Writer, ri1: Lend, packet: Option<nat>, ri2: Lend, ring: R.Ring) {
    && mtu <= MAX_PAYLOAD && R.Inv(ring) && ring.mtu == R.Blocks(2 + mtu) < ring.size
    && (ri2.phase == Idle <==> ring.inputAvail < 2 + mtu)
    && (ri2.phase != Idle ==> ring.inputDest == Some(ri2.data) && ri2.len == 2 + mtu)
    && (packet == if ri2.phase == Busy then Some(ri2.data) else None)
    && (ri1.phase != Idle <==> ri2.phase == Busy)
    && (ri1.phase != Idle ==> ri1.data == ri2.data + 2 && ri1.len == mtu)
    && (ri1.phase == DonePending ==> ri1.doneLen <= mtu)
    && (writer.out == if ri1.phase == Busy then Some(ri1.data) else None)
    && (writer.writing ==> writer.out.Some?)
    && (ri2.phase == DonePending ==> 2 <= ri2.doneLen <= 2 + mtu)
  }

  /** From the buffer to the transport: who holds the first packet. */
  ghost predicate Sending(ring: R.Ring, pi: Lend, sender: Sender, spi: Lend) {
    && R.Inv(ring)
    && (pi.phase == Idle <==> ring.used == 0)
    && (pi.phase != Idle ==> ring.outputDest == Some(pi.data) && pi.len == ring.outputAvail)
    && (if pi.phase == Busy
        then sender.inLen == pi.len && sender.data == pi.data && sender.used < pi.len
        else sender.inLen == -1)
    && (spi.phase != Idle <==> pi.phase == Busy)
    && (spi.phase != Idle ==> spi.data == sender.data + sender.used && spi.len == sender.inLen - sender.used)
    && (spi.phase == DonePending ==> 0 < spi.doneLen <= spi.len)
  }

  /** Bytes of the memory, as far as it reaches. */
  ghost function Region(mem: seq<Byte>, at: nat, len: nat): seq<Byte> {
    if at + len <= |mem| then mem[at..at + len] else []
  }

  /** The packet on its way from the writer to the buffer, encoded. */
  ghost function InFlight(mem: seq<Byte>, ri1: Lend, ri2: Lend): seq<Byte> {
    if ri1.phase == DonePending && ri1.doneLen <= MAX_PAYLOAD then
      Header(ri1.doneLen) + Region(mem, ri1.data, ri1.doneLen)
    else if ri2.phase == DonePending then
      Region(mem, ri2.data, ri2.doneLen)
    else []
  }

  /** How much of the first packet in the buffer is on the wire. */
  ghost function Gone(pi: Lend, sender: Sender, spi: Lend): nat {
    if pi.phase == Busy then sender.used + (if spi.phase == DonePending then spi.doneLen else 0)
    else if pi.phase == DonePending then pi.len
    else 0
  }

  /** Every packet in the buffer carries a header and is not longer than the buffer's MTU. */
  ghost predicate Sizes(ring: R.Ring, mtu: nat)
    requires R.Bounds(ring)
  {
    forall s :: s in R.Contents(ring) ==> 2 <= |s| <= 2 + mtu
  }

  /** Nothing is lost and nothing is made up: the encoding of what was written is what is on the
      wire, then the unsent part of the buffer, then the packet in flight. */
  ghost predicate Accounted(t: Trace, mtu: nat, buffered: seq<Byte>, gone: nat, flight: seq<Byte>) {
    && Fits(t.written, mtu) && Fits(t.written, MAX_PAYLOAD)
    && gone <= |buffered|
    && Stream(t.written) == t.wire + (buffered[gone..] + flight)
  }

  ghost predicate Inv(p: Pipe, t: Trace) {
    && Filling(p.mtu, p.writer, p.ri1, p.packet, p.ri2, p.ring)
    && Sending(p.ring, p.pi, p.sender, p.spi)
    && R.Bounds(p.ring) && Sizes(p.ring, p.mtu)
    && Accounted(t, p.mtu, Concat(R.Contents(p.ring)), Gone(p.pi, p.sender, p.spi), InFlight(p.ring.mem, p.ri1, p.ri2))
  }

  function Step(p: Pipe, t: Trace, e: Event): Pipe
    requires Inv(p, t) && Enabled(p, e)
  {
    match e
    case Start => p.(writer := StartPacket(p.writer))
    case Fill(bytes) =>
      RoomFor(p);
      p.(ring := p.ring.(mem := Write(p.ring.mem, p.writer.out.value, bytes)))
    case End(len) => p.(writer := EndPacket(p.writer), ri1 := Report(p.ri1, len))
    case Ri1Operation => p.(ri1 := Accept(p.ri1), writer := WriterRecv(p.writer, p.ri1.data))
    case Ri1Done =>
      RoomFor(p);
      p.(ri1 := Settle(p.ri1), packet := None,
         ring := p.ring.(mem := WriteLength(p.ring.mem, p.packet.value, p.ri1.doneLen)),
         ri2 := Report(p.ri2, 2 + p.ri1.doneLen))
    case Ri2Operation =>
      p.(ri2 := Accept(p.ri2), packet := Some(p.ri2.data), ri1 := EncoderRecv(p.ri1, p.ri2.data, p.mtu))
    case Ri2Done =>
      R.OutputPresent(p.ring);
      var s := BufferInputDone(Stage(p.ring, Settle(p.ri2), p.pi), 2 + p.mtu, p.ri2.doneLen);
      p.(ring := s.ring, ri2 := s.input, pi := s.output)
    case PiOperation =>
      R.OutputPresent(p.ring);
      var s := SenderInput(SenderPort(p.sender, Accept(p.pi), p.spi), p.pi.data, p.pi.len);
      p.(sender := s.s, pi := s.input, spi := s.output)
    case PiDone =>
      var s := BufferOutputDone(Stage(p.ring, p.ri2, Settle(p.pi)), 2 + p.mtu);
      p.(ring := s.ring, ri2 := s.input, pi := s.output)
    case SpiOperation => p.(spi := Accept(p.spi))
    case SpiDone =>
      var s := SenderOutputDone(SenderPort(p.sender, p.pi, Settle(p.spi)), p.spi.doneLen);
      p.(sender := s.s, pi := s.input, spi := s.output)
    case Take(n) => p.(spi := Report(p.spi, n))
  }

  function Record(p: Pipe, t: Trace, e: Event): Trace
    requires Inv(p, t) && Enabled(p, e)
  {
    match e
    case End(len) =>
      RoomFor(p);
      t.(written := t.written + [p.ring.mem[p.writer.out.value..p.writer.out.value + len]])
    case Take(n) =>
      TakeFacts(p);
      t.(wire := t.wire + p.ring.mem[p.spi.data..p.spi.data + n])
    case _ => t
  }

  /** The region being filled lies in the memory. */
  lemma RoomFor(p: Pipe)
    requires Filling(p.mtu, p.writer, p.ri1, p.packet, p.ri2, p.ring) && p.ri2.phase != Idle
    ensures R.Bounds(p.ring) && p.ring.inputDest == Some(p.ri2.data) && p.ring.inputAvail >= 2 + p.mtu
    ensures p.ri2.data + 2 + p.mtu <= p.ri2.data + p.ring.inputAvail <= |p.ring.mem|
  {
    hide R.Chained;
  }

  lemma TakeFacts(p: Pipe)
    requires Sending(p.ring, p.pi, p.sender, p.spi) && p.spi.phase != Idle
    ensures R.Bounds(p.ring) && p.spi.data + p.spi.len <= |p.ring.mem|
    ensures R.Contents(p.ring) != [] && p.spi.len == |R.Contents(p.ring)[0]| - p.sender.used
    ensures p.ring.mem[p.spi.data..p.spi.data + p.spi.len] == R.Contents(p.ring)[0][p.sender.used..]
  {
    hide R.Inv, R.Contents, R.Consume;
    R.InvBounds(p.ring);
    R.ConsumeRemoves(p.ring);
  }
}
