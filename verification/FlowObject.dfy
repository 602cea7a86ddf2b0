/** BufferWriter.c, PacketProtoEncoder.c, PacketBuffer.c and PacketStreamSender.c in place, each
    method proved to act as the function of Flow with the same name. Addresses are positions in the
    memory that PacketBuffer allocates. */
module FlowObject {
  import opened ChunkBuffer
  import opened Flow
  import opened Framing
  import opened PassInterface
  import opened Basics
  import opened Pending
  import R = Ring
  import opened Transfer

  class BufferWriter {
    const recvInterface: LendInterface
    const mtu: nat
    var outHave: bool
    var out: nat
    var writing: bool

    ghost function View(): Writer
      reads this
    {
      Writer(if outHave then Some(out) else None, writing)
    }

    constructor (id: nat, mtu: nat, pg: PendingGroup)
      ensures View() == Writer(None, false) && this.mtu == mtu && fresh(recvInterface)
      ensures recvInterface.State() == NOTHING_LENT && recvInterface.mtu == Some(mtu) && recvInterface.pg == pg
      ensures recvInterface.id == id
    {
      recvInterface := new LendInterface(id, Some(mtu), pg);
      this.mtu := mtu;
      outHave, out, writing := false, 0, false;
    }

    method OutputHandlerRecv(data: nat)
      requires !outHave
      modifies this
      ensures View() == WriterRecv(old(View()), data)
    {
      outHave := true;
      out := data;
    }

    /** Refuses the packet when there is no region for it. */
    method StartPacket() returns (ok: bool, buf: nat)
      requires !writing
      modifies this
      ensures View() == Flow.StartPacket(old(View()))
      ensures ok == old(outHave) && (ok ==> View().out == Some(buf))
    {
      if !outHave {
        return false, 0;
      }
      writing := true;
      return true, out;
    }

    method EndPacket(len: nat)
      requires len <= mtu && outHave && writing
      requires recvInterface.phase == Busy && recvInterface.mtu == Some(mtu) && recvInterface.len == mtu
      modifies this, recvInterface, recvInterface.pg
      ensures View() == Flow.EndPacket(old(View()))
      ensures recvInterface.View() == LendPort(Report(old(recvInterface.State()), len),
                                               Set(old(recvInterface.pg.jobs), Done(recvInterface.id)))
    {
      outHave := false;
      recvInterface.Finished(len);
      writing := false;
    }
  }

  class PacketProtoEncoder {
    const input: LendInterface
    const output: LendInterface
    const mtu: nat
    const mem: array<Byte>
    var outputPacket: Option<nat>

    constructor (input: LendInterface, output: LendInterface, mtu: nat, mem: array<Byte>)
      ensures this.input == input && this.output == output && this.mtu == mtu && this.mem == mem && outputPacket == None
    {
      this.input, this.output, this.mtu, this.mem, outputPacket := input, output, mtu, mem, None;
    }

    method OutputHandlerRecv(data: nat)
      requires outputPacket.None? && input.phase == Idle && input.mtu == Some(mtu)
      modifies this, input, input.pg
      ensures outputPacket == Some(data)
      ensures input.View() ==
              LendPort(EncoderRecv(old(input.State()), data, mtu), Set(old(input.pg.jobs), Operation(input.id)))
    {
      outputPacket := Some(data);
      input.Start(data + 2, mtu);
    }

    method InputHandlerDone(inLen: nat)
      requires outputPacket.Some? && inLen <= MAX_PAYLOAD && outputPacket.value + 2 <= mem.Length
      requires output.phase == Busy && output.mtu.Some? && 2 + inLen <= output.len
      modifies this, mem, output, output.pg
      ensures outputPacket == None && mem[..] == WriteLength(old(mem[..]), old(outputPacket).value, inLen)
      ensures mem[old(outputPacket).value] as int + 256 * mem[old(outputPacket).value + 1] as int == inLen
      ensures output.View() ==
              LendPort(Report(old(output.State()), 2 + inLen), Set(old(output.pg.jobs), Done(output.id)))
    {
      var header := Header(inLen);
      var at := outputPacket.value;
      mem[at], mem[at + 1] := header[0], header[1];
      outputPacket := None;
      output.Finished(2 + inLen);
    }
  }

  /** Every packet is within the MTU. */
  ghost predicate Small(contents: seq<Packet>, mtu: nat) {
    forall s :: s in contents ==> |s| <= mtu
  }

  lemma SubmitSmall(r: R.Ring, len: nat, mtu: nat)
    requires R.Inv(r) && r.inputDest.Some? && len <= r.inputAvail && len <= mtu && Small(R.Contents(r), mtu)
    ensures R.Inv(R.Submit(r, len)) && Small(R.Contents(R.Submit(r, len)), mtu)
    ensures 0 <= R.Submit(r, len).outputAvail <= mtu
  {
    hide R.Inv, R.Contents, R.Submit;
    R.InvBounds(r);
    R.AdvanceBounds(r, len);
    R.SubmitAppends(r, len);
    R.OutputPresent(R.Submit(r, len));
    FirstSmall(R.Submit(r, len), mtu);
  }

  lemma ConsumeSmall(r: R.Ring, mtu: nat)
    requires R.Inv(r) && r.outputDest.Some? && Small(R.Contents(r), mtu)
    ensures R.Inv(R.Consume(r)) && Small(R.Contents(R.Consume(r)), mtu) && R.Consume(r).outputAvail <= mtu
  {
    hide R.Inv, R.Contents, R.Consume;
    R.ConsumeRemoves(r);
    R.OutputPresent(R.Consume(r));
    FirstSmall(R.Consume(r), mtu);
  }

  /** What is sent is the first packet. */
  lemma FirstSmall(r: R.Ring, mtu: nat)
    requires R.Inv(r) && Small(R.Contents(r), mtu)
    ensures r.outputAvail <= mtu
  {
    hide R.Inv, R.Contents;
    R.InvBounds(r);
    R.OutputPresent(r);
    if r.outputDest.Some? {
      R.ConsumeRemoves(r);
      assert R.Contents(r)[0] in R.Contents(r);
    }
  }

  class PacketBuffer {
    const input: LendInterface
    const output: LendInterface
    const pg: PendingGroup
    const inputMtu: nat
    const buf: ChunkBuffer2

    ghost function View(): Stage
      reads this, input, output, buf, buf.buffer
    {
      Stage(buf.View(), input.State(), output.State())
    }

    ghost predicate Valid()
      reads this, input, output, buf, buf.buffer
    {
      && input != output && input.pg == pg && output.pg == pg
      && input.mtu == Some(inputMtu) && output.mtu.Some? && inputMtu <= output.mtu.value
      && R.Inv(buf.View()) && Small(R.Contents(buf.View()), inputMtu)
    }

    constructor (input: LendInterface, output: LendInterface, inputMtu: nat, buf: ChunkBuffer2, pg: PendingGroup)
      ensures this.input == input && this.output == output && this.inputMtu == inputMtu && this.buf == buf
              && this.pg == pg
    {
      this.input, this.output, this.inputMtu, this.buf, this.pg := input, output, inputMtu, buf, pg;
    }

    /** PacketBuffer_Init. It fails exactly when the number of blocks does not fit an int. The buffer is
        in order if the bytes of its blocks can be counted as well, which the source does not check. */
    static method Init(input: LendInterface, output: LendInterface, inputMtu: nat, numPackets: nat, pg: PendingGroup)
      returns (b: PacketBuffer?)
      requires input != output && input.pg == pg && output.pg == pg
      requires input.mtu == Some(inputMtu) && output.mtu.Some? && output.mtu.value >= inputMtu
      requires input.State() == NOTHING_LENT && output.State() == NOTHING_LENT
      requires 0 < numPackets <= R.INT_MAX && inputMtu <= R.INT_MAX
      modifies input, pg
      ensures b == null <==> R.BlocksFor(inputMtu, numPackets) > R.INT_MAX
      ensures b != null ==>
                && fresh(b) && fresh(b.buf) && fresh(b.buf.buffer) && b.inputMtu == inputMtu
                && b.input == input && b.output == output && b.pg == pg
                && b.buf.size == R.BlocksFor(inputMtu, numPackets) && b.buf.buffer.Length == 4 * b.buf.size
                && (R.Countable(b.buf.size) ==> b.Valid())
                && b.buf.View() == R.Init(b.buf.buffer[..], b.buf.size, inputMtu)
                && b.View().input == Offer(NOTHING_LENT, 4, inputMtu) && b.View().output == NOTHING_LENT
                && pg.jobs == Set(old(pg.jobs), Operation(input.id))
    {
      hide R.Blocks, R.BlocksFor, R.Chained, Set;
      var numBlocks := ChunkBuffer2.CalcBlocks(inputMtu, numPackets);
      if numBlocks < 0 {
        return null;
      }
      var data := new Byte[4 * numBlocks];
      var ring := new ChunkBuffer2(data, numBlocks, inputMtu);
      R.InitIsEmpty(data[..], numBlocks, inputMtu);
      b := new PacketBuffer(input, output, inputMtu, ring, pg);
      input.Start(4, inputMtu);
    }

    /** input_handler_done. */
    method InputHandlerDone(inLen: nat)
      requires Valid() && buf.inputDest.Some? && inLen <= inputMtu && inLen <= buf.inputAvail
      requires input.phase == Idle && (buf.outputAvail < 0 ==> output.phase == Idle)
      modifies input, output, pg, buf, buf.buffer
      ensures View() == BufferInputDone(old(View()), inputMtu, inLen) && Valid()
      ensures pg.jobs ==
              Armed(Armed(old(pg.jobs), buf.inputAvail >= inputMtu, input.id), old(buf.outputAvail) < 0, output.id)
    {
      hide R.Inv, R.Submit, R.Contents, Set;
      ghost var r := buf.View();
      R.SubmitAppends(r, inLen);
      R.OutputPresent(R.Submit(r, inLen));
      SubmitSmall(r, inLen, inputMtu);
      var wasEmpty := buf.outputAvail < 0;
      buf.SubmitPacket(inLen);
      if buf.inputAvail >= inputMtu {
        input.Start(buf.inputDest.value, inputMtu);
      }
      if wasEmpty {
        output.Start(buf.outputDest.value, buf.outputAvail);
      }
    }

    /** output_handler_done. */
    method OutputHandlerDone()
      requires Valid() && buf.outputDest.Some?
      requires output.phase == Idle && (buf.inputAvail < inputMtu ==> input.phase == Idle)
      modifies input, output, pg, buf
      ensures View() == BufferOutputDone(old(View()), inputMtu) && Valid()
      ensures pg.jobs == Armed(Armed(old(pg.jobs), old(buf.inputAvail) < inputMtu <= buf.inputAvail, input.id),
                               buf.outputAvail >= 0, output.id)
    {
      hide R.Inv, R.Consume, R.Contents, Set;
      ghost var r := buf.View();
      R.ConsumeRemoves(r);
      R.OutputPresent(R.Consume(r));
      ConsumeSmall(r, inputMtu);
      var wasFull := buf.inputAvail < inputMtu;
      buf.ConsumePacket();
      if wasFull && buf.inputAvail >= inputMtu {
        input.Start(buf.inputDest.value, inputMtu);
      }
      if buf.outputAvail >= 0 {
        output.Start(buf.outputDest.value, buf.outputAvail);
      }
    }
  }

  class PacketStreamSender {
    const input: LendInterface
    const output: LendInterface
    const pg: PendingGroup
    var inLen: int
    var inData: nat
    var inUsed: nat

    ghost function View(): SenderPort
      reads this, input, output
    {
      SenderPort(Sender(inLen, inData, inUsed), input.State(), output.State())
    }

    ghost predicate Valid()
      reads this
    {
      input != output && input.pg == pg && output.pg == pg && input.mtu.Some? && output.mtu.None?
    }

    constructor (input: LendInterface, output: LendInterface, pg: PendingGroup)
      requires input != output && input.pg == pg && output.pg == pg && input.mtu.Some? && output.mtu.None?
      ensures Valid() && this.input == input && this.output == output && View().s == Sender(-1, 0, 0)
    {
      this.input, this.output, this.pg := input, output, pg;
      inLen, inData, inUsed := -1, 0, 0;
    }

    /** send_data. */
    method SendData()
      requires Valid() && inLen >= 0 && input.phase == Busy && output.phase == Idle
      modifies this, input, output, pg
      ensures View() == Flow.SendData(old(View()))
      ensures pg.jobs == Set(old(pg.jobs), if old(inUsed) < old(inLen) then Operation(output.id) else Done(input.id))
    {
      if inUsed < inLen {
        output.Start(inData + inUsed, inLen - inUsed);
      } else {
        inLen := -1;
        input.Finished(0);
      }
    }

    /** input_handler_send. */
    method InputHandlerSend(data: nat, len: nat)
      requires Valid() && inLen == -1 && input.phase == Busy && output.phase == Idle
      modifies this, input, output, pg
      ensures View() == SenderInput(old(View()), data, len)
      ensures pg.jobs == Set(old(pg.jobs), if 0 < len then Operation(output.id) else Done(input.id))
    {
      inLen := len;
      inData := data;
      inUsed := 0;
      SendData();
    }

    /** output_handler_done. */
    method OutputHandlerDone(n: nat)
      requires Valid() && inLen >= 0 && 0 < n <= inLen - inUsed && input.phase == Busy && output.phase == Idle
      modifies this, input, output, pg
      ensures View() == SenderOutputDone(old(View()), n)
      ensures pg.jobs == Set(old(pg.jobs), if old(inUsed) + n < old(inLen) then Operation(output.id)
              else Done(input.id))
    {
      inUsed := inUsed + n;
      SendData();
    }
  }
}
