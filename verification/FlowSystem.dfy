/** PacketProtoFlow.c and the stream sender in place: the stages wired together over one memory. Every
    job of their interfaces, and every call of the user, does to the objects what the step of Flow
    does to their values. */
module FlowSystem {
  import opened EventLoop
  import opened Flow
  import opened FlowJobs
  import opened FlowObject
  import opened FlowSafety
  import opened Framing
  import opened Memory
  import opened Basics
  import opened Pending
  import R = Ring
  import opened Transfer

  class PacketProtoFlow {
    const ainput: BufferWriter
    const encoder: PacketProtoEncoder
    const buffer: PacketBuffer
    const streamSender: PacketStreamSender
    const pg: PendingGroup

    constructor (ainput: BufferWriter, encoder: PacketProtoEncoder, buffer: PacketBuffer,
                 streamSender: PacketStreamSender, pg: PendingGroup)
      ensures this.ainput == ainput && this.encoder == encoder && this.buffer == buffer
      ensures this.streamSender == streamSender && this.pg == pg
    {
      this.ainput, this.encoder, this.buffer, this.streamSender, this.pg := ainput, encoder, buffer, streamSender, pg;
    }

    ghost function View(): Pipe
      reads ainput, ainput.recvInterface, encoder, encoder.output, buffer.buf, buffer.buf.buffer
      reads streamSender, streamSender.input, streamSender.output
    {
      Pipe(ainput.mtu, ainput.View(), ainput.recvInterface.State(), encoder.outputPacket, encoder.output.State(),
           buffer.buf.View(), streamSender.input.State(), streamSender.View().s, streamSender.output.State())
    }

    /** How the stages are connected; none of this ever changes. */
    ghost predicate Wired() {
      && encoder.input == ainput.recvInterface && encoder.mtu == ainput.mtu && encoder.mem == buffer.buf.buffer
      && buffer.input == encoder.output && buffer.inputMtu == 2 + ainput.mtu
      && streamSender.input == buffer.output
      && ainput.recvInterface != encoder.output && ainput.recvInterface != buffer.output
      && ainput.recvInterface != streamSender.output && encoder.output != buffer.output
      && encoder.output != streamSender.output && buffer.output != streamSender.output
      && ainput.recvInterface.mtu == Some(ainput.mtu) && encoder.output.mtu == Some(2 + ainput.mtu)
      && buffer.output.mtu.Some? && buffer.output.mtu.value >= 2 + ainput.mtu && streamSender.output.mtu.None?
      && ainput.recvInterface.pg == pg && encoder.output.pg == pg && buffer.output.pg == pg
      && streamSender.output.pg == pg
      && buffer.pg == pg && streamSender.pg == pg
      && Different(Ids())
    }

    function Ids(): Names {
      Names(ainput.recvInterface.id, encoder.output.id, streamSender.input.id, streamSender.output.id)
    }

    /** PacketProtoFlow_Init in front of a stream sender. It fails exactly when PacketBuffer_Init does. */
    static method Init(inputMtu: nat, numPackets: nat, output: PacketStreamSender, id1: nat, id2: nat, pg: PendingGroup)
      returns (f: PacketProtoFlow?)
      requires inputMtu <= MAX_PAYLOAD && 0 < numPackets <= R.INT_MAX
      requires id1 != id2 && id1 != output.input.id && id1 != output.output.id && id2 != output.input.id
      requires id2 != output.output.id && output.input.id != output.output.id
      requires output.Valid() && output.pg == pg && output.input.mtu.value >= 2 + inputMtu
               && output.View() == SenderPort(Sender(-1, 0, 0), NOTHING_LENT, NOTHING_LENT)
      modifies pg
      ensures f == null <==> R.BlocksFor(2 + inputMtu, numPackets) > R.INT_MAX
      ensures f != null ==>
                && f.Wired() && f.streamSender == output && f.pg == pg && f.ainput.mtu == inputMtu
                && f.Ids() == Names(id1, id2, output.input.id, output.output.id)
                && pg.jobs == Set(old(pg.jobs), Operation(id2))
                && f.buffer.buf.size == R.BlocksFor(2 + inputMtu, numPackets) > R.Blocks(2 + inputMtu)
                && |f.buffer.buf.buffer[..]| == 4 * f.buffer.buf.size
                && f.View() == Flow.Init(f.buffer.buf.buffer[..], f.buffer.buf.size, inputMtu)
                && (R.Countable(f.buffer.buf.size) ==> Inv(f.View(), Trace([], [])))
                && (Distinct(old(pg.jobs)) && (forall j :: j in old(pg.jobs) ==> !Mine(f.Ids(), j)) ==>
                      Scheduled(f.View(), f.Ids(), pg.jobs))
    {
      hide R.Blocks, R.BlocksFor, R.Inv, R.Init, R.Bounds, R.Contents, R.Countable, Inv, Set, Distinct, Agrees;
      var writer := new BufferWriter(id1, inputMtu, pg);
      var ri2 := new LendInterface(id2, Some(2 + inputMtu), pg);
      var buffer := PacketBuffer.Init(ri2, output.input, 2 + inputMtu, numPackets, pg);
      if buffer == null {
        return null;
      }
      var encoder := new PacketProtoEncoder(writer.recvInterface, ri2, inputMtu, buffer.buf.buffer);
      f := new PacketProtoFlow(writer, encoder, buffer, output, pg);
      R.InitIsEmpty(buffer.buf.buffer[..], buffer.buf.size, 2 + inputMtu);
      if R.Countable(buffer.buf.size) {
        InitInv(buffer.buf.buffer[..], buffer.buf.size, inputMtu);
      }
      if Distinct(old(pg.jobs)) && forall j :: j in old(pg.jobs) ==> !Mine(f.Ids(), j) {
        InitScheduled(f.View(), f.Ids(), old(pg.jobs));
      }
    }

    method Start(ghost t: Trace) returns (ok: bool, buf: nat)
      requires Wired() && Inv(View(), t) && Enabled(View(), Event.Start)
      modifies ainput
      ensures View() == Step(old(View()), t, Event.Start)
      ensures ok == View().writer.writing && (ok ==> View().writer.out == Some(buf))
      ensures pg.jobs == JobsAfter(old(View()), t, Event.Start, Ids(), old(pg.jobs))
    {
      hide Inv;
      ok, buf := ainput.StartPacket();
    }

    /** The user writes into the packet. */
    method Fill(ghost t: Trace, bytes: seq<Byte>)
      requires Wired() && Inv(View(), t) && Enabled(View(), Event.Fill(bytes))
      modifies buffer.buf.buffer
      ensures View() == Step(old(View()), t, Event.Fill(bytes))
      ensures pg.jobs == JobsAfter(old(View()), t, Event.Fill(bytes), Ids(), old(pg.jobs))
    {
      hide R.Inv, R.Contents, R.Bounds, Accounted, Sizes, Sending, Write;
      RoomFor(View());
      Memory.Fill(buffer.buf.buffer, ainput.out, bytes);
    }

    /** The user calls EndPacket. */
    method End(ghost t: Trace, len: nat)
      requires Wired() && Inv(View(), t) && Enabled(View(), Event.End(len))
      modifies ainput, ainput.recvInterface, pg
      ensures View() == Step(old(View()), t, Event.End(len))
      ensures pg.jobs == JobsAfter(old(View()), t, Event.End(len), Ids(), old(pg.jobs))
    {
      hide R.Inv, R.Contents, R.Bounds, Accounted, Set, Sizes, Sending;
      ainput.EndPacket(len);
    }

    method Ri1Operation(ghost t: Trace)
      requires Wired() && Inv(View(), t) && Enabled(View(), Event.Ri1Operation)
      modifies ainput, ainput.recvInterface
      ensures View() == Step(old(View()), t, Event.Ri1Operation)
      ensures pg.jobs == JobsAfter(old(View()), t, Event.Ri1Operation, Ids(), old(pg.jobs))
    {
      hide R.Inv, R.Contents, R.Bounds, Accounted, Set, Sizes, Sending;
      ainput.recvInterface.JobOperation();
      ainput.OutputHandlerRecv(ainput.recvInterface.data);
    }

    method Ri1Done(ghost t: Trace)
      requires Wired() && Inv(View(), t) && Enabled(View(), Event.Ri1Done)
      modifies ainput.recvInterface, encoder, encoder.output, encoder.mem, pg
      ensures View() == Step(old(View()), t, Event.Ri1Done)
      ensures pg.jobs == JobsAfter(old(View()), t, Event.Ri1Done, Ids(), old(pg.jobs))
    {
      hide R.Inv, R.Contents, R.Bounds, Accounted, Set, Sizes, Sending, Write, Header;
      RoomFor(View());
      var n := ainput.recvInterface.JobDone();
      encoder.InputHandlerDone(n);
    }

    method Ri2Operation(ghost t: Trace)
      requires Wired() && Inv(View(), t) && Enabled(View(), Event.Ri2Operation)
      modifies encoder, encoder.output, ainput.recvInterface, pg
      ensures View() == Step(old(View()), t, Event.Ri2Operation)
      ensures pg.jobs == JobsAfter(old(View()), t, Event.Ri2Operation, Ids(), old(pg.jobs))
    {
      hide R.Inv, R.Contents, R.Bounds, Accounted, Set, Sizes, Sending;
      encoder.output.JobOperation();
      encoder.OutputHandlerRecv(encoder.output.data);
    }

    method Ri2Done(ghost t: Trace)
      requires Wired() && Inv(View(), t) && Enabled(View(), Event.Ri2Done)
      modifies encoder.output, buffer.output, buffer.buf, buffer.buf.buffer, pg
      ensures View() == Step(old(View()), t, Event.Ri2Done)
      ensures pg.jobs == JobsAfter(old(View()), t, Event.Ri2Done, Ids(), old(pg.jobs))
    {
      hide R.Inv, R.Contents, R.Bounds, Accounted, Set, BufferInputDone;
      RoomFor(View());
      R.OutputPresent(View().ring);
      BufferArms(View(), t, Event.Ri2Done);
      PhasesAfter(View(), t, Event.Ri2Done);
      var n := encoder.output.JobDone();
      buffer.InputHandlerDone(n);
    }

    method PiOperation(ghost t: Trace)
      requires Wired() && Inv(View(), t) && Enabled(View(), Event.PiOperation)
      modifies streamSender, streamSender.input, streamSender.output, pg
      ensures View() == Step(old(View()), t, Event.PiOperation)
      ensures pg.jobs == JobsAfter(old(View()), t, Event.PiOperation, Ids(), old(pg.jobs))
    {
      hide R.Inv, R.Contents, R.Bounds, Accounted, Set, Filling, SenderInput;
      SenderArms(View(), t, Event.PiOperation);
      streamSender.input.JobOperation();
      streamSender.InputHandlerSend(streamSender.input.data, streamSender.input.len);
    }

    method PiDone(ghost t: Trace)
      requires Wired() && Inv(View(), t) && Enabled(View(), Event.PiDone)
      modifies encoder.output, buffer.output, buffer.buf, pg
      ensures View() == Step(old(View()), t, Event.PiDone)
      ensures pg.jobs == JobsAfter(old(View()), t, Event.PiDone, Ids(), old(pg.jobs))
    {
      hide R.Inv, R.Contents, R.Bounds, Accounted, Set, BufferOutputDone;
      R.OutputPresent(View().ring);
      BufferArms(View(), t, Event.PiDone);
      PhasesAfter(View(), t, Event.PiDone);
      var n := buffer.output.JobDone();
      buffer.OutputHandlerDone();
    }

    method SpiOperation(ghost t: Trace)
      requires Wired() && Inv(View(), t) && Enabled(View(), Event.SpiOperation)
      modifies streamSender.output
      ensures View() == Step(old(View()), t, Event.SpiOperation)
      ensures pg.jobs == JobsAfter(old(View()), t, Event.SpiOperation, Ids(), old(pg.jobs))
    {
      hide Inv;
      streamSender.output.JobOperation();
    }

    method SpiDone(ghost t: Trace)
      requires Wired() && Inv(View(), t) && Enabled(View(), Event.SpiDone)
      modifies streamSender, streamSender.input, streamSender.output, pg
      ensures View() == Step(old(View()), t, Event.SpiDone)
      ensures pg.jobs == JobsAfter(old(View()), t, Event.SpiDone, Ids(), old(pg.jobs))
    {
      hide R.Inv, R.Contents, R.Bounds, Accounted, Set, Filling, SenderOutputDone;
      SenderArms(View(), t, Event.SpiDone);
      var n := streamSender.output.JobDone();
      streamSender.OutputHandlerDone(n);
    }

    /** The transport takes n bytes. */
    method Take(ghost t: Trace, n: nat)
      requires Wired() && Inv(View(), t) && Enabled(View(), Event.Take(n))
      modifies streamSender.output, pg
      ensures View() == Step(old(View()), t, Event.Take(n))
      ensures pg.jobs == JobsAfter(old(View()), t, Event.Take(n), Ids(), old(pg.jobs))
    {
      hide Inv;
      streamSender.output.Finished(n);
    }

    /** The handler of a job of the flow, after the job was taken off the list. */
    method RunJob(ghost t: Trace, job: Job)
      requires Wired() && Inv(View(), t) && Mine(Ids(), job) && Enabled(View(), EventOf(Ids(), job))
      modifies ainput, ainput.recvInterface, encoder, encoder.output, encoder.mem
      modifies buffer.output, buffer.buf, buffer.buf.buffer, streamSender, streamSender.input, streamSender.output, pg
      ensures View() == Step(old(View()), t, EventOf(Ids(), job))
      ensures pg.jobs == JobsAfter(old(View()), t, EventOf(Ids(), job), Ids(), old(pg.jobs))
    {
      hide Inv, Step, JobsAfter, Enabled;
      if job.i == ainput.recvInterface.id {
        if job.Operation? {
          Ri1Operation(t);
        } else {
          Ri1Done(t);
        }
      } else if job.i == encoder.output.id {
        if job.Operation? {
          Ri2Operation(t);
        } else {
          Ri2Done(t);
        }
      } else if job.i == streamSender.input.id {
        if job.Operation? {
          PiOperation(t);
        } else {
          PiDone(t);
        }
      } else if job.Operation? {
        SpiOperation(t);
      } else {
        SpiDone(t);
      }
    }

    /** One turn of the event loop: whatever job is on top, the assertion of its handler holds, and the
        objects do what Next says. The handler of a job of another component is run by that component. */
    method ExecuteJob(ghost t: Trace) returns (job: Job)
      requires Wired() && Sound(System(View(), t, pg.jobs), Ids()) && pg.jobs != []
      modifies ainput, ainput.recvInterface, encoder, encoder.output, encoder.mem
      modifies buffer.output, buffer.buf, buffer.buf.buffer, streamSender, streamSender.input, streamSender.output, pg
      ensures job == old(pg.jobs)[0]
      ensures var s := Next(System(old(View()), t, old(pg.jobs)), Ids(), Execute);
              View() == s.p && pg.jobs == s.jobs && Sound(s, Ids())
    {
      hide Inv, Step, JobsAfter, Enabled, Record, Scheduled;
      ghost var s := System(View(), t, pg.jobs);
      NextIsSound(s, Ids(), Execute);
      if Mine(Ids(), pg.jobs[0]) {
        JobFires(View(), t, Ids(), pg.jobs);
      }
      job := pg.ExecuteJob();
      assert s.jobs[0] == job && s.jobs[1..] == pg.jobs;
      if Mine(Ids(), job) {
        RunJob(t, job);
      }
    }
  }
}
