/** PacketProtoDecoder.c in place: the decoder over its array, each method proved to act as the
    function of the same name in Decoder. */
module DecoderObject {
  import opened Decoder
  import opened DecoderJobs
  import opened EventLoop
  import opened Framing
  import opened Memory
  import opened PassInterface
  import opened Basics
  import opened Pending
  import opened Transfer

  class PacketProtoDecoder {
    const input: LendInterface
    const output: LendInterface
    const pg: PendingGroup
    const outputMtu: nat
    const buf: array<Byte>
    var bufStart: nat
    var bufUsed: nat

    ghost function View(): Dec
      reads this, buf, input, output
    {
      Dec(outputMtu, buf[..], bufStart, bufUsed, input.State(), output.State())
    }

    ghost predicate Valid()
      reads this, buf, input, output
    {
      && input != output && input.pg == pg && output.pg == pg && input.mtu.None?
      && output.mtu.Some? && outputMtu <= output.mtu.value
      && Bounds(View())
    }

    /** PacketProtoDecoder_Init, which starts the first receive. */
    constructor (input: LendInterface, output: LendInterface, pg: PendingGroup)
      requires input != output && input.pg == pg && output.pg == pg && input.mtu.None? && output.mtu.Some?
      requires input.State() == NOTHING_LENT && output.State() == NOTHING_LENT
      modifies input, pg
      ensures Valid() && fresh(buf) && this.input == input && this.output == output && this.pg == pg
      ensures outputMtu == if output.mtu.value < MAX_PAYLOAD then output.mtu.value else MAX_PAYLOAD
      ensures |buf[..]| == 2 + outputMtu && View() == Init(buf[..], outputMtu)
      ensures pg.jobs == Set(old(pg.jobs), Operation(input.id)) && Inv(View(), NEW_LOG)
      ensures Distinct(old(pg.jobs)) && input.id != output.id && (forall j :: j in old(pg.jobs) ==> !Mine(Ids(), j)) ==>
                Scheduled(View(), Ids(), pg.jobs)
    {
      this.input, this.output, this.pg := input, output, pg;
      outputMtu := if output.mtu.value < MAX_PAYLOAD then output.mtu.value else MAX_PAYLOAD;
      bufStart, bufUsed := 0, 0;
      buf := new Byte[2 + (if output.mtu.value < MAX_PAYLOAD then output.mtu.value else MAX_PAYLOAD)];
      new;
      input.Start(0, 2 + outputMtu);
      InitInv(buf[..], outputMtu);
      if Distinct(old(pg.jobs)) && input.id != output.id && forall j :: j in old(pg.jobs) ==> !Mine(Ids(), j) {
        InitScheduled(View(), Ids(), old(pg.jobs));
      }
    }

    /** memmove of the unprocessed bytes to the beginning, in ascending order. */
    method MoveDown()
      requires Bounds(View())
      modifies buf
      ensures buf[..] == Write(old(buf[..]), 0, old(buf[bufStart..bufStart + bufUsed]))
    {
      ghost var was := buf[..];
      var i := 0;
      while i < bufUsed
        invariant 0 <= i <= bufUsed
        invariant forall k :: 0 <= k < i ==> buf[k] == was[bufStart + k]
        invariant forall k :: i <= k < buf.Length ==> buf[k] == was[k]
      {
        buf[i] := buf[bufStart + i];
        i := i + 1;
      }
      MovedDown(was, buf[..], bufStart, bufUsed);
    }

    /** The rest of process_data when no packet can be sent: make room and receive. */
    method ReceiveMore(wasError: bool)
      requires Valid() && input.phase == Idle && output.phase == Idle && !Whole(View())
               && (wasError <==> TooLong(View()))
      modifies this, buf, input, pg
      ensures Valid() && View() == Process(old(View()))
      ensures pg.jobs == Set(old(pg.jobs), Operation(input.id))
    {
      hide Length, Whole, TooLong, Set, Write;
      RoomToReceive(View());
      if wasError {
        bufStart := 0;
        bufUsed := 0;
      } else {
        if bufStart + bufUsed == buf.Length {
          MoveDown();
          bufStart := 0;
        }
      }
      input.Start(bufStart + bufUsed, buf.Length - (bufStart + bufUsed));
    }

    /** process_data; the caller reports the error. */
    method ProcessData() returns (wasError: bool)
      requires Valid() && input.phase == Idle && output.phase == Idle
      modifies this, buf, input, output, pg
      ensures Valid() && View() == Process(old(View())) && wasError == TooLong(old(View()))
      ensures pg.jobs == Set(old(pg.jobs), Operation(if Whole(old(View())) then output.id else input.id))
    {
      hide Length, Set, MakeRoom;
      wasError := false;
      var left := bufUsed;
      if left >= 2 {
        var dataLen := Length(buf[bufStart], buf[bufStart + 1]);
        left := left - 2;
        if dataLen > outputMtu {
          wasError := true;
        } else if left >= dataLen {
          var data := bufStart + 2;
          bufStart := bufStart + 2 + dataLen;
          bufUsed := bufUsed - (2 + dataLen);
          output.Start(data, dataLen);
          return;
        }
      }
      ReceiveMore(wasError);
    }

    /** input_handler_done, run by the done job of the input. */
    method InputHandlerDone(dataLen: nat) returns (wasError: bool)
      requires Valid() && input.phase == Idle && output.phase == Idle
      requires 0 < dataLen <= buf.Length - (bufStart + bufUsed)
      modifies this, buf, input, output, pg
      ensures Valid() && Bounds(old(View()).(used := old(bufUsed) + dataLen))
      ensures View() == Process(old(View()).(used := old(bufUsed) + dataLen))
      ensures wasError == TooLong(old(View()).(used := old(bufUsed) + dataLen))
      ensures pg.jobs == Set(old(pg.jobs), Operation(if output.phase == Idle then input.id else output.id))
    {
      hide Process, TooLong, Whole, Set;
      ghost var d := View().(used := bufUsed + dataLen);
      ProcessArms(d);
      bufUsed := bufUsed + dataLen;
      wasError := ProcessData();
    }

    function Ids(): Names {
      Names(input.id, output.id)
    }

    /** The done job of the input, after it was taken off the list. */
    method RunInputDone(ghost l: Log) returns (wasError: bool)
      requires Valid() && Inv(View(), l) && Enabled(View(), InputDone)
      modifies this, buf, input, output, pg
      ensures Valid() && View() == Step(old(View()), l, InputDone)
      ensures wasError <==> Record(old(View()), l, InputDone).errors == l.errors + 1
      ensures pg.jobs == JobsAfter(old(View()), l, InputDone, Ids(), old(pg.jobs))
    {
      hide Process, Length, Whole, TooLong, Inv, Set;
      ArrivedFits(View(), l);
      var n := input.JobDone();
      wasError := InputHandlerDone(n);
    }

    /** The done job of the output with output_handler_done. */
    method RunOutputDone(ghost l: Log) returns (wasError: bool)
      requires Valid() && Inv(View(), l) && Enabled(View(), OutputDone)
      modifies this, buf, input, output, pg
      ensures Valid() && View() == Step(old(View()), l, OutputDone)
      ensures wasError <==> Record(old(View()), l, OutputDone).errors == l.errors + 1
      ensures pg.jobs == JobsAfter(old(View()), l, OutputDone, Ids(), old(pg.jobs))
    {
      hide Process, Length, Whole, TooLong, Inv, Set;
      SentEnters(View(), l);
      ProcessArms(Entering(View(), OutputDone));
      var n := output.JobDone();
      wasError := ProcessData();
    }

    /** The handler of a job of the decoder, after the job was taken off the list. */
    method RunJob(ghost l: Log, job: Job) returns (wasError: bool)
      requires Valid() && Inv(View(), l) && Mine(Ids(), job) && Enabled(View(), EventOf(Ids(), job))
      modifies this, buf, input, output, pg
      ensures Valid() && View() == Step(old(View()), l, EventOf(Ids(), job))
      ensures wasError <==> Record(old(View()), l, EventOf(Ids(), job)).errors == l.errors + 1
      ensures pg.jobs == JobsAfter(old(View()), l, EventOf(Ids(), job), Ids(), old(pg.jobs))
    {
      hide Process, Length, Whole, TooLong, Inv, Set, Note;
      if job.Done? {
        if job.i == input.id {
          wasError := RunInputDone(l);
        } else {
          wasError := RunOutputDone(l);
        }
      } else {
        wasError := false;
        if job.i == input.id {
          input.JobOperation();
        } else {
          output.JobOperation();
        }
      }
    }

    /** One turn of the event loop: whatever job is on top, the assertion of its handler holds, and the
        object does what Next says. The handler of a job of another component is run by that component. */
    method ExecuteJob(ghost l: Log) returns (job: Job, wasError: bool)
      requires Valid() && Sound(System(View(), l, pg.jobs), Ids()) && pg.jobs != []
      modifies this, buf, input, output, pg
      ensures Valid() && job == old(pg.jobs)[0]
      ensures var s := Next(System(old(View()), l, old(pg.jobs)), Ids(), Execute);
              && View() == s.d && pg.jobs == s.jobs && Sound(s, Ids())
              && (wasError <==> s.l.errors == l.errors + 1)
    {
      hide Inv, Step, JobsAfter, Enabled, Record, Scheduled, Bounds;
      ghost var s := System(View(), l, pg.jobs);
      NextIsSound(s, Ids(), Execute);
      if Mine(Ids(), pg.jobs[0]) {
        JobFires(View(), l, Ids(), pg.jobs);
      }
      job := pg.ExecuteJob();
      assert s.jobs[0] == job && s.jobs[1..] == pg.jobs;
      wasError := false;
      if Mine(Ids(), job) {
        wasError := RunJob(l, job);
      }
    }

    /** The provider of the stream fills the region and reports n bytes of it. */
    method InputCompletes(ghost l: Log, region: seq<Byte>, n: nat)
      requires Valid() && Inv(View(), l) && Enabled(View(), InputComplete(region, n))
      modifies buf, input, pg
      ensures Valid() && View() == Step(old(View()), l, InputComplete(region, n))
      ensures pg.jobs == JobsAfter(old(View()), l, InputComplete(region, n), Ids(), old(pg.jobs))
    {
      hide Length, Whole, TooLong, Buffered, Stream, Fits, Set;
      Fill(buf, input.data, region);
      input.Finished(n);
    }

    /** The receiver of the packets is done with one. */
    method OutputCompletes(ghost l: Log)
      requires Valid() && Inv(View(), l) && Enabled(View(), OutputComplete)
      modifies output, pg
      ensures Valid() && View() == Step(old(View()), l, OutputComplete)
      ensures pg.jobs == JobsAfter(old(View()), l, OutputComplete, Ids(), old(pg.jobs))
    {
      hide Inv, Set;
      output.Finished(0);
    }

    /** PacketProtoDecoder_Reset. */
    method Reset()
      requires Valid()
      modifies `bufStart, `bufUsed
      ensures Valid() && View() == Forget(old(View()))
    {
      bufStart := bufStart + bufUsed;
      bufUsed := 0;
    }
  }

  lemma MovedDown(was: seq<Byte>, now: seq<Byte>, at: nat, n: nat)
    requires |now| == |was| && at + n <= |was|
    requires forall k :: 0 <= k < n ==> now[k] == was[at + k]
    requires forall k :: n <= k < |was| ==> now[k] == was[k]
    ensures now == Write(was, 0, was[at..at + n])
  {
    var w := Write(was, 0, was[at..at + n]);
    forall k | 0 <= k < |was| ensures now[k] == w[k] {
      if k < n { assert w[k] == was[at..at + n][k]; }
    }
  }

  /** process_data uses the output exactly when a whole packet is there. */
  lemma ProcessArms(d: Dec)
    requires Bounds(d) && d.input.phase == Idle && d.output.phase == Idle
    ensures Process(d).output.phase == Idle <==> !Whole(d)
  {
  }

  lemma SentEnters(d: Dec, l: Log)
    requires Inv(d, l) && d.output.phase == DonePending
    ensures Bounds(d) && d.input.phase == Idle && Bounds(Entering(d, OutputDone))
  {
    hide Stream, Fits, Length;
  }

  /** What the invariant gives the done handler of the input. */
  lemma ArrivedFits(d: Dec, l: Log)
    requires Inv(d, l) && d.input.phase == DonePending
    ensures Bounds(d) && d.output.phase == Idle && 0 < d.input.doneLen <= |d.buf| - (d.start + d.used)
    ensures Bounds(Entering(d, InputDone))
  {
    hide Stream, Fits, Length;
  }

  lemma RoomToReceive(d: Dec)
    requires Bounds(d) && !Whole(d)
    ensures !TooLong(d) ==> |d.buf| > d.used
  {
  }
}
