/** PacketProtoDecoder.c on values: a byte stream is received in chunks into one buffer, and whole
    packets are lent to the output from inside that buffer. */
module Decoder {
  import opened Framing
  import opened Memory
  import opened PassInterface
  import opened Basics
  import opened Transfer

  /** mtu is the output MTU, limited by the maximum payload. */
  datatype Dec = Dec(mtu: nat, buf: seq<Byte>, start: nat, used: nat, input: Lend, output: Lend)

  ghost predicate Bounds(d: Dec) {
    d.mtu <= MAX_PAYLOAD && |d.buf| == 2 + d.mtu && d.start + d.used <= |d.buf|
  }

  /** The bytes received and not yet processed. */
  function Buffered(d: Dec): seq<Byte>
    requires Bounds(d)
  {
    d.buf[d.start..d.start + d.used]
  }

  predicate TooLong(d: Dec)
    requires Bounds(d)
  {
    d.used >= 2 && Length(d.buf[d.start], d.buf[d.start + 1]) > d.mtu
  }

  predicate Whole(d: Dec)
    requires Bounds(d)
  {
    d.used >= 2 && Length(d.buf[d.start], d.buf[d.start + 1]) <= d.mtu
    && d.used - 2 >= Length(d.buf[d.start], d.buf[d.start + 1])
  }

  /** The first packet in the buffer is taken off and lent to the output. */
  function Deliver(d: Dec): Dec
    requires Bounds(d) && Whole(d) && d.output.phase == Idle
  {
    var n := Length(d.buf[d.start], d.buf[d.start + 1]);
    d.(start := d.start + 2 + n, used := d.used - 2 - n, output := Offer(d.output, d.start + 2, n))
  }

  /** The buffer is cleared after an error; otherwise, if its end was reached, what is left moves to
      its beginning. */
  function MakeRoom(d: Dec): Dec
    requires Bounds(d)
  {
    if TooLong(d) then d.(start := 0, used := 0)
    else if d.start + d.used == |d.buf| then d.(buf := Write(d.buf, 0, Buffered(d)), start := 0)
    else d
  }

  /** process_data. */
  function Process(d: Dec): Dec
    requires Bounds(d) && d.input.phase == Idle && d.output.phase == Idle
  {
    if Whole(d) then Deliver(d)
    else
      var r := MakeRoom(d);
      r.(input := Offer(r.input, r.start + r.used, |r.buf| - (r.start + r.used)))
  }

  /** A received chunk waiting for the done job of the input. */
  function Arriving(d: Dec): seq<Byte> {
    if d.input.phase == DonePending && d.start + d.used + d.input.doneLen <= |d.buf|
    then d.buf[d.start + d.used..d.start + d.used + d.input.doneLen] else []
  }

  /** What happened since the stream last started over: the bytes the provider handed in and the
      packets sent to the output. lent is the packet last sent, errors counts over the whole run. */
  datatype Log = Log(received: seq<Byte>, delivered: seq<Packet>, lent: Packet, errors: nat)

  const NEW_LOG := Log([], [], [], 0)

  ghost predicate Inv(d: Dec, l: Log) {
    && Bounds(d)
    && (d.input.phase == Idle <==> d.output.phase != Idle)
    && (d.input.phase != Idle ==>
          && d.input.data == d.start + d.used && d.input.len == |d.buf| - d.input.data && 0 < d.input.len
          && !Whole(d) && !TooLong(d))
    && (d.input.phase == DonePending ==> 0 < d.input.doneLen <= d.input.len)
    && (d.output.phase != Idle ==>
          && d.output.data + d.output.len <= d.start && d.output.len <= d.mtu
          && d.buf[d.output.data..d.output.data + d.output.len] == l.lent)
    && Fits(l.delivered, d.mtu) && Fits(l.delivered, MAX_PAYLOAD)
    && l.received == Stream(l.delivered) + (Buffered(d) + Arriving(d))
  }

  datatype Event =
    | InputOperation
    | InputComplete(region: seq<Byte>, n: nat) // the provider fills the region; n bytes of it count
    | InputDone
    | OutputOperation
    | OutputComplete
    | OutputDone
    | Reset

  predicate Enabled(d: Dec, e: Event) {
    match e
    case InputOperation => d.input.phase == OperationPending
    case InputComplete(region, n) => d.input.phase == Busy && |region| == d.input.len && 0 < n <= d.input.len
    case InputDone => d.input.phase == DonePending
    case OutputOperation => d.output.phase == OperationPending
    case OutputComplete => d.output.phase == Busy
    case OutputDone => d.output.phase == DonePending
    case Reset => true
  }

  /** The decoder at the moment process_data is entered from a done handler. */
  function Entering(d: Dec, e: Event): Dec
    requires (e.InputDone? || e.OutputDone?) && Enabled(d, e)
  {
    if e.InputDone? then d.(input := Settle(d.input), used := d.used + d.input.doneLen)
    else d.(output := Settle(d.output))
  }

  /** PacketProtoDecoder_Reset. */
  function Forget(d: Dec): Dec {
    d.(start := d.start + d.used, used := 0)
  }

  function Step(d: Dec, l: Log, e: Event): Dec
    requires Inv(d, l) && Enabled(d, e)
  {
    match e
    case InputOperation => d.(input := Accept(d.input))
    case InputComplete(region, n) =>
      d.(buf := Write(d.buf, d.input.data, region), input := Report(d.input, n))
    case InputDone => Process(Entering(d, e))
    case OutputOperation => d.(output := Accept(d.output))
    case OutputComplete => d.(output := Report(d.output, 0))
    case OutputDone => Process(Entering(d, e))
    case Reset => Forget(d)
  }

  function Note(d: Dec, l: Log): Log
    requires Bounds(d)
  {
    if TooLong(d) then Log([], [], l.lent, l.errors + 1)
    else if Whole(d) then
      var p := d.buf[d.start + 2..d.start + 2 + Length(d.buf[d.start], d.buf[d.start + 1])];
      l.(delivered := l.delivered + [p], lent := p)
    else l
  }

  function Record(d: Dec, l: Log, e: Event): Log
    requires Inv(d, l) && Enabled(d, e)
  {
    match e
    case InputOperation => l
    case InputComplete(region, n) => l.(received := l.received + region[..n])
    case InputDone => Note(Entering(d, e), l)
    case OutputOperation => l
    case OutputComplete => l
    case OutputDone => Note(Entering(d, e), l)
    case Reset => l.(received := Arriving(d), delivered := [])
  }

  /** PacketProtoDecoder_Init with the first receive. */
  function Init(buf: seq<Byte>, mtu: nat): Dec
    requires |buf| == 2 + mtu
  {
    Dec(mtu, buf, 0, 0, Offer(NOTHING_LENT, 0, 2 + mtu), NOTHING_LENT)
  }

  lemma InitInv(buf: seq<Byte>, mtu: nat)
    requires |buf| == 2 + mtu && mtu <= MAX_PAYLOAD
    ensures Inv(Init(buf, mtu), NEW_LOG)
  {
  }

  /** The invariant at the moment process_data is entered. */
  ghost predicate Ready(d: Dec, l: Log) {
    && Bounds(d) && d.input.phase == Idle && d.output.phase == Idle
    && Fits(l.delivered, d.mtu) && Fits(l.delivered, MAX_PAYLOAD)
    && l.received == Stream(l.delivered) + Buffered(d)
  }

  /** Where the first packet lies and what follows it. */
  lemma FirstInBuffer(d: Dec)
    requires Bounds(d) && Whole(d) && d.output.phase == Idle
    ensures var s, n := Buffered(d), Length(d.buf[d.start], d.buf[d.start + 1]);
            && |s| == d.used && s[0] == d.buf[d.start] && s[1] == d.buf[d.start + 1] && 2 + n <= |s|
            && s[2..2 + n] == d.buf[d.start + 2..d.start + 2 + n]
            && Bounds(Deliver(d)) && Buffered(Deliver(d)) == s[2 + n..]
  {
    hide Length;
    var n := Length(d.buf[d.start], d.buf[d.start + 1]);
    SliceOfSlice(d.buf, d.start, d.used, 2, 2 + n);
    SliceOfSlice(d.buf, d.start, d.used, 2 + n, d.used);
  }

  /** What process_data makes of the two bytes in front of the buffer: too long, not whole, or a packet
      that is lent where it lies. */
  lemma ProcessIs(d: Dec)
    requires Bounds(d) && d.input.phase == Idle && d.output.phase == Idle
    ensures TooLong(d) <==> d.used >= 2 && d.buf[d.start] as int + 256 * d.buf[d.start + 1] as int > d.mtu
    ensures d.used >= 2 ==>
              var n := d.buf[d.start] as int + 256 * d.buf[d.start + 1] as int;
              if n <= d.mtu && d.used >= 2 + n then
                && Process(d).output.phase == OperationPending && Process(d).input.phase == Idle
                && Process(d).output.data == d.start + 2 && Process(d).output.len == n
                && Process(d).start == d.start + 2 + n && Process(d).used == d.used - 2 - n
                && Process(d).buf == d.buf
              else Process(d).output.phase == Idle && Process(d).input.phase == OperationPending
    ensures d.used < 2 ==> Process(d).output.phase == Idle && Process(d).input.phase == OperationPending
  {
  }

  /** Where it goes on receiving: from the beginning after an error, or when the end was reached, with
      what is left moved there; behind what it has otherwise. */
  lemma ReceivesWhere(d: Dec)
    requires Bounds(d) && d.input.phase == Idle && d.output.phase == Idle && !Whole(d)
    ensures var r := Process(d);
            && r.input.data == r.start + r.used && r.input.len == |d.buf| - r.input.data
            && (TooLong(d) ==> r.start == 0 && r.used == 0 && r.buf == d.buf)
            && (!TooLong(d) && d.start + d.used == |d.buf| ==>
                  && r.start == 0 && r.used == d.used
                  && forall k :: 0 <= k < d.used ==> r.buf[k] == d.buf[d.start + k])
            && (!TooLong(d) && d.start + d.used < |d.buf| ==> r.start == d.start && r.used == d.used && r.buf == d.buf)
  {
    hide Length, Whole, Write;
    MovedTo(d.buf, d.start, d.used);
  }

  lemma MovedTo(buf: seq<Byte>, at: nat, n: nat)
    requires at + n <= |buf|
    ensures var w := Write(buf, 0, buf[at..at + n]);
            forall k :: 0 <= k < n ==> w[k] == buf[at + k]
  {
    var w := Write(buf, 0, buf[at..at + n]);
    forall k | 0 <= k < n ensures w[k] == buf[at + k] {
      assert w[k] == w[0..n][k];
    }
  }

  lemma DeliverKeeps(d: Dec, l: Log)
    requires Ready(d, l) && Whole(d)
    ensures Inv(Process(d), Note(d, l))
  {
    hide Length, Encode, Stream, Buffered;
    FirstInBuffer(d);
    var s := Buffered(d);
    FirstEncoded(s);
    StreamOne(s[2..2 + Length(s[0], s[1])]);
    StreamAppend(l.delivered, [s[2..2 + Length(s[0], s[1])]]);
  }

  lemma RestartKeeps(d: Dec, l: Log)
    requires Ready(d, l) && TooLong(d)
    ensures Inv(Process(d), Note(d, l))
  {
    hide Length, Encode, Stream;
    StreamNone();
  }

  /** There is always room to receive: a buffer that is full but holds no whole packet starts late. */
  lemma MakeRoomKeeps(d: Dec)
    requires Bounds(d) && !Whole(d) && !TooLong(d)
    ensures var r := MakeRoom(d);
            && Bounds(r) && Buffered(r) == Buffered(d) && !Whole(r) && !TooLong(r)
            && r.start + r.used < |r.buf|
            && r.input == d.input && r.output == d.output && r.mtu == d.mtu
  {
    hide Length, Write;
    if d.start + d.used == |d.buf| {
      MovedBytes(d.buf, d.start, d.used);
    }
  }

  /** The bytes at the end of the buffer, moved to its beginning. */
  lemma MovedBytes(buf: seq<Byte>, at: nat, n: nat)
    requires at + n == |buf|
    ensures var w := Write(buf, 0, buf[at..at + n]);
            && w[0..n] == buf[at..at + n]
            && (n >= 2 ==> w[0] == buf[at] && w[1] == buf[at + 1])
  {
    var w := Write(buf, 0, buf[at..at + n]);
    if n >= 2 {
      assert w[0] == w[0..n][0] && w[1] == w[0..n][1];
    }
  }

  lemma WaitKeeps(d: Dec, l: Log)
    requires Ready(d, l) && !Whole(d) && !TooLong(d)
    ensures Inv(Process(d), Note(d, l))
  {
    hide Length, Stream, Fits, MakeRoom;
    MakeRoomKeeps(d);
    assert Buffered(Process(d)) == Buffered(d);
  }

  lemma EnteringReady(d: Dec, l: Log, e: Event)
    requires Inv(d, l) && (e.InputDone? || e.OutputDone?) && Enabled(d, e)
    ensures Ready(Entering(d, e), l)
  {
    hide Length, Stream, Fits, Whole, TooLong;
    if e.InputDone? {
      SliceJoins(d.buf, d.start, d.start + d.used, d.start + d.used + d.input.doneLen);
    } else {
      assert Arriving(d) == [];
    }
    assert Buffered(Entering(d, e)) == Buffered(d) + Arriving(d);
  }

  lemma DoneKeepsInv(d: Dec, l: Log, e: Event)
    requires Inv(d, l) && (e.InputDone? || e.OutputDone?) && Enabled(d, e)
    ensures Inv(Step(d, l, e), Record(d, l, e))
  {
    hide Inv, Ready, Process, Note, Buffered, Whole, TooLong;
    EnteringReady(d, l, e);
    var r := Entering(d, e);
    ReadyBounds(r, l);
    if Whole(r) {
      DeliverKeeps(r, l);
    } else if TooLong(r) {
      RestartKeeps(r, l);
    } else {
      WaitKeeps(r, l);
    }
  }

  lemma ReadyBounds(d: Dec, l: Log)
    requires Ready(d, l)
    ensures Bounds(d) && d.input.phase == Idle && d.output.phase == Idle
  {
  }

  lemma InputCompleteKeepsInv(d: Dec, l: Log, e: Event)
    requires Inv(d, l) && e.InputComplete? && Enabled(d, e)
    ensures Inv(Step(d, l, e), Record(d, l, e))
  {
    hide Length, Stream, Fits;
    var r := Step(d, l, e);
    WriteElsewhere(d.buf, d.input.data, e.region, d.start, d.start + d.used);
    assert Buffered(r) == Buffered(d);
    if d.used >= 2 {
      assert Buffered(r)[0] == Buffered(d)[0] && Buffered(r)[1] == Buffered(d)[1];
    }
    assert Arriving(r) == e.region[..e.n];
  }

  lemma ResetKeepsInv(d: Dec, l: Log)
    requires Inv(d, l)
    ensures Inv(Step(d, l, Reset), Record(d, l, Reset))
  {
    hide Length, Stream;
    StreamNone();
    assert Buffered(Forget(d)) == [];
  }

  lemma HandshakeKeepsInv(d: Dec, l: Log, e: Event)
    requires Inv(d, l) && Enabled(d, e) && (e.InputOperation? || e.OutputOperation? || e.OutputComplete?)
    ensures Inv(Step(d, l, e), Record(d, l, e))
  {
    hide Length, Stream, Fits;
    assert Buffered(Step(d, l, e)) == Buffered(d);
  }

  /** Every event, including a reset at any moment, keeps the invariant. */
  lemma StepKeepsInv(d: Dec, l: Log, e: Event)
    requires Inv(d, l) && Enabled(d, e)
    ensures Inv(Step(d, l, e), Record(d, l, e))
  {
    hide Inv, Step, Record;
    match e
    case InputComplete(_, _) => InputCompleteKeepsInv(d, l, e);
    case InputDone => DoneKeepsInv(d, l, e);
    case OutputDone => DoneKeepsInv(d, l, e);
    case Reset => ResetKeepsInv(d, l);
    case _ => HandshakeKeepsInv(d, l, e);
  }
}
