/** What the decoder promises over whole runs, for every way the stream is cut into chunks. */
module DecoderRuns {
  import opened Decoder
  import opened Framing
  import opened PassInterface
  import opened Basics

  ghost predicate Legal(d: Dec, l: Log, es: seq<Event>)
    requires Inv(d, l)
    decreases es
  {
    es == [] ||
    (Enabled(d, es[0]) &&
     (StepKeepsInv(d, l, es[0]); Legal(Step(d, l, es[0]), Record(d, l, es[0]), es[1..])))
  }

  ghost function Run(d: Dec, l: Log, es: seq<Event>): (r: (Dec, Log))
    requires Inv(d, l) && Legal(d, l, es)
    ensures Inv(r.0, r.1)
    decreases es
  {
    if es == [] then (d, l)
    else (StepKeepsInv(d, l, es[0]); Run(Step(d, l, es[0]), Record(d, l, es[0]), es[1..]))
  }

  /** On every run, with resets at any moment: one of receive and send is outstanding, a receive
      asks for a positive number of bytes behind everything buffered, and the bytes of the packet
      that is lent to the output are still those that were received for it. */
  lemma RunIsSafe(buf: seq<Byte>, mtu: nat, es: seq<Event>)
    requires |buf| == 2 + mtu && mtu <= MAX_PAYLOAD && (InitInv(buf, mtu); Legal(Init(buf, mtu), NEW_LOG, es))
    ensures Inv(Init(buf, mtu), NEW_LOG)
    ensures var (d, l) := Run(Init(buf, mtu), NEW_LOG, es);
            && (d.input.phase == Idle <==> d.output.phase != Idle)
            && (d.input.phase != Idle ==>
                  d.start + d.used <= d.input.data < d.input.data + d.input.len == |d.buf|)
            && (d.output.phase != Idle ==>
                  && d.output.data + d.output.len <= d.start && d.start + d.used <= |d.buf| && d.output.len <= mtu
                  && d.buf[d.output.data..d.output.data + d.output.len] == l.lent)
  {
    hide Run, Step, Record, Stream, Fits, Arriving, Buffered, Whole, TooLong;
    InitInv(buf, mtu);
    RunKeepsMtu(Init(buf, mtu), NEW_LOG, es);
  }

  lemma {:induction false} RunKeepsMtu(d: Dec, l: Log, es: seq<Event>)
    requires Inv(d, l) && Legal(d, l, es)
    ensures Run(d, l, es).0.mtu == d.mtu && Inv(Run(d, l, es).0, Run(d, l, es).1)
    decreases |es|
  {
    hide Inv, Enabled, Step, Record;
    if es != [] {
      StepKeepsInv(d, l, es[0]);
      StepKeepsMtu(d, l, es[0]);
      RunKeepsMtu(Step(d, l, es[0]), Record(d, l, es[0]), es[1..]);
    }
  }

  lemma StepKeepsMtu(d: Dec, l: Log, e: Event)
    requires Inv(d, l) && Enabled(d, e)
    ensures Step(d, l, e).mtu == d.mtu
  {
    hide Length, Stream, Fits;
    if e.InputDone? || e.OutputDone? { EnteringReady(d, l, e); }
  }

  /** For any bytes at all: what was delivered is what a reader of the bytes received would get, in
      part while a packet is outstanding, and in full whenever the decoder waits for more. */
  lemma AgreesWithReader(d: Dec, l: Log)
    requires Inv(d, l)
    ensures l.delivered <= Read(l.received, d.mtu).packets
    ensures d.input.phase == OperationPending || d.input.phase == Busy ==>
              Read(l.received, d.mtu) == Reading(l.delivered, Buffered(d), false)
  {
    hide Read, Length, Stream, Fits;
    var b := Buffered(d) + Arriving(d);
    ReadStream(l.delivered, b, d.mtu);
    if d.input.phase == OperationPending || d.input.phase == Busy {
      assert b == Buffered(d);
      ReadNone(b, d.mtu);
      assert l.delivered + [] == l.delivered;
    }
  }

  /** process_data reports an error exactly when everything before a header that announces too much
      has been delivered. */
  lemma ErrorExactly(d: Dec, l: Log, e: Event)
    requires Inv(d, l) && (e.InputDone? || e.OutputDone?) && Enabled(d, e)
    ensures var r := Read(l.received, d.mtu);
            Record(d, l, e).errors == l.errors + (if r.tooLong && r.packets == l.delivered then 1 else 0)
  {
    hide Read, Length, Stream, Fits;
    EnteringReady(d, l, e);
    var b := Buffered(Entering(d, e));
    ReadStream(l.delivered, b, d.mtu);
    ReadTooLong(b, d.mtu);
    if Read(b, d.mtu).packets == [] {
      assert l.delivered + [] == l.delivered;
    }
  }

  lemma ReadTooLong(s: seq<Byte>, mtu: nat)
    ensures var r := Read(s, mtu);
            r.tooLong && r.packets == [] <==> |s| >= 2 && Length(s[0], s[1]) > mtu
  {
    hide Length;
  }

  /** The bytes the provider hands in during a run. */
  ghost function Fed(es: seq<Event>): seq<Byte> {
    if es == [] then []
    else (match es[0]
          case InputComplete(region, n) => if n <= |region| then region[..n] else []
          case _ => []) + Fed(es[1..])
  }

  /** As long as the bytes are those of well-formed packets, no step restarts the stream. */
  lemma StepReceives(d: Dec, l: Log, e: Event, ps: seq<Packet>)
    requires Inv(d, l) && Enabled(d, e) && e != Reset
    requires Fits(ps, d.mtu) && Fits(ps, MAX_PAYLOAD) && l.received <= Stream(ps)
    ensures Record(d, l, e).errors == l.errors
    ensures Record(d, l, e).received == l.received + Fed([e])
  {
    hide Read, Length, Stream, Fits;
    ReadPrefix(ps, l.received, d.mtu);
    FedOne(e);
    if e.InputDone? || e.OutputDone? {
      ErrorExactly(d, l, e);
      EnteringReady(d, l, e);
    }
  }

  lemma FedOne(e: Event)
    ensures Fed([e]) == match e
                        case InputComplete(region, n) => if n <= |region| then region[..n] else []
                        case _ => []
  {
    assert [e][1..] == [];
  }

  lemma FedFirst(es: seq<Event>)
    requires es != []
    ensures Fed(es) == Fed([es[0]]) + Fed(es[1..])
  {
    FedOne(es[0]);
  }

  lemma {:induction false} RunReceives(d: Dec, l: Log, es: seq<Event>, ps: seq<Packet>)
    requires Inv(d, l) && Legal(d, l, es) && Reset !in es
    requires Fits(ps, d.mtu) && Fits(ps, MAX_PAYLOAD) && l.received + Fed(es) <= Stream(ps)
    ensures var r := Run(d, l, es).1; r.errors == l.errors && r.received == l.received + Fed(es)
    decreases |es|
  {
    hide Inv, Enabled, Step, Record, Stream, Fits, Fed;
    if es == [] {
      FedNone();
    } else {
      var e := es[0];
      FedFirst(es);
      StepKeepsInv(d, l, e);
      StepKeepsMtu(d, l, e);
      StepReceives(d, l, e, ps);
      assert l.received + Fed(es) == l.received + Fed([e]) + Fed(es[1..]);
      RunReceives(Step(d, l, e), Record(d, l, e), es[1..], ps);
    }
  }

  lemma FedNone()
    ensures Fed([]) == []
  {
  }

  /** Round trip, whatever the chunks: if the bytes handed in are the encoding of packets that fit,
      or a part of it, there is no error, the packets delivered are the first of them, and once all
      bytes are in and the decoder waits for more, they are all of them with nothing left over. */
  lemma RoundTrip(buf: seq<Byte>, mtu: nat, es: seq<Event>, ps: seq<Packet>)
    requires |buf| == 2 + mtu && mtu <= MAX_PAYLOAD && (InitInv(buf, mtu); Legal(Init(buf, mtu), NEW_LOG, es))
    requires Reset !in es && Fits(ps, mtu) && Fits(ps, MAX_PAYLOAD) && Fed(es) <= Stream(ps)
    ensures Inv(Init(buf, mtu), NEW_LOG)
    ensures var (d, l) := Run(Init(buf, mtu), NEW_LOG, es);
            && l.errors == 0 && l.delivered <= ps
            && (Fed(es) == Stream(ps) && (d.input.phase == OperationPending || d.input.phase == Busy) ==>
                  l.delivered == ps && d.used == 0)
  {
    hide Inv, Run, Read, Stream, Fits, Fed, Legal;
    InitInv(buf, mtu);
    var start := Init(buf, mtu);
    assert NEW_LOG.received + Fed(es) == Fed(es);
    RunReceives(start, NEW_LOG, es, ps);
    RunKeepsMtu(start, NEW_LOG, es);
    var (d, l) := Run(start, NEW_LOG, es);
    AgreesWithReader(d, l);
    ReadPrefix(ps, Fed(es), mtu);
    BufferedLength(d, l);
  }

  lemma BufferedLength(d: Dec, l: Log)
    requires Inv(d, l)
    ensures Bounds(d) && |Buffered(d)| == d.used
  {
  }

  // ---- Progress ----

  /** Events that do not come from the jobs or from the receiver of the packets. */
  predicate FromOutside(e: Event) {
    e.InputComplete? || e.Reset?
  }

  /** Steps until the decoder waits for input: four at most for each packet, which has two bytes or
      more, and the handshakes under way. */
  function Work(d: Dec): nat {
    (match d.output.phase
     case OperationPending => 4
     case Busy => 3
     case DonePending => 2
     case Idle => 0)
    + (match d.input.phase
       case OperationPending => 1
       case DonePending => 2 + 4 * d.input.doneLen
       case _ => 0)
    + 4 * d.used
  }

  /** Every other step leaves less work, whatever the bytes. */
  lemma StepWorks(d: Dec, l: Log, e: Event)
    requires Inv(d, l) && Enabled(d, e) && !FromOutside(e)
    ensures Work(Step(d, l, e)) < Work(d)
  {
    hide Length, Stream, Fits, Buffered, Arriving;
    if e.InputDone? || e.OutputDone? { EnteringReady(d, l, e); }
  }

  /** A decoder that can do nothing but wait for input has delivered every packet it was given. */
  lemma StuckWaits(d: Dec, l: Log)
    requires Inv(d, l) && forall e :: Enabled(d, e) ==> FromOutside(e)
    ensures d.input.phase == Busy && l.delivered == Read(l.received, d.mtu).packets
  {
    hide Inv, Read;
    assert !Enabled(d, InputOperation) && !Enabled(d, InputDone);
    assert !Enabled(d, OutputOperation) && !Enabled(d, OutputComplete) && !Enabled(d, OutputDone);
    OneOutstanding(d, l);
    AgreesWithReader(d, l);
  }

  lemma OneOutstanding(d: Dec, l: Log)
    requires Inv(d, l)
    ensures d.input.phase == Idle <==> d.output.phase != Idle
  {
  }

  /** Without new input the decoder comes to rest: a run has at most Work(d) steps, and where it cannot
      be continued the decoder waits for input with every packet it was given delivered. */
  lemma {:induction false} RunsDown(d: Dec, l: Log, es: seq<Event>)
    requires Inv(d, l) && Legal(d, l, es) && forall e :: e in es ==> !FromOutside(e)
    ensures |es| <= Work(d)
    ensures var (t, m) := Run(d, l, es);
            (forall e :: Enabled(t, e) ==> FromOutside(e)) ==>
              t.input.phase == Busy && m.delivered == Read(m.received, t.mtu).packets
    decreases |es|
  {
    hide Inv, Step, Record, Work, Read, Enabled;
    if es == [] {
      if forall e :: Enabled(d, e) ==> FromOutside(e) { StuckWaits(d, l); }
    } else {
      assert es[0] in es;
      StepKeepsInv(d, l, es[0]);
      StepWorks(d, l, es[0]);
      RunsDown(Step(d, l, es[0]), Record(d, l, es[0]), es[1..]);
    }
  }
}
