/** The flow on the job list that all its interfaces share: the list always holds exactly the jobs the
    interfaces call for, so whichever job comes to the top, the assertion of its handler holds. */
module FlowJobs {
  import opened Basics
  import opened EventLoop
  import opened Flow
  import opened FlowSafety
  import opened PassInterface
  import opened Pending
  import R = Ring
  import opened Transfer
  import FlowRuns

  /** The names of the four interfaces. */
  datatype Names = Names(ri1: nat, ri2: nat, pi: nat, spi: nat)

  predicate Different(n: Names) {
    n.ri1 != n.ri2 && n.ri1 != n.pi && n.ri1 != n.spi && n.ri2 != n.pi && n.ri2 != n.spi && n.pi != n.spi
  }

  ghost function Board(p: Pipe, n: Names): map<nat, Phase> {
    map[n.ri1 := p.ri1.phase, n.ri2 := p.ri2.phase, n.pi := p.pi.phase, n.spi := p.spi.phase]
  }

  /** The pending jobs of the four interfaces are those their phases call for. */
  ghost predicate Scheduled(p: Pipe, n: Names, jobs: seq<Job>) {
    Different(n) && Agrees(Board(p, n), jobs)
  }

  predicate Mine(n: Names, j: Job) {
    && (j.Operation? || j.Done?)
    && (j.i == n.ri1 || j.i == n.ri2 || j.i == n.pi || j.i == n.spi)
  }

  /** What running a job means for the flow. */
  function EventOf(n: Names, j: Job): Event
    requires Mine(n, j)
  {
    if j.i == n.ri1 then (if j.Operation? then Ri1Operation else Ri1Done)
    else if j.i == n.ri2 then (if j.Operation? then Ri2Operation else Ri2Done)
    else if j.i == n.pi then (if j.Operation? then PiOperation else PiDone)
    else (if j.Operation? then SpiOperation else SpiDone)
  }

  predicate ByJob(e: Event) {
    !e.Start? && !e.Fill? && !e.End? && !e.Take?
  }

  /** The list after an event; a job that is run has been taken off before. */
  function JobsAfter(p: Pipe, t: Trace, e: Event, n: Names, jobs: seq<Job>): seq<Job>
    requires Inv(p, t) && Enabled(p, e)
  {
    var q := Step(p, t, e);
    match e
    case End(_) => Set(jobs, Done(n.ri1))
    case Ri1Done => Set(jobs, Done(n.ri2))
    case Ri2Operation => Set(jobs, Operation(n.ri1))
    case Ri2Done => Armed(Armed(jobs, q.ri2.phase == OperationPending, n.ri2), p.pi.phase == Idle, n.pi)
    case PiOperation => Set(jobs, Operation(n.spi))
    case PiDone =>
      Armed(Armed(jobs, p.ri2.phase == Idle && q.ri2.phase == OperationPending, n.ri2),
            q.pi.phase == OperationPending, n.pi)
    case SpiDone => Set(jobs, if q.spi.phase == OperationPending then Operation(n.spi) else Done(n.pi))
    case Take(_) => Set(jobs, Done(n.spi))
    case _ => jobs
  }

  /** Whichever job of the flow is on top, its handler may run. */
  lemma JobFires(p: Pipe, t: Trace, n: Names, jobs: seq<Job>)
    requires Inv(p, t) && Scheduled(p, n, jobs) && jobs != [] && Mine(n, jobs[0])
    ensures ByJob(EventOf(n, jobs[0])) && Enabled(p, EventOf(n, jobs[0]))
  {
    hide Inv, Distinct;
  }

  /** How the phases change with an event. */
  lemma PhasesAfter(p: Pipe, t: Trace, e: Event)
    requires Inv(p, t) && Enabled(p, e)
    ensures var q := Step(p, t, e);
            match e
            case Start => q.ri1 == p.ri1 && q.ri2 == p.ri2 && q.pi == p.pi && q.spi == p.spi
            case Fill(_) => q.ri1 == p.ri1 && q.ri2 == p.ri2 && q.pi == p.pi && q.spi == p.spi
            case End(_) => q.ri1.phase == DonePending && p.ri1.phase == Busy && q.ri2 == p.ri2 && q.pi == p.pi
                           && q.spi == p.spi
            case Ri1Operation => q.ri1.phase == Busy && q.ri2 == p.ri2 && q.pi == p.pi && q.spi == p.spi
            case Ri1Done => q.ri1.phase == Idle && p.ri2.phase == Busy && q.ri2.phase == DonePending
                            && q.pi == p.pi && q.spi == p.spi
            case Ri2Operation => p.ri1.phase == Idle && q.ri1.phase == OperationPending && q.ri2.phase == Busy
                                 && q.pi == p.pi && q.spi == p.spi
            case Ri2Done =>
              && q.ri1 == p.ri1 && (q.ri2.phase == Idle || q.ri2.phase == OperationPending) && q.spi == p.spi
              && (if p.pi.phase == Idle then q.pi.phase == OperationPending else q.pi == p.pi)
            case PiOperation => q.ri1 == p.ri1 && q.ri2 == p.ri2 && q.pi.phase == Busy && p.spi.phase == Idle
                                && q.spi.phase == OperationPending
            case PiDone =>
              && q.ri1 == p.ri1 && q.spi == p.spi && (q.pi.phase == Idle || q.pi.phase == OperationPending)
              && (q.ri2 == p.ri2 || (p.ri2.phase == Idle && q.ri2.phase == OperationPending))
            case SpiOperation => q.ri1 == p.ri1 && q.ri2 == p.ri2 && q.pi == p.pi && q.spi.phase == Busy
            case SpiDone =>
              && q.ri1 == p.ri1 && q.ri2 == p.ri2 && p.pi.phase == Busy
              && (if q.spi.phase == OperationPending then q.pi == p.pi
                  else q.spi.phase == Idle && q.pi.phase == DonePending)
            case Take(_) => q.ri1 == p.ri1 && q.ri2 == p.ri2 && q.pi == p.pi && p.spi.phase == Busy
                            && q.spi.phase == DonePending
  {
    hide R.Inv, R.Bounds, R.Contents, R.Submit, R.Consume, Accounted, Concat;
    if e.PiOperation? { FirstLength(p.ring, p.mtu); }
    if e.PiDone? { R.OutputPresent(p.ring); }
    if e.Ri2Done? { R.OutputPresent(p.ring); }
  }

  /** The tests of the packet buffer, in terms of the phases. */
  lemma BufferArms(p: Pipe, t: Trace, e: Event)
    requires Inv(p, t) && Enabled(p, e) && (e.Ri2Done? || e.PiDone?)
    ensures var q := Step(p, t, e);
            && (p.ring.outputAvail < 0 <==> p.pi.phase == Idle)
            && (q.ring.outputAvail >= 0 <==> q.pi.phase != Idle)
            && (p.ring.inputAvail < 2 + p.mtu <==> p.ri2.phase == Idle)
            && (q.ring.inputAvail >= 2 + p.mtu <==> q.ri2.phase != Idle)
  {
    hide R.Inv, R.Bounds, R.Contents, Accounted, Sizes, Step, InFlight, Concat;
    R.OutputPresent(p.ring);
    if e.Ri2Done? {
      Ri2DoneFills(p, t);
      Ri2KeepsMtu(p, t);
    } else {
      PiDoneSends(p, t);
    }
    R.OutputPresent(Step(p, t, e).ring);
  }

  /** The tests of the stream sender, in terms of the phases. */
  lemma SenderArms(p: Pipe, t: Trace, e: Event)
    requires Inv(p, t) && Enabled(p, e) && (e.PiOperation? || e.SpiDone?)
    ensures e.PiOperation? ==> p.pi.len > 0
    ensures e.SpiDone? ==>
              (p.sender.used + p.spi.doneLen < p.sender.inLen <==> Step(p, t, e).spi.phase == OperationPending)
  {
    hide R.Inv, R.Bounds, R.Contents, Accounted, Concat;
    if e.PiOperation? { FirstLength(p.ring, p.mtu); }
  }

  lemma CallKeepsScheduled(p: Pipe, t: Trace, e: Event, n: Names, jobs: seq<Job>)
    requires Inv(p, t) && Enabled(p, e) && Scheduled(p, n, jobs) && !ByJob(e)
    ensures Scheduled(Step(p, t, e), n, JobsAfter(p, t, e, n, jobs))
  {
    hide Inv, Step, Agrees, Set;
    PhasesAfter(p, t, e);
    var b: map<nat, Phase>, c := Board(p, n), Board(Step(p, t, e), n);
    if e.End? {
      ReportAgrees(b, jobs, n.ri1);
      assert c == b[n.ri1 := DonePending];
    } else if e.Take? {
      ReportAgrees(b, jobs, n.spi);
      assert c == b[n.spi := DonePending];
    } else {
      assert c == b;
    }
  }

  lemma InputJobKeepsScheduled(p: Pipe, t: Trace, e: Event, n: Names, jobs: seq<Job>)
    requires Inv(p, t) && Enabled(p, e) && Scheduled(p, n, jobs)
    requires jobs != [] && Mine(n, jobs[0]) && e == EventOf(n, jobs[0])
    requires e.Ri1Operation? || e.Ri1Done? || e.Ri2Operation?
    ensures Scheduled(Step(p, t, e), n, JobsAfter(p, t, e, n, jobs[1..]))
  {
    hide Inv, Step, Agrees, Set;
    PhasesAfter(p, t, e);
    var b: map<nat, Phase>, c := Board(p, n), Board(Step(p, t, e), n);
    var rest := jobs[1..];
    if e.Ri1Operation? {
      TakenOff(b, jobs, Busy);
      assert c == b[n.ri1 := Busy];
    } else if e.Ri1Done? {
      TakenOff(b, jobs, Idle);
      ReportAgrees(b[n.ri1 := Idle], rest, n.ri2);
      assert c == b[n.ri1 := Idle][n.ri2 := DonePending];
    } else {
      TakenOff(b, jobs, Busy);
      ArmedAgrees(b[n.ri2 := Busy], rest, true, n.ri1);
      assert c == b[n.ri2 := Busy][n.ri1 := OperationPending];
    }
  }

  lemma BufferJobKeepsScheduled(p: Pipe, t: Trace, e: Event, n: Names, jobs: seq<Job>)
    requires Inv(p, t) && Enabled(p, e) && Scheduled(p, n, jobs)
    requires jobs != [] && Mine(n, jobs[0]) && e == EventOf(n, jobs[0]) && (e.Ri2Done? || e.PiDone?)
    ensures Scheduled(Step(p, t, e), n, JobsAfter(p, t, e, n, jobs[1..]))
  {
    hide Inv, Step, Agrees, Set, Armed, Board;
    PhasesAfter(p, t, e);
    BoardIs(p, n);
    TakenOff(Board(p, n), jobs, Idle);
    var q := Step(p, t, e);
    if e.Ri2Done? {
      ArmsBoth(p, q, n, n.ri2, jobs[1..], q.ri2.phase == OperationPending, p.pi.phase == Idle);
    } else {
      ArmsBoth(p, q, n, n.pi, jobs[1..], p.ri2.phase == Idle && q.ri2.phase == OperationPending,
               q.pi.phase == OperationPending);
    }
  }

  lemma BoardIs(p: Pipe, n: Names)
    requires Different(n)
    ensures Board(p, n).Keys == {n.ri1, n.ri2, n.pi, n.spi}
    ensures Board(p, n)[n.ri1] == p.ri1.phase && Board(p, n)[n.ri2] == p.ri2.phase
    ensures Board(p, n)[n.pi] == p.pi.phase && Board(p, n)[n.spi] == p.spi.phase
  {
  }

  /** The packet buffer, after interface k went idle, receives and sends. */
  lemma ArmsBoth(p: Pipe, q: Pipe, n: Names, k: nat, rest: seq<Job>, receives: bool, sends: bool)
    requires Different(n) && (k == n.ri2 || k == n.pi) && Agrees(Board(p, n)[k := Idle], rest)
    requires q.ri1.phase == p.ri1.phase && q.spi.phase == p.spi.phase
    requires receives ==> k == n.ri2 || p.ri2.phase == Idle
    requires sends ==> k == n.pi || p.pi.phase == Idle
    requires q.ri2.phase == if receives then OperationPending else if k == n.ri2 then Idle else p.ri2.phase
    requires q.pi.phase == if sends then OperationPending else if k == n.pi then Idle else p.pi.phase
    ensures Agrees(Board(q, n), Armed(Armed(rest, receives, n.ri2), sends, n.pi))
  {
    hide Agrees, Armed;
    var b0 := Board(p, n)[k := Idle];
    ArmedAgrees(b0, rest, receives, n.ri2);
    var b1 := if receives then b0[n.ri2 := OperationPending] else b0;
    ArmedAgrees(b1, Armed(rest, receives, n.ri2), sends, n.pi);
    assert Board(q, n) == if sends then b1[n.pi := OperationPending] else b1;
  }

  lemma SenderJobKeepsScheduled(p: Pipe, t: Trace, e: Event, n: Names, jobs: seq<Job>)
    requires Inv(p, t) && Enabled(p, e) && Scheduled(p, n, jobs)
    requires jobs != [] && Mine(n, jobs[0]) && e == EventOf(n, jobs[0])
    requires e.PiOperation? || e.SpiOperation? || e.SpiDone?
    ensures Scheduled(Step(p, t, e), n, JobsAfter(p, t, e, n, jobs[1..]))
  {
    hide Inv, Step, Agrees, Set;
    PhasesAfter(p, t, e);
    var b: map<nat, Phase>, c := Board(p, n), Board(Step(p, t, e), n);
    var rest := jobs[1..];
    if e.PiOperation? {
      TakenOff(b, jobs, Busy);
      ArmedAgrees(b[n.pi := Busy], rest, true, n.spi);
      assert c == b[n.pi := Busy][n.spi := OperationPending];
    } else if e.SpiOperation? {
      TakenOff(b, jobs, Busy);
      assert c == b[n.spi := Busy];
    } else {
      TakenOff(b, jobs, Idle);
      if c[n.spi] == OperationPending {
        ArmedAgrees(b[n.spi := Idle], rest, true, n.spi);
        assert c == b[n.spi := Idle][n.spi := OperationPending];
      } else {
        ReportAgrees(b[n.spi := Idle], rest, n.pi);
        assert c == b[n.spi := Idle][n.pi := DonePending];
      }
    }
  }

  /** Every job and every call leaves exactly the jobs pending that the new phases call for. */
  lemma StepKeepsScheduled(p: Pipe, t: Trace, e: Event, n: Names, jobs: seq<Job>, rest: seq<Job>)
    requires Inv(p, t) && Enabled(p, e) && Scheduled(p, n, jobs)
    requires if ByJob(e) then jobs != [] && Mine(n, jobs[0]) && e == EventOf(n, jobs[0]) && rest == jobs[1..]
             else rest == jobs
    ensures Scheduled(Step(p, t, e), n, JobsAfter(p, t, e, n, rest))
  {
    hide Inv, Step, Scheduled, JobsAfter, Enabled;
    if !ByJob(e) {
      CallKeepsScheduled(p, t, e, n, jobs);
    } else if e.Ri2Done? || e.PiDone? {
      BufferJobKeepsScheduled(p, t, e, n, jobs);
    } else if e.PiOperation? || e.SpiOperation? || e.SpiDone? {
      SenderJobKeepsScheduled(p, t, e, n, jobs);
    } else {
      InputJobKeepsScheduled(p, t, e, n, jobs);
    }
  }

  /** A fresh flow has the first receive of the packet buffer pending, and nothing else. */
  lemma InitScheduled(p: Pipe, n: Names, jobs: seq<Job>)
    requires Different(n) && Distinct(jobs) && forall j :: j in jobs ==> !Mine(n, j)
    requires p.ri1.phase == Idle && p.ri2.phase == OperationPending && p.pi.phase == Idle && p.spi.phase == Idle
    ensures Scheduled(p, n, Set(jobs, Operation(n.ri2)))
  {
    hide Distinct, Agrees, Set;
    var idle := Board(p, n)[n.ri2 := Idle];
    IdleAgrees(idle, jobs);
    ArmedAgrees(idle, jobs, true, n.ri2);
    assert Board(p, n) == idle[n.ri2 := OperationPending];
  }

  // ---- The event loop ----

  datatype System = System(p: Pipe, t: Trace, jobs: seq<Job>)

  ghost predicate Sound(s: System, n: Names) {
    Inv(s.p, s.t) && Scheduled(s.p, n, s.jobs)
  }

  /** What the outside may do; nothing is asked of the state when a job is run. */
  predicate Allowed(s: System, n: Names, turn: Turn<Event>) {
    match turn
    case Execute => s.jobs != []
    case Call(e) => !ByJob(e) && Enabled(s.p, e)
    case SetForeign(j) => !Mine(n, j)
    case UnsetForeign(j) => !Mine(n, j)
  }

  /** The event of the flow in a turn, if it has one. */
  function Happens(s: System, n: Names, turn: Turn<Event>): Option<Event>
    requires Allowed(s, n, turn)
  {
    match turn
    case Execute => if Mine(n, s.jobs[0]) then Some(EventOf(n, s.jobs[0])) else None
    case Call(e) => Some(e)
    case _ => None
  }

  lemma HappensEnabled(s: System, n: Names, turn: Turn<Event>)
    requires Sound(s, n) && Allowed(s, n, turn) && Happens(s, n, turn).Some?
    ensures Enabled(s.p, Happens(s, n, turn).value)
  {
    hide Inv, Scheduled, Enabled;
    if turn.Execute? { JobFires(s.p, s.t, n, s.jobs); }
  }

  function Next(s: System, n: Names, turn: Turn<Event>): System
    requires Sound(s, n) && Allowed(s, n, turn)
  {
    match Happens(s, n, turn)
    case Some(e) =>
      HappensEnabled(s, n, turn);
      System(Step(s.p, s.t, e), Record(s.p, s.t, e), JobsAfter(s.p, s.t, e, n, Rest(s.jobs, turn)))
    case None => s.(jobs := Rest(s.jobs, turn))
  }

  /** No turn of the event loop breaks the flow or its schedule. */
  lemma NextIsSound(s: System, n: Names, turn: Turn<Event>)
    requires Sound(s, n) && Allowed(s, n, turn)
    ensures Sound(Next(s, n, turn), n)
  {
    hide Inv, Step, Record, Agrees, JobsAfter, Enabled, Rest;
    if Happens(s, n, turn).Some? {
      var e := Happens(s, n, turn).value;
      HappensEnabled(s, n, turn);
      StepKeepsInv(s.p, s.t, e);
      if turn.Execute? { JobFires(s.p, s.t, n, s.jobs); }
      RestOf(s.jobs, turn);
      StepKeepsScheduled(s.p, s.t, e, n, s.jobs, Rest(s.jobs, turn));
    } else {
      ForeignAgrees(Board(s.p, n), s.jobs, turn);
    }
  }

  ghost predicate Legal(s: System, n: Names, turns: seq<Turn<Event>>)
    requires Sound(s, n)
    decreases turns
  {
    turns == [] ||
    (Allowed(s, n, turns[0]) && (NextIsSound(s, n, turns[0]); Legal(Next(s, n, turns[0]), n, turns[1..])))
  }

  ghost function Run(s: System, n: Names, turns: seq<Turn<Event>>): System
    requires Sound(s, n) && Legal(s, n, turns)
    decreases turns
  {
    if turns == [] then s
    else (NextIsSound(s, n, turns[0]); Run(Next(s, n, turns[0]), n, turns[1..]))
  }

  /** The events of the flow along a run of the event loop. */
  ghost function Events(s: System, n: Names, turns: seq<Turn<Event>>): seq<Event>
    requires Sound(s, n) && Legal(s, n, turns)
    decreases turns
  {
    if turns == [] then []
    else
      NextIsSound(s, n, turns[0]);
      (if Happens(s, n, turns[0]).Some? then [Happens(s, n, turns[0]).value] else [])
      + Events(Next(s, n, turns[0]), n, turns[1..])
  }

  /** Every run of the event loop, in the order of its list and with any jobs of others on it, is a run
      of the flow; so what FlowRuns shows holds for it. */
  lemma {:induction false} RunIsFlowRun(s: System, n: Names, turns: seq<Turn<Event>>)
    requires Sound(s, n) && Legal(s, n, turns)
    ensures Sound(Run(s, n, turns), n)
    ensures FlowRuns.Legal(s.p, s.t, Events(s, n, turns))
    ensures FlowRuns.Run(s.p, s.t, Events(s, n, turns)) == (Run(s, n, turns).p, Run(s, n, turns).t)
    decreases |turns|
  {
    hide Inv, Step, Record, Scheduled, JobsAfter, Enabled, Set, Without;
    if turns != [] {
      var turn := turns[0];
      NextIsSound(s, n, turn);
      RunIsFlowRun(Next(s, n, turn), n, turns[1..]);
      if Happens(s, n, turn).Some? {
        HappensEnabled(s, n, turn);
        assert Events(s, n, turns)[1..] == Events(Next(s, n, turn), n, turns[1..]);
      } else {
        assert Events(s, n, turns) == Events(Next(s, n, turn), n, turns[1..]);
      }
    }
  }
}
