/** The decoder on the job list it shares with its two interfaces: the list always holds exactly the
    jobs they call for, so whichever job comes to the top, the assertion of its handler holds. */
module DecoderJobs {
  import opened Basics
  import opened Decoder
  import DecoderRuns
  import opened EventLoop
  import Framing
  import opened PassInterface
  import opened Pending

  datatype Names = Names(input: nat, output: nat)

  ghost function Board(d: Dec, n: Names): map<nat, Phase> {
    map[n.input := d.input.phase, n.output := d.output.phase]
  }

  /** The pending jobs of the two interfaces are those their phases call for. */
  ghost predicate Scheduled(d: Dec, n: Names, jobs: seq<Job>) {
    n.input != n.output && Agrees(Board(d, n), jobs)
  }

  predicate Mine(n: Names, j: Job) {
    (j.Operation? || j.Done?) && (j.i == n.input || j.i == n.output)
  }

  /** What running a job means for the decoder. */
  function EventOf(n: Names, j: Job): Event
    requires Mine(n, j)
  {
    if j.i == n.input then (if j.Operation? then InputOperation else InputDone)
    else (if j.Operation? then OutputOperation else OutputDone)
  }

  predicate ByJob(e: Event) {
    e.InputOperation? || e.InputDone? || e.OutputOperation? || e.OutputDone?
  }

  /** The list after an event; a job that is run has been taken off before. */
  function JobsAfter(d: Dec, l: Log, e: Event, n: Names, jobs: seq<Job>): seq<Job>
    requires Inv(d, l) && Enabled(d, e)
  {
    match e
    case InputComplete(_, _) => Set(jobs, Done(n.input))
    case OutputComplete => Set(jobs, Done(n.output))
    case InputDone => Set(jobs, Operation(if Step(d, l, e).output.phase == Idle then n.input else n.output))
    case OutputDone => Set(jobs, Operation(if Step(d, l, e).output.phase == Idle then n.input else n.output))
    case _ => jobs
  }

  /** Whichever job of the decoder is on top, its handler may run. */
  lemma JobFires(d: Dec, l: Log, n: Names, jobs: seq<Job>)
    requires Inv(d, l) && Scheduled(d, n, jobs) && jobs != [] && Mine(n, jobs[0])
    ensures ByJob(EventOf(n, jobs[0])) && Enabled(d, EventOf(n, jobs[0]))
  {
    hide Inv, Distinct;
  }

  /** How the phases change with an event. */
  lemma PhasesAfter(d: Dec, l: Log, e: Event)
    requires Inv(d, l) && Enabled(d, e)
    ensures var r := Step(d, l, e);
            match e
            case InputOperation => r.input.phase == Busy && r.output == d.output
            case InputComplete(_, _) => r.input.phase == DonePending && r.output == d.output
            case OutputOperation => r.output.phase == Busy && r.input == d.input
            case OutputComplete => r.output.phase == DonePending && r.input == d.input
            case Reset => r.input == d.input && r.output == d.output
            case _ =>
              if r.output.phase == Idle then r.input.phase == OperationPending
              else r.input.phase == Idle && r.output.phase == OperationPending
    ensures e.InputDone? ==> d.output.phase == Idle
    ensures e.OutputDone? ==> d.input.phase == Idle
  {
    hide Framing.Length, Framing.Stream, Framing.Fits;
    if e.InputDone? || e.OutputDone? { EnteringReady(d, l, e); }
  }

  lemma JobKeepsScheduled(d: Dec, l: Log, e: Event, n: Names, jobs: seq<Job>)
    requires Inv(d, l) && Enabled(d, e) && Scheduled(d, n, jobs)
    requires jobs != [] && Mine(n, jobs[0]) && e == EventOf(n, jobs[0])
    ensures Scheduled(Step(d, l, e), n, JobsAfter(d, l, e, n, jobs[1..]))
  {
    hide Inv, Step, Agrees, Set;
    PhasesAfter(d, l, e);
    var b: map<nat, Phase>, c := Board(d, n), Board(Step(d, l, e), n);
    var k := jobs[0].i;
    if jobs[0].Operation? {
      TakenOff(b, jobs, Busy);
      assert c == b[k := Busy];
    } else {
      TakenOff(b, jobs, Idle);
      var next := if Step(d, l, e).output.phase == Idle then n.input else n.output;
      ArmedAgrees(b[k := Idle], jobs[1..], true, next);
      assert c == b[k := Idle][next := OperationPending];
    }
  }

  lemma CallKeepsScheduled(d: Dec, l: Log, e: Event, n: Names, jobs: seq<Job>)
    requires Inv(d, l) && Enabled(d, e) && Scheduled(d, n, jobs) && !ByJob(e)
    ensures Scheduled(Step(d, l, e), n, JobsAfter(d, l, e, n, jobs))
  {
    hide Inv, Step, Agrees, Set;
    PhasesAfter(d, l, e);
    var b, c := Board(d, n), Board(Step(d, l, e), n);
    if e.Reset? {
      assert c == b;
    } else {
      var k := if e.InputComplete? then n.input else n.output;
      ReportAgrees(b, jobs, k);
      assert c == b[k := DonePending];
    }
  }

  /** Every job and every call leaves exactly the jobs pending that the new phases call for. */
  lemma StepKeepsScheduled(d: Dec, l: Log, e: Event, n: Names, jobs: seq<Job>, rest: seq<Job>)
    requires Inv(d, l) && Enabled(d, e) && Scheduled(d, n, jobs)
    requires if ByJob(e) then jobs != [] && Mine(n, jobs[0]) && e == EventOf(n, jobs[0]) && rest == jobs[1..]
             else rest == jobs
    ensures Scheduled(Step(d, l, e), n, JobsAfter(d, l, e, n, rest))
  {
    hide Inv, Step, Scheduled, JobsAfter, Enabled;
    if ByJob(e) {
      JobKeepsScheduled(d, l, e, n, jobs);
    } else {
      CallKeepsScheduled(d, l, e, n, jobs);
    }
  }

  /** A fresh decoder has its first receive pending, and nothing else. */
  lemma InitScheduled(d: Dec, n: Names, jobs: seq<Job>)
    requires n.input != n.output && Distinct(jobs) && forall j :: j in jobs ==> !Mine(n, j)
    requires d.input.phase == OperationPending && d.output.phase == Idle
    ensures Scheduled(d, n, Set(jobs, Operation(n.input)))
  {
    hide Distinct, Agrees, Set;
    var idle := Board(d, n)[n.input := Idle];
    IdleAgrees(idle, jobs);
    ArmedAgrees(idle, jobs, true, n.input);
    assert Board(d, n) == idle[n.input := OperationPending];
  }

  // ---- The event loop ----

  datatype System = System(d: Dec, l: Log, jobs: seq<Job>)

  ghost predicate Sound(s: System, n: Names) {
    Inv(s.d, s.l) && Scheduled(s.d, n, s.jobs)
  }

  /** What the outside may do; nothing is asked of the state when a job is run. */
  predicate Allowed(s: System, n: Names, turn: Turn<Event>) {
    match turn
    case Execute => s.jobs != []
    case Call(e) => !ByJob(e) && Enabled(s.d, e)
    case SetForeign(j) => !Mine(n, j)
    case UnsetForeign(j) => !Mine(n, j)
  }

  function Happens(s: System, n: Names, turn: Turn<Event>): Option<Event>
    requires Allowed(s, n, turn)
  {
    match turn
    case Execute => if Mine(n, s.jobs[0]) then Some(EventOf(n, s.jobs[0])) else None
    case Call(e) => Some(e)
    case _ => None
  }

  lemma HappensEnabled(s: System, n: Names, turn: Turn<Event>)
    requires Sound(s, n) && Allowed(s, n, turn) && Happens(s, n, turn).Some?
    ensures Enabled(s.d, Happens(s, n, turn).value)
  {
    hide Inv, Scheduled, Enabled;
    if turn.Execute? { JobFires(s.d, s.l, n, s.jobs); }
  }

  function Next(s: System, n: Names, turn: Turn<Event>): System
    requires Sound(s, n) && Allowed(s, n, turn)
  {
    match Happens(s, n, turn)
    case Some(e) =>
      HappensEnabled(s, n, turn);
      System(Step(s.d, s.l, e), Record(s.d, s.l, e), JobsAfter(s.d, s.l, e, n, Rest(s.jobs, turn)))
    case None => s.(jobs := Rest(s.jobs, turn))
  }

  /** No turn of the event loop breaks the decoder or its schedule. */
  lemma NextIsSound(s: System, n: Names, turn: Turn<Event>)
    requires Sound(s, n) && Allowed(s, n, turn)
    ensures Sound(Next(s, n, turn), n)
  {
    hide Inv, Step, Record, Agrees, JobsAfter, Enabled, Rest;
    if Happens(s, n, turn).Some? {
      var e := Happens(s, n, turn).value;
      HappensEnabled(s, n, turn);
      StepKeepsInv(s.d, s.l, e);
      if turn.Execute? { JobFires(s.d, s.l, n, s.jobs); }
      RestOf(s.jobs, turn);
      StepKeepsScheduled(s.d, s.l, e, n, s.jobs, Rest(s.jobs, turn));
    } else {
      ForeignAgrees(Board(s.d, n), s.jobs, turn);
    }
  }

  ghost predicate Legal(s: System, n: Names, turns: seq<Turn<Event>>)
    requires Sound(s, n)
    decreases turns
  {
    turns == [] ||
    (Allowed(s, n, turns[0]) && (NextIsSound(s, n, turns[0]); Legal(Next(s, n, turns[0]), n, turns[1..])))
  }

  ghost function Run(s: System, n: Names, turns: seq<Turn<Event>>): System
    requires Sound(s, n) && Legal(s, n, turns)
    decreases turns
  {
    if turns == [] then s
    else (NextIsSound(s, n, turns[0]); Run(Next(s, n, turns[0]), n, turns[1..]))
  }

  /** The events of the decoder along a run of the event loop. */
  ghost function Events(s: System, n: Names, turns: seq<Turn<Event>>): seq<Event>
    requires Sound(s, n) && Legal(s, n, turns)
    decreases turns
  {
    if turns == [] then []
    else
      NextIsSound(s, n, turns[0]);
      (if Happens(s, n, turns[0]).Some? then [Happens(s, n, turns[0]).value] else [])
      + Events(Next(s, n, turns[0]), n, turns[1..])
  }

  /** Every run of the event loop, in the order of its list and with any jobs of others on it, is a run
      of the decoder; so what DecoderRuns shows holds for it. */
  lemma {:induction false} RunIsDecoderRun(s: System, n: Names, turns: seq<Turn<Event>>)
    requires Sound(s, n) && Legal(s, n, turns)
    ensures Sound(Run(s, n, turns), n)
    ensures DecoderRuns.Legal(s.d, s.l, Events(s, n, turns))
    ensures DecoderRuns.Run(s.d, s.l, Events(s, n, turns)) == (Run(s, n, turns).d, Run(s, n, turns).l)
    decreases |turns|
  {
    hide Inv, Step, Record, Scheduled, JobsAfter, Enabled, Set, Without;
    if turns != [] {
      var turn := turns[0];
      NextIsSound(s, n, turn);
      RunIsDecoderRun(Next(s, n, turn), n, turns[1..]);
      if Happens(s, n, turn).Some? {
        HappensEnabled(s, n, turn);
        assert Events(s, n, turns)[1..] == Events(Next(s, n, turn), n, turns[1..]);
      } else {
        assert Events(s, n, turns) == Events(Next(s, n, turn), n, turns[1..]);
      }
    }
  }
}
