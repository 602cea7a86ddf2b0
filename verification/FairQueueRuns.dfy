/** Runs of the fair queue from the empty queue, for every sequence of events that respects the
    calling rules: safety, and the effect of the last-in-first-out job list. */
module FairQueueRuns {
  import opened Basics
  import opened Pending
  import opened PassInterface
  import opened FairQueue
  import opened FairQueueSafety

  ghost predicate Legal(c: Config, q: Queue, es: seq<Event>)
    requires ValidConfig(c) && Inv(c, q)
    decreases es
  {
    es == [] || (Enabled(c, q, es[0]) && (StepKeepsInv(c, q, es[0]); Legal(c, Step(c, q, es[0]), es[1..])))
  }

  ghost function Run(c: Config, q: Queue, es: seq<Event>): Queue
    requires ValidConfig(c) && Inv(c, q) && Legal(c, q, es)
    decreases es
  {
    if es == [] then q else
    StepKeepsInv(c, q, es[0]);
    Run(c, Step(c, q, es[0]), es[1..])
  }

  lemma {:induction false} RunKeepsInv(c: Config, q: Queue, es: seq<Event>)
    requires ValidConfig(c) && Inv(c, q) && Legal(c, q, es)
    ensures Inv(c, Run(c, q, es))
    decreases es
  {
    if es != [] {
      StepKeepsInv(c, q, es[0]);
      RunKeepsInv(c, Step(c, q, es[0]), es[1..]);
    }
  }

  /** The packet passed to the output during a step, with its flow. */
  function Passed(q: Queue, q': Queue): seq<(nat, Packet)> {
    if q.sending.None? && q'.sending.Some? then [(q'.sending.value, q'.output.packet)] else []
  }

  /** Everything passed to the output along a run, in order. */
  ghost function Sends(c: Config, q: Queue, es: seq<Event>): seq<(nat, Packet)>
    requires ValidConfig(c) && Inv(c, q) && Legal(c, q, es)
    decreases es
  {
    if es == [] then [] else
    StepKeepsInv(c, q, es[0]);
    Passed(q, Step(c, q, es[0])) + Sends(c, Step(c, q, es[0]), es[1..])
  }

  lemma EmptyInv(c: Config)
    ensures Inv(c, EMPTY)
  {
  }

  /** Every state a run can reach, in terms of the assertions the handlers make. */
  lemma RunIsSafe(c: Config, es: seq<Event>)
    requires ValidConfig(c) && Legal(c, EMPTY, es)
    ensures var q := Run(c, EMPTY, es);
            && Keys(c, q)
            && (q.previous.Some? ==> Schedule in q.jobs)
            && (Schedule in q.jobs ==> q.sending.None?)
            && (q.tree != [] ==> q.sending.Some? || Schedule in q.jobs)
            && (q.sending.Some? <==> q.output.phase != Idle)
            && (forall a :: a in q.input ==> (q.input[a].phase == Busy <==> a in q.tree || q.sending == Some(a)))
    ensures var q := Run(c, EMPTY, es);
            q.jobs != [] ==>
              match q.jobs[0]
              case Operation(a) =>
                if a == c.out then q.output.phase == OperationPending
                else a in q.input && q.input[a].phase == OperationPending && q.sending != Some(a) && a !in q.tree
              case Done(a) =>
                if a == c.out then
                  && q.output.phase == DonePending && q.sending.Some? && q.previous.None?
                  && Schedule !in q.jobs && q.sending.value !in q.tree
                else a in q.input && q.input[a].phase == DonePending
              case RequestCancel(a) => a == c.out && q.output.phase == Busy && q.output.cancelRequested
              case Schedule => q.sending.None?
              case Other(_) => true
  {
    EmptyInv(c);
    RunKeepsInv(c, EMPTY, es);
    var q := Run(c, EMPTY, es);
    if q.jobs != [] {
      TopIsExpected(c, q);
    }
  }

  /** Whenever the schedule job is about to run, a flow still remembered as previous really has
      nothing more to say: no done is due to it and no packet of it is on its way. */
  lemma ScheduleSeesTheTruth(c: Config, es: seq<Event>)
    requires ValidConfig(c) && Legal(c, EMPTY, es)
    ensures var q := Run(c, EMPTY, es);
            q.jobs != [] && q.jobs[0] == Schedule && q.previous.Some? ==>
              q.previous.value in q.input && q.input[q.previous.value].phase == Idle
  {
    EmptyInv(c);
    RunKeepsInv(c, EMPTY, es);
    var q := Run(c, EMPTY, es);
    if q.jobs != [] && q.jobs[0] == Schedule && q.previous.Some? {
      PopTop(q.jobs, Schedule);
      assert q.previous.value in q.input;
    }
  }

  /** The flow that gets the output is least in (time, address) among those then queued. */
  lemma SendsLeast(c: Config, q: Queue, e: Event)
    requires ValidConfig(c) && Inv(c, q) && Enabled(c, q, e)
    requires q.sending.None? && Step(c, q, e).sending.Some?
    ensures var t := Step(c, q, e);
            Keys(c, t) && forall b :: b in t.tree ==> Before(t.time, t.sending.value, b)
  {
    StepKeepsInv(c, q, e);
    if q.jobs[0] == Schedule {
      DequeuedLeast(q.time, q.tree);
    } else {
      SendsAtOnce(c, q, q.jobs[0].i);
    }
  }

  lemma SendsAtOnce(c: Config, q: Queue, a: nat)
    requires ValidConfig(c) && Inv(c, q) && q.jobs != [] && q.jobs[0] == Operation(a) && a != c.out
    requires q.sending.None? && RunTop(c, q).sending.Some?
    ensures RunTop(c, q).sending == Some(a) && RunTop(c, q).tree == []
  {
    hide Clocks, Roles, Ports, Over, Lifo;
    EnqueueKeeps(c, q, a);
    assert Enqueue(c, Entering(q, a), a, q.input[a].packet).tree == [a];
  }

  lemma DequeuedLeast(time: map<nat, int>, tree: seq<nat>)
    requires forall b :: b in tree ==> b in time
    requires Sorted(time, tree) && tree != []
    ensures forall b :: b in tree[1..] ==> b in tree && Before(time, tree[0], b)
  {
    forall b | b in tree[1..] ensures b in tree && Before(time, tree[0], b) {
      var k :| 0 <= k < |tree[1..]| && tree[1..][k] == b;
      assert tree[k + 1] == b;
    }
  }

  // ---- A flow that answers "done" by sending again ----

  /** Flow f, whose clock is t, has packet p on its way or in the tree, its clock not raised. */
  ghost predicate Resent(q: Queue, f: nat, t: int, p: Packet) {
    && f in q.input && f in q.time && f in q.data && q.time[f] == t && Schedule in q.jobs
    && ((q.previous == Some(f) && q.input[f].phase == OperationPending && q.input[f].packet == p)
        || (f in q.tree && q.input[f].phase == Busy && q.data[f] == p))
  }

  /** Along es nobody frees f and the schedule job does not run yet. */
  ghost predicate BeforeSchedule(c: Config, q: Queue, es: seq<Event>, f: nat)
    requires ValidConfig(c) && Inv(c, q) && Legal(c, q, es)
    decreases es
  {
    es == [] ||
    (es[0] != FreeFlow(f) && !(es[0].Execute? && q.jobs[0] == Schedule) &&
     (StepKeepsInv(c, q, es[0]); BeforeSchedule(c, Step(c, q, es[0]), es[1..], f)))
  }

  lemma ResentExecute(c: Config, q: Queue, f: nat, t: int, p: Packet)
    requires ValidConfig(c) && Inv(c, q) && q.jobs != [] && q.jobs[0] != Schedule
    requires Resent(q, f, t, p)
    ensures Resent(RunTop(c, q), f, t, p)
  {
    hide Clocks, Ports, Roles;
    PopJob(c, q);
    TopIsExpected(c, q);
  }

  lemma ResentStep(c: Config, q: Queue, e: Event, f: nat, t: int, p: Packet)
    requires ValidConfig(c) && Inv(c, q) && Enabled(c, q, e) && e != FreeFlow(f)
    requires e.Execute? ==> q.jobs[0] != Schedule
    requires Resent(q, f, t, p)
    ensures Resent(Step(c, q, e), f, t, p)
  {
    match e
    case Execute => ResentExecute(c, q, f, t, p);
    case UserSend(a, p') => UserSendPorts(c, q, a, p');
    case OutputComplete => CompletePorts(c, q);
    case AskCancel(_) =>
    case NewFlow(_) =>
    case FreeFlow(a) => FreePorts(c, q, a); WithoutSorted(q.time, q.tree, a);
    case SetOther(k) => SetPushes(q.jobs, Other(k), Schedule);
    case UnsetOther(k) => UnsetKeepsOthers(q.jobs, Other(k), Schedule);
  }

  /** A flow that sends again after its done, at any time before the schedule job runs and
      whatever else happens meanwhile, is in the tree with that packet and with exactly the clock
      it was charged to when the schedule job comes to pick the next flow. */
  lemma {:induction false} ResendIsSeen(c: Config, q: Queue, f: nat, p: Packet, es: seq<Event>)
    requires ValidConfig(c) && Inv(c, q) && q.previous == Some(f)
    requires es != [] && es[0] == UserSend(f, p)
    requires Legal(c, q, es) && BeforeSchedule(c, q, es, f)
    ensures var t := Run(c, q, es);
            t.jobs != [] && t.jobs[0] == Schedule ==>
              f in t.tree && f in t.time && f in t.data && t.time[f] == q.time[f] && t.data[f] == p
  {
    StepKeepsInv(c, q, es[0]);
    UserSendPorts(c, q, f, p);
    ResentRun(c, Step(c, q, es[0]), es[1..], f, q.time[f], p);
    RunKeepsInv(c, q, es);
    var t := Run(c, q, es);
    if t.jobs != [] && t.jobs[0] == Schedule {
      PopTop(t.jobs, Schedule);
    }
  }

  lemma {:induction false} ResentRun(c: Config, q: Queue, es: seq<Event>, f: nat, t: int, p: Packet)
    requires ValidConfig(c) && Inv(c, q) && Legal(c, q, es) && BeforeSchedule(c, q, es, f)
    requires Resent(q, f, t, p)
    ensures Resent(Run(c, q, es), f, t, p)
    decreases es
  {
    if es != [] {
      StepKeepsInv(c, q, es[0]);
      ResentStep(c, q, es[0], f, t, p);
      ResentRun(c, Step(c, q, es[0]), es[1..], f, t, p);
    }
  }
}
