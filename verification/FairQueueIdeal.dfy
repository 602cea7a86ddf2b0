/** The queue with bounded, rebased clocks against the same queue with unbounded clocks that never
    rebases. */
module FairQueueIdeal {
  import opened Basics
  import opened Pending
  import opened PassInterface
  import opened FairQueue
  import opened FairQueueSafety
  import opened FairQueueRuns
  import opened FairQueueFairness

  function Ideal(c: Config): Config {
    c.(maxTime := None)
  }

  /** Same state but for the clocks. */
  ghost predicate Alike(q: Queue, i: Queue) {
    i == q.(time := i.time) && i.time.Keys == q.time.Keys
  }

  /** The operation job of the input of a flow is on top. */
  predicate Queues(c: Config, q: Queue, e: Event) {
    e.Execute? && q.jobs != [] && q.jobs[0].Operation? && q.jobs[0].i != c.out
  }

  /** get_current_time falls back to 0 in this step because nothing is queued, sending or
      remembered. */
  predicate FallsBack(c: Config, q: Queue, e: Event) {
    Queues(c, q, e) && !Occupied(q)
  }

  /** The state once the flow on top was put into the tree. */
  ghost function Queued(c: Config, q: Queue): Queue
    requires ValidConfig(c) && Inv(c, q) && Queues(c, q, Execute)
  {
    var a := q.jobs[0].i;
    EnqueueKeeps(c, q, a);
    Enqueue(c, Entering(q, a), a, q.input[a].packet)
  }

  // ---- One step on the states but for the clocks ----

  lemma DoScheduleAlike(c: Config, q: Queue, i: Queue)
    requires Keys(c, q) && Keys(Ideal(c), i) && Alike(q, i)
    requires q.sending.None? && q.previous.None? && q.tree != []
    requires q.output.phase == Idle && |q.data[q.tree[0]]| <= c.mtu
    ensures Alike(DoSchedule(c, q), DoSchedule(Ideal(c), i))
  {
    hide Send;
  }

  /** The flow is queued at the same place in both queues. */
  ghost predicate SamePlace(c: Config, q: Queue, i: Queue)
    requires ValidConfig(c) && Inv(c, q) && Inv(Ideal(c), i) && Alike(q, i) && Queues(c, q, Execute)
  {
    Queued(c, q).tree == Queued(Ideal(c), i).tree
  }

  lemma QueuedAlike(c: Config, q: Queue, i: Queue)
    requires ValidConfig(c) && Inv(c, q) && Inv(Ideal(c), i) && Alike(q, i) && Queues(c, q, Execute)
    requires SamePlace(c, q, i)
    ensures Alike(Queued(c, q), Queued(Ideal(c), i))
  {
    hide Inv, Insert, Now;
    var a := q.jobs[0].i;
    EnqueueKeeps(c, q, a);
    EnqueueKeeps(Ideal(c), i, a);
  }

  lemma OperationAlike(c: Config, q: Queue, i: Queue)
    requires ValidConfig(c) && Inv(c, q) && Inv(Ideal(c), i) && Alike(q, i) && Queues(c, q, Execute)
    requires SamePlace(c, q, i)
    ensures Alike(RunTop(c, q), RunTop(Ideal(c), i))
  {
    hide Clocks, Roles, Ports, Lifo, Over, Enqueue, Slots;
    var a := q.jobs[0].i;
    QueuedAlike(c, q, i);
    EnqueueKeeps(c, q, a);
    EnqueueKeeps(Ideal(c), i, a);
    EnqueueSlots(c, Entering(q, a), a, q.input[a].packet);
    var r := Queued(c, q);
    if r.sending.None? && Schedule !in r.jobs {
      RoleAfter(c, q, a);
      OperationReady(c, q, a);
      DoScheduleAlike(c, r, Queued(Ideal(c), i));
    }
  }

  lemma EnqueueSlots(c: Config, q: Queue, a: nat, p: Packet)
    requires Keys(c, q) && a in q.time && q.sending != Some(a) && a !in q.tree
    ensures var r := Enqueue(c, q, a, p);
            && r.sending == q.sending && r.jobs == q.jobs && r.output == q.output && r.tree != []
            && (q.previous.None? ==> r.previous.None?)
  {
    hide CurrentTime;
    assert a in Enqueue(c, q, a, p).tree;
  }

  lemma RoleAfter(c: Config, q: Queue, a: nat)
    requires ValidConfig(c) && Inv(c, q) && q.jobs != [] && q.jobs[0] == Operation(a) && a != c.out
    ensures a in q.input && a in q.time && q.sending != Some(a) && a !in q.tree
    ensures var r := Enqueue(c, Entering(q, a), a, q.input[a].packet);
            r.tree != [] && r.tree[0] in r.data && |r.data[r.tree[0]]| <= c.mtu
  {
    hide Clocks, Ports, Lifo, Over, CurrentTime, Insert;
    EnqueueKeeps(c, q, a);
    var r := Enqueue(c, Entering(q, a), a, q.input[a].packet);
    assert a in r.tree && r.tree[0] in r.tree;
    var b := r.tree[0];
    assert Role(c, r.input[b], r.data[b], b in r.tree || r.sending == Some(b));
  }

  lemma OutputDoneAlike(c: Config, q: Queue, i: Queue)
    requires ValidConfig(c) && Inv(c, q) && Inv(Ideal(c), i) && Alike(q, i) && q.jobs != [] && q.jobs[0] == Done(c.out)
    ensures Alike(RunTop(c, q), RunTop(Ideal(c), i))
  {
    hide Clocks, Roles, Ports, Lifo, Rebase, Set, Without, Wrap;
    TopIsExpected(c, q);
  }

  lemma ScheduleAlike(c: Config, q: Queue, i: Queue)
    requires ValidConfig(c) && Inv(c, q) && Inv(Ideal(c), i) && Alike(q, i) && q.jobs != [] && q.jobs[0] == Schedule
    ensures Alike(RunTop(c, q), RunTop(Ideal(c), i))
  {
    hide Clocks, Ports, Lifo, DoSchedule;
    TopIsExpected(c, q);
    if q.tree != [] {
      var b := q.tree[0];
      assert Role(c, q.input[b], q.data[b], b in q.tree || q.sending == Some(b));
      DoScheduleAlike(c, q.(jobs := q.jobs[1..], previous := None), i.(jobs := i.jobs[1..], previous := None));
    }
  }

  lemma QuietAlike(c: Config, q: Queue, i: Queue, e: Event)
    requires ValidConfig(c) && Inv(c, q) && Inv(Ideal(c), i) && Alike(q, i) && Enabled(c, q, e)
    requires e.Execute? ==> q.jobs[0] != Schedule && q.jobs[0] != Done(c.out) && !Queues(c, q, e)
    ensures Alike(Step(c, q, e), Step(Ideal(c), i, e))
  {
    hide Clocks, Roles, Ports, Lifo, InputSend, OutputDone, ScheduleHandler, Set, Without, Cancel;
    if e.Execute? { TopIsExpected(c, q); }
  }

  /** Only the place in the tree depends on the clocks. */
  lemma StepAlike(c: Config, q: Queue, i: Queue, e: Event)
    requires ValidConfig(c) && Inv(c, q) && Inv(Ideal(c), i) && Alike(q, i) && Enabled(c, q, e)
    requires Queues(c, q, e) ==> SamePlace(c, q, i)
    ensures Enabled(Ideal(c), i, e) && Inv(c, Step(c, q, e)) && Inv(Ideal(c), Step(Ideal(c), i, e))
    ensures Alike(Step(c, q, e), Step(Ideal(c), i, e))
    ensures Passed(q, Step(c, q, e)) == Passed(i, Step(Ideal(c), i, e))
  {
    hide Inv, RunTop, SamePlace;
    StepKeepsInv(c, q, e);
    StepKeepsInv(Ideal(c), i, e);
    if Queues(c, q, e) {
      OperationAlike(c, q, i);
    } else if e.Execute? && q.jobs[0] == Done(c.out) {
      OutputDoneAlike(c, q, i);
    } else if e.Execute? && q.jobs[0] == Schedule {
      ScheduleAlike(c, q, i);
    } else {
      QuietAlike(c, q, i, e);
    }
  }

  // ---- One step on the clocks ----

  /** One clock: base is everything subtracted so far. A clock that was clamped to zero while its flow
      was idle may have lost track, but then both are at or below low, which the current time is not;
      so they agree once raised. */
  ghost predicate ClockMatches(clock: int, ideal: int, base: int, low: int, active: bool) {
    ideal == clock + base || (!active && clock <= low && ideal <= low + base)
  }

  ghost predicate Coupled(c: Config, q: Queue, i: Queue, base: int, low: int)
    requires Keys(c, q)
  {
    && Alike(q, i) && 0 <= low && 0 <= low + base && (Occupied(q) ==> low <= Now(c, q))
    && forall a :: a in q.time ==> ClockMatches(q.time[a], i.time[a], base, low, Active(q, a))
  }

  lemma {:induction false} SameInsert(t: map<nat, int>, u: map<nat, int>, tree: seq<nat>, a: nat, base: int)
    requires a in t && a in u && forall b :: b in tree ==> b in t && b in u
    requires u[a] == t[a] + base && forall b :: b in tree ==> u[b] == t[b] + base
    ensures Insert(t, tree, a) == Insert(u, tree, a)
  {
    if tree != [] {
      assert tree == [tree[0]] + tree[1..];
      SameInsert(t, u, tree[1..], a, base);
    }
  }

  lemma SameNow(c: Config, q: Queue, i: Queue, base: int, low: int)
    requires Keys(c, q) && Keys(Ideal(c), i) && Coupled(c, q, i, base, low)
    ensures Occupied(q) ==> Now(Ideal(c), i) == Now(c, q) + base
    ensures !Occupied(q) ==> Now(Ideal(c), i) == Now(c, q) == 0
  {
    if q.tree != [] { assert Active(q, q.tree[0]); }
    if q.previous.Some? { assert Active(q, q.previous.value); }
    if q.sending.Some? { assert Active(q, q.sending.value); }
  }

  /** Coupled flows are queued at the same place: what lost track is raised to the current time. */
  lemma CoupledPlace(c: Config, q: Queue, i: Queue, base: int, low: int)
    requires ValidConfig(c) && Inv(c, q) && Inv(Ideal(c), i) && Keys(c, q) && Coupled(c, q, i, base, low)
    requires Queues(c, q, Execute) && q.jobs[0].i in q.time
    requires !Occupied(q) ==> i.time[q.jobs[0].i] == q.time[q.jobs[0].i] + base
    ensures SamePlace(c, q, i)
    ensures Queued(Ideal(c), i).time[q.jobs[0].i] == Queued(c, q).time[q.jobs[0].i] + base
  {
    hide Clocks, Roles, Ports, Lifo, Slots, Duty, Over, Insert, CurrentTime;
    var a := q.jobs[0].i;
    EnqueueKeeps(c, q, a);
    EnqueueKeeps(Ideal(c), i, a);
    SameRaised(c, q, i, base, low, a);
    var r, s := Queued(c, q), Queued(Ideal(c), i);
    forall b | b in q.tree ensures i.time[b] == q.time[b] + base {
      assert Active(q, b);
    }
    SameInsert(r.time, s.time, q.tree, a, base);
  }

  lemma SameRaised(c: Config, q: Queue, i: Queue, base: int, low: int, a: nat)
    requires ValidConfig(c) && Inv(c, q) && Inv(Ideal(c), i) && Keys(c, q) && Coupled(c, q, i, base, low)
    requires a in q.time && a in i.time
    requires !Occupied(q) ==> i.time[a] == q.time[a] + base
    ensures q.previous == Some(a) ==> i.time[a] == q.time[a] + base
    ensures Keys(Ideal(c), i) && Max(i.time[a], Now(Ideal(c), i)) == Max(q.time[a], Now(c, q)) + base
  {
    hide Roles, Ports, Lifo, Slots, Duty, CurrentTime;
    assert ClockMatches(q.time[a], i.time[a], base, low, Active(q, a));
    SameNow(c, q, i, base, low);
  }

  /** What the other flow was ahead by stays visible; what it was behind by does not. */
  lemma ClockStaysMatched(clock: int, ideal: int, base: int, low: int, active: bool, s: int, active': bool)
    requires ClockMatches(clock, ideal, base, low, active) && 0 <= clock && 0 <= low && 0 <= s
    requires active' ==> active
    requires active ==> s <= clock
    ensures ClockMatches(Max(0, clock - s), ideal, base + s, Max(0, low - s), active')
  {
  }

  /** The fall back of the current time does no harm to flow a. */
  ghost predicate Harmless(q: Queue, i: Queue, a: nat, base: int, low: int) {
    a in q.time && a in i.time && low <= q.time[a] && i.time[a] == q.time[a] + base
  }

  lemma ClocksStayMatched(c: Config, q: Queue, i: Queue, base: int, low: int, e: Event, b: nat)
    requires ValidConfig(c) && Inv(c, q) && Inv(Ideal(c), i) && Keys(c, q) && Coupled(c, q, i, base, low)
    requires Enabled(c, q, e) && Enabled(Ideal(c), i, e)
    requires FallsBack(c, q, e) ==> Harmless(q, i, q.jobs[0].i, base, low)
    requires b in Step(c, q, e).time && b in Step(Ideal(c), i, e).time
    ensures ClockMatches(Step(c, q, e).time[b], Step(Ideal(c), i, e).time[b], base + Subtracted(c, q, e),
                         Max(0, low - Subtracted(c, q, e)), Active(Step(c, q, e), b))
  {
    hide Inv, Step, Subtracted, Occupied, Active, Enabled, ClockMatches;
    CoupledAlike(c, q, i, base, low);
    if b !in q.time {
      FreshClock(c, q, e, b);
      FreshClock(Ideal(c), i, e, b);
      FreshMatches(base, Max(0, low - Subtracted(c, q, e)));
    } else if Raised(c, q, e, b) {
      RaisedMatches(c, q, i, base, low, e, b);
    } else {
      OtherMatches(c, q, i, base, low, e, b);
    }
  }

  lemma FreshMatches(base: int, low: int)
    requires 0 <= low && 0 <= low + base
    ensures ClockMatches(0, 0, base, low, false)
  {
  }

  lemma RaisedMatches(c: Config, q: Queue, i: Queue, base: int, low: int, e: Event, b: nat)
    requires ValidConfig(c) && Inv(c, q) && Inv(Ideal(c), i) && Keys(c, q) && Coupled(c, q, i, base, low)
    requires Enabled(c, q, e) && Enabled(Ideal(c), i, e) && Raised(c, q, e, b) && b in q.time
    requires FallsBack(c, q, e) ==> Harmless(q, i, b, base, low)
    requires b in Step(c, q, e).time && b in Step(Ideal(c), i, e).time
    ensures ClockMatches(Step(c, q, e).time[b], Step(Ideal(c), i, e).time[b], base + Subtracted(c, q, e),
                         Max(0, low - Subtracted(c, q, e)), Active(Step(c, q, e), b))
  {
    hide Inv, Step;
    ClockStep(c, q, e, b);
    ClockStep(Ideal(c), i, e, b);
    SameRaised(c, q, i, base, low, b);
  }

  lemma OtherMatches(c: Config, q: Queue, i: Queue, base: int, low: int, e: Event, b: nat)
    requires ValidConfig(c) && Inv(c, q) && Inv(Ideal(c), i) && Keys(c, q) && Coupled(c, q, i, base, low)
    requires Enabled(c, q, e) && Enabled(Ideal(c), i, e) && !Raised(c, q, e, b) && b in q.time
    requires b in Step(c, q, e).time && b in Step(Ideal(c), i, e).time
    ensures ClockMatches(Step(c, q, e).time[b], Step(Ideal(c), i, e).time[b], base + Subtracted(c, q, e),
                         Max(0, low - Subtracted(c, q, e)), Active(Step(c, q, e), b))
  {
    hide Inv, Step, Occupied, Active, Subtracted, Keys;
    assert ClockMatches(q.time[b], i.time[b], base, low, Active(q, b));
    ClockStep(c, q, e, b);
    IdealClockStep(c, i, e, b);
    NotNegative(c, q, b);
    if Active(q, b) { NotAhead(c, q, e, b); }
    if Charged(c, q, e, b) {
      SenderActive(c, q, e, b);
    } else {
      ClockStaysMatched(q.time[b], i.time[b], base, low, Active(q, b), Subtracted(c, q, e), Active(Step(c, q, e), b));
    }
  }

  lemma SenderActive(c: Config, q: Queue, e: Event, b: nat)
    requires Charged(c, q, e, b)
    ensures Active(q, b)
  {
  }

  /** The ideal queue only ever adds what it charges. */
  lemma IdealClockStep(c: Config, i: Queue, e: Event, b: nat)
    requires ValidConfig(c) && Inv(Ideal(c), i) && Enabled(Ideal(c), i, e) && !Raised(c, i, e, b)
    requires b in i.time && b in Step(Ideal(c), i, e).time
    ensures Step(Ideal(c), i, e).time[b] == i.time[b] + if Charged(c, i, e, b) then c.weight + i.sendingLen else 0
  {
    hide Inv, Step;
    KeysOf(Ideal(c), i);
    ClockStep(Ideal(c), i, e, b);
    NotNegative(Ideal(c), i, b);
  }

  /** A flow that was not there before starts at zero and takes no part. */
  lemma FreshClock(c: Config, q: Queue, e: Event, b: nat)
    requires ValidConfig(c) && Inv(c, q) && Enabled(c, q, e) && b !in q.time && b in Step(c, q, e).time
    ensures Step(c, q, e).time[b] == 0 && !Active(Step(c, q, e), b) && Keys(c, q) && Subtracted(c, q, e) == 0
  {
    hide Clocks, Roles, Ports, Lifo, RunTop;
    KeysStep(c, q, e, b);
  }

  lemma FloorHolds(c: Config, q: Queue, e: Event, low: int)
    requires ValidConfig(c) && Inv(c, q) && Enabled(c, q, e) && Keys(c, q) && 0 <= low
    requires Occupied(q) ==> low <= Now(c, q)
    requires FallsBack(c, q, e) ==> q.jobs[0].i in q.time && low <= q.time[q.jobs[0].i]
    ensures var q' := Step(c, q, e);
            Keys(c, q') && (Occupied(q') ==> Max(0, low - Subtracted(c, q, e)) <= Now(c, q'))
  {
    hide Inv, Step, Subtracted;
    StepKeepsInv(c, q, e);
    var q' := Step(c, q, e);
    KeysOf(c, q');
    if Occupied(q') {
      NowFloor(c, q');
      if Occupied(q) {
        VirtualTimeMonotone(c, q, e);
      } else {
        FallBackTime(c, q, e);
      }
    }
  }

  lemma NowFloor(c: Config, q: Queue)
    requires ValidConfig(c) && Inv(c, q)
    ensures Keys(c, q) && 0 <= Now(c, q)
  {
  }

  /** A queue that was not occupied becomes so only by a fall back, and then the clock of the one
      flow that takes part is the current time. */
  lemma FallBackTime(c: Config, q: Queue, e: Event)
    requires ValidConfig(c) && Inv(c, q) && Enabled(c, q, e) && !Occupied(q) && Occupied(Step(c, q, e))
    ensures FallsBack(c, q, e) && q.jobs[0].i in q.time
    ensures var q' := Step(c, q, e);
            Keys(c, q') && Now(c, q') == q.time[q.jobs[0].i] && Subtracted(c, q, e) == 0
  {
    hide Clocks, Roles, Ports, Lifo, Over, Set;
    if e.Execute? { TopIsExpected(c, q); }
    if Queues(c, q, e) {
      var a := q.jobs[0].i;
      EnqueueKeeps(c, q, a);
      NotNegative(c, q, a);
      StepKeepsInv(c, q, e);
      assert Queued(c, q).tree == [a];
    }
  }

  lemma Unoccupied(c: Config, q: Queue, e: Event)
    requires ValidConfig(c) && Inv(c, q) && Enabled(c, q, e)
    ensures Keys(c, q) && 0 <= Subtracted(c, q, e)
  {
    hide Clocks, Roles, Ports, Lifo, Rebase;
    if Charges(c, q, e) {
      ChargeEffect(c, q);
    }
  }

  /** One step of both queues keeps them coupled, a fall back included if it does no harm. */
  lemma StepStaysCoupled(c: Config, q: Queue, i: Queue, base: int, low: int, e: Event)
    requires ValidConfig(c) && Inv(c, q) && Inv(Ideal(c), i) && Keys(c, q) && Coupled(c, q, i, base, low)
    requires Enabled(c, q, e) && (FallsBack(c, q, e) ==> Harmless(q, i, q.jobs[0].i, base, low))
    ensures var q', i', s := Step(c, q, e), Step(Ideal(c), i, e), Subtracted(c, q, e);
            && Enabled(Ideal(c), i, e) && Inv(c, q') && Inv(Ideal(c), i') && Keys(c, q')
            && Coupled(c, q', i', base + s, Max(0, low - s))
            && Passed(q, q') == Passed(i, i')
  {
    hide Inv, Step, Enabled, Subtracted, Passed, SamePlace, ClockMatches;
    if Queues(c, q, e) {
      FlowOnTop(c, q);
      CoupledPlace(c, q, i, base, low);
    }
    StepAlike(c, q, i, e);
    Unoccupied(c, q, e);
    FloorHolds(c, q, e, low);
    var q', i' := Step(c, q, e), Step(Ideal(c), i, e);
    forall b | b in q'.time
      ensures ClockMatches(q'.time[b], i'.time[b], base + Subtracted(c, q, e), Max(0, low - Subtracted(c, q, e)),
                           Active(q', b))
    {
      ClocksStayMatched(c, q, i, base, low, e, b);
    }
  }

  lemma FlowOnTop(c: Config, q: Queue)
    requires ValidConfig(c) && Inv(c, q) && Queues(c, q, Execute)
    ensures q.jobs[0].i in q.time
  {
    hide Clocks, Roles, Lifo, Over;
    TopIsExpected(c, q);
  }

  // ---- Runs ----

  /** How far flow b is ahead of flow a; a flow that is behind counts as level, since it is raised
      when it is queued. */
  function Lead(q: Queue, a: nat, b: nat): int
    requires a in q.time && b in q.time
  {
    Max(0, q.time[b] - q.time[a])
  }

  /** The two queues agree on how far every flow is ahead of flow a. */
  ghost predicate Aligned(q: Queue, i: Queue, a: nat) {
    && a in q.time && a in i.time
    && forall b :: b in q.time ==> b in i.time && Lead(q, a, b) == Lead(i, a, b)
  }

  /** Flow a, alone in its queue, sees only the leads; so two queues with the same leads are coupled
      whatever happened before. */
  lemma AlignedCouples(c: Config, q: Queue, i: Queue, a: nat)
    requires ValidConfig(c) && Inv(c, q) && Inv(Ideal(c), i) && Alike(q, i) && !Occupied(q) && Aligned(q, i, a)
    ensures Keys(c, q) && Coupled(c, q, i, i.time[a] - q.time[a], q.time[a])
  {
    hide Roles, Ports, Lifo, Duty;
    forall b | b in q.time
      ensures ClockMatches(q.time[b], i.time[b], i.time[a] - q.time[a], q.time[a], Active(q, b))
    {
      assert Lead(q, a, b) == Lead(i, a, b);
    }
  }

  /** Whenever the current time falls back along es, the two queues agree on the leads over the
      flow that enters. */
  ghost predicate AlignedAlong(c: Config, q: Queue, i: Queue, es: seq<Event>)
    requires ValidConfig(c) && Inv(c, q) && Inv(Ideal(c), i) && Legal(c, q, es)
    decreases es
  {
    es == [] ||
    (Enabled(Ideal(c), i, es[0]) && (FallsBack(c, q, es[0]) ==> Aligned(q, i, q.jobs[0].i)) &&
     (StepKeepsInv(c, q, es[0]);
      StepKeepsInv(Ideal(c), i, es[0]);
      AlignedAlong(c, Step(c, q, es[0]), Step(Ideal(c), i, es[0]), es[1..])))
  }

  lemma {:induction false} RunStaysCoupled(c: Config, q: Queue, i: Queue, base: int, low: int, es: seq<Event>)
    requires ValidConfig(c) && Inv(c, q) && Inv(Ideal(c), i) && Keys(c, q) && Coupled(c, q, i, base, low)
    requires Legal(c, q, es) && AlignedAlong(c, q, i, es)
    ensures Legal(Ideal(c), i, es) && Sends(Ideal(c), i, es) == Sends(c, q, es)
    ensures Alike(Run(c, q, es), Run(Ideal(c), i, es))
    decreases es
  {
    hide Inv, Step, Enabled, Subtracted, Passed, Aligned, Coupled;
    CoupledAlike(c, q, i, base, low);
    if es != [] {
      var a := if FallsBack(c, q, es[0]) then q.jobs[0].i else 0;
      var base', low' := base, low;
      if FallsBack(c, q, es[0]) {
        AlignedHas(q, i, a);
        AlignedCouples(c, q, i, a);
        base', low' := i.time[a] - q.time[a], q.time[a];
      }
      StepStaysCoupled(c, q, i, base', low', es[0]);
      var s := Subtracted(c, q, es[0]);
      RunStaysCoupled(c, Step(c, q, es[0]), Step(Ideal(c), i, es[0]), base' + s, Max(0, low' - s), es[1..]);
    }
  }

  lemma CoupledAlike(c: Config, q: Queue, i: Queue, base: int, low: int)
    requires Keys(c, q) && Coupled(c, q, i, base, low)
    ensures Alike(q, i)
  {
  }

  lemma AlignedHas(q: Queue, i: Queue, a: nat)
    requires Aligned(q, i, a)
    ensures a in q.time && a in i.time
  {
  }

  lemma StartCoupled(c: Config, q: Queue)
    requires ValidConfig(c) && Inv(c, q)
    ensures Inv(Ideal(c), q) && Keys(c, q) && Coupled(c, q, q, 0, 0)
  {
    hide Inv;
    SameInvariant(c, q);
    KeysOf(c, q);
    NowFloor(c, q);
  }

  lemma SameInvariant(c: Config, q: Queue)
    requires Inv(c, q)
    ensures Inv(Ideal(c), q)
  {
  }

  /** From any state, the two queues send the same packets of the same flows in the same order on
      every run along which they agree on the leads at each fall back, and they differ in nothing but
      their clocks at the end of it. */
  lemma SameOrderWhenAligned(c: Config, q: Queue, es: seq<Event>)
    requires ValidConfig(c) && Inv(c, q) && Inv(Ideal(c), q)
    requires Legal(c, q, es) && AlignedAlong(c, q, q, es)
    ensures Legal(Ideal(c), q, es) && Sends(Ideal(c), q, es) == Sends(c, q, es)
    ensures Alike(Run(c, q, es), Run(Ideal(c), q, es))
  {
    hide Inv, Legal, Sends, AlignedAlong;
    StartCoupled(c, q);
    RunStaysCoupled(c, q, q, 0, 0, es);
  }

  /** Something the queue with bounded clocks can tell by itself: along es the current time does not
      fall back, after clocks have been rebased, for a flow whose clock is zero. base is what has
      been subtracted before. */
  ghost predicate Steady(c: Config, q: Queue, es: seq<Event>, base: int)
    requires ValidConfig(c) && Inv(c, q) && Legal(c, q, es)
    decreases es
  {
    es == [] ||
    ((FallsBack(c, q, es[0]) ==> base == 0 || (q.jobs[0].i in q.time && q.time[q.jobs[0].i] > 0)) &&
     (StepKeepsInv(c, q, es[0]);
      Steady(c, Step(c, q, es[0]), es[1..], base + Subtracted(c, q, es[0]))))
  }

  /** With nothing below low but clamped clocks, a clock above zero, or nothing subtracted yet, means
      that the flow did not lose track. */
  lemma UnclampedAligns(c: Config, q: Queue, i: Queue, base: int, a: nat)
    requires ValidConfig(c) && Inv(c, q) && Inv(Ideal(c), i) && Keys(c, q) && Coupled(c, q, i, base, 0)
    requires a in q.time && (base == 0 || q.time[a] > 0)
    ensures Harmless(q, i, a, base, 0) && Aligned(q, i, a)
  {
    hide Roles, Ports, Slots, Duty, Lifo;
    assert ClockMatches(q.time[a], i.time[a], base, 0, Active(q, a));
    forall b | b in q.time ensures b in i.time && Lead(q, a, b) == Lead(i, a, b) {
      assert ClockMatches(q.time[b], i.time[b], base, 0, Active(q, b));
    }
  }

  lemma {:induction false} SteadyIsAligned(c: Config, q: Queue, i: Queue, base: int, es: seq<Event>)
    requires ValidConfig(c) && Inv(c, q) && Inv(Ideal(c), i) && Keys(c, q) && Coupled(c, q, i, base, 0)
    requires Legal(c, q, es) && Steady(c, q, es, base)
    ensures AlignedAlong(c, q, i, es)
    decreases es
  {
    hide Inv, Step, Enabled, Subtracted, Passed, Aligned, Coupled, Harmless;
    if es != [] {
      if FallsBack(c, q, es[0]) {
        FlowOnTop(c, q);
        UnclampedAligns(c, q, i, base, q.jobs[0].i);
      }
      StepStaysCoupled(c, q, i, base, 0, es[0]);
      Unoccupied(c, q, es[0]);
      var s := Subtracted(c, q, es[0]);
      SteadyIsAligned(c, Step(c, q, es[0]), Step(Ideal(c), i, es[0]), base + s, es[1..]);
    }
  }

  /** So the order is that of the ideal queue, whatever the bound, on every run from any state in
      which no flow with clock zero meets a fall back after a rebase. */
  lemma SameOrderAsIdeal(c: Config, q: Queue, es: seq<Event>)
    requires ValidConfig(c) && Inv(c, q)
    requires Legal(c, q, es) && Steady(c, q, es, 0)
    ensures Inv(Ideal(c), q) && Legal(Ideal(c), q, es) && Sends(Ideal(c), q, es) == Sends(c, q, es)
  {
    hide Inv, Legal, Sends, AlignedAlong, Steady;
    StartCoupled(c, q);
    SteadyIsAligned(c, q, q, 0, es);
    RunStaysCoupled(c, q, q, 0, 0, es);
  }

  /** Something is queued, sending or remembered in every state from which es takes a step. */
  ghost predicate BusyPeriod(c: Config, q: Queue, es: seq<Event>)
    requires ValidConfig(c) && Inv(c, q) && Legal(c, q, es)
    decreases es
  {
    es == [] ||
    (Occupied(q) && (StepKeepsInv(c, q, es[0]); BusyPeriod(c, Step(c, q, es[0]), es[1..])))
  }

  lemma {:induction false} BusyIsAligned(c: Config, q: Queue, i: Queue, base: int, low: int, es: seq<Event>)
    requires ValidConfig(c) && Inv(c, q) && Inv(Ideal(c), i) && Keys(c, q) && Coupled(c, q, i, base, low)
    requires Legal(c, q, es) && BusyPeriod(c, q, es)
    ensures AlignedAlong(c, q, i, es)
    decreases es
  {
    hide Inv, Step, Enabled, Subtracted, Passed, Aligned, Coupled;
    if es != [] {
      StepStaysCoupled(c, q, i, base, low, es[0]);
      var s := Subtracted(c, q, es[0]);
      BusyIsAligned(c, Step(c, q, es[0]), Step(Ideal(c), i, es[0]), base + s, Max(0, low - s), es[1..]);
    }
  }

  /** In particular the two queues agree within any busy period. */
  lemma SameOrderInBusyPeriod(c: Config, q: Queue, es: seq<Event>)
    requires ValidConfig(c) && Inv(c, q) && Legal(c, q, es) && BusyPeriod(c, q, es)
    ensures Inv(Ideal(c), q) && Legal(Ideal(c), q, es) && Sends(Ideal(c), q, es) == Sends(c, q, es)
  {
    hide Inv, Legal, Sends, AlignedAlong, BusyPeriod;
    StartCoupled(c, q);
    BusyIsAligned(c, q, q, 0, 0, es);
    RunStaysCoupled(c, q, q, 0, 0, es);
  }
}
