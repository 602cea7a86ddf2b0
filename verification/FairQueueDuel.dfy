/** Two flows alone in the queue, each sending again whenever it may: they can bring to light any
    difference between the clocks of the bounded queue and of the ideal one. */
module FairQueueDuel {
  import opened Basics
  import opened Pending
  import opened PassInterface
  import opened FairQueue
  import opened FairQueueSafety
  import opened FairQueueRuns
  import opened FairQueueFairness
  import opened FairQueueIdeal

  // ---- Runs on which the two queues send differently ----

  /** Both queues can make the run es and what they send differs; busy asks that the bounded queue is
      never idle meanwhile. */
  ghost predicate Differs(c: Config, q: Queue, i: Queue, es: seq<Event>, busy: bool)
    requires ValidConfig(c) && Inv(c, q) && Inv(Ideal(c), i)
  {
    && Legal(c, q, es) && Legal(Ideal(c), i, es) && (busy ==> BusyPeriod(c, q, es))
    && Sends(c, q, es) != Sends(Ideal(c), i, es)
  }

  ghost predicate Splits(c: Config, q: Queue, i: Queue, busy: bool)
    requires ValidConfig(c) && Inv(c, q) && Inv(Ideal(c), i)
  {
    exists es :: Differs(c, q, i, es, busy)
  }

  lemma RunOfOne(c: Config, q: Queue, e: Event)
    requires ValidConfig(c) && Inv(c, q) && Enabled(c, q, e) && Inv(c, Step(c, q, e))
    ensures Legal(c, q, [e]) && Sends(c, q, [e]) == Passed(q, Step(c, q, e))
    ensures Occupied(q) ==> BusyPeriod(c, q, [e])
  {
    hide Inv, Step, Enabled, Passed;
    assert [e][1..] == [];
  }

  lemma RunOfMore(c: Config, q: Queue, e: Event, es: seq<Event>)
    requires ValidConfig(c) && Inv(c, q) && Enabled(c, q, e) && Inv(c, Step(c, q, e)) && Legal(c, Step(c, q, e), es)
    ensures Legal(c, q, [e] + es) && Sends(c, q, [e] + es) == Passed(q, Step(c, q, e)) + Sends(c, Step(c, q, e), es)
    ensures Occupied(q) && BusyPeriod(c, Step(c, q, e), es) ==> BusyPeriod(c, q, [e] + es)
  {
    hide Inv, Step, Enabled, Passed;
    assert ([e] + es)[1..] == es;
  }

  lemma SamePrefix<T>(p: seq<T>, s: seq<T>, t: seq<T>)
    requires s != t
    ensures p + s != p + t
  {
    assert (p + s)[|p|..] == s && (p + t)[|p|..] == t;
  }

  lemma SplitsNow(c: Config, q: Queue, i: Queue, e: Event, busy: bool)
    requires ValidConfig(c) && Inv(c, q) && Inv(Ideal(c), i) && (busy ==> Occupied(q))
    requires Enabled(c, q, e) && Enabled(Ideal(c), i, e)
    requires Passed(q, Step(c, q, e)) != Passed(i, Step(Ideal(c), i, e))
    ensures Splits(c, q, i, busy)
  {
    hide Inv, Step, Enabled, Passed, Legal, Sends, BusyPeriod;
    StepKeepsInv(c, q, e);
    StepKeepsInv(Ideal(c), i, e);
    RunOfOne(c, q, e);
    RunOfOne(Ideal(c), i, e);
    assert Differs(c, q, i, [e], busy);
  }

  lemma SplitsBack(c: Config, q: Queue, i: Queue, e: Event, busy: bool)
    requires ValidConfig(c) && Inv(c, q) && Inv(Ideal(c), i) && (busy ==> Occupied(q))
    requires Enabled(c, q, e) && Enabled(Ideal(c), i, e)
    requires Inv(c, Step(c, q, e)) && Inv(Ideal(c), Step(Ideal(c), i, e))
    requires Splits(c, Step(c, q, e), Step(Ideal(c), i, e), busy)
    ensures Splits(c, q, i, busy)
  {
    hide Inv, Step, Enabled, Passed, Legal, Sends, BusyPeriod;
    if Passed(q, Step(c, q, e)) != Passed(i, Step(Ideal(c), i, e)) {
      SplitsNow(c, q, i, e, busy);
    } else {
      var es :| Differs(c, Step(c, q, e), Step(Ideal(c), i, e), es, busy);
      RunOfMore(c, q, e, es);
      RunOfMore(Ideal(c), i, e, es);
      SamePrefix(Passed(q, Step(c, q, e)), Sends(c, Step(c, q, e), es), Sends(Ideal(c), Step(Ideal(c), i, e), es));
      assert Differs(c, q, i, [e] + es, busy);
    }
  }

  // ---- One step of both queues ----

  ghost predicate Twins(c: Config, q: Queue, i: Queue) {
    ValidConfig(c) && Inv(c, q) && Inv(Ideal(c), i) && Alike(q, i)
  }

  lemma Both(c: Config, q: Queue, i: Queue, e: Event, busy: bool) returns (q': Queue, i': Queue)
    requires Twins(c, q, i) && Enabled(c, q, e) && (busy ==> Occupied(q))
    requires Queues(c, q, e) ==> SamePlace(c, q, i)
    ensures Enabled(Ideal(c), i, e) && q' == Step(c, q, e) && i' == Step(Ideal(c), i, e)
    ensures Twins(c, q', i') && (Splits(c, q', i', busy) ==> Splits(c, q, i, busy))
  {
    hide Inv, Step, Enabled, Passed, SamePlace, Splits;
    StepAlike(c, q, i, e);
    q', i' := Step(c, q, e), Step(Ideal(c), i, e);
    if Splits(c, q', i', busy) {
      SplitsBack(c, q, i, e, busy);
    }
  }

  // ---- What the events do to a queue with two flows ----

  lemma Completes(c: Config, q: Queue)
    requires ValidConfig(c) && Inv(c, q) && q.output.phase == Busy && q.jobs == []
    ensures Step(c, q, OutputComplete) == q.(output := q.output.(phase := DonePending), jobs := [Done(c.out)])
  {
    hide Inv;
  }

  lemma DoneAboveSchedule(f: nat)
    ensures Set([], Schedule) == [Schedule]
    ensures Without([Schedule], RequestCancel(f)) == [Schedule] && Set([Schedule], Done(f)) == [Done(f), Schedule]
  {
  }

  lemma OutputDoneTop(c: Config, q: Queue)
    requires ValidConfig(c) && Inv(c, q) && q.jobs == [Done(c.out)]
    ensures q.sending.Some? && q.sending.value in q.input
    ensures var f := q.sending.value;
            Step(c, q, Execute) == q.(sending := None, previous := Some(f), output := q.output.(phase := Idle),
              time := Step(c, q, Execute).time, input := q.input[f := q.input[f].(phase := DonePending)],
              jobs := [Done(f), Schedule])
  {
    hide Clocks, Roles, Ports, Lifo, Charge, Set, Without;
    TopIsExpected(c, q);
    assert q.jobs[1..] == [];
    DoneAboveSchedule(q.sending.value);
  }

  lemma FlowDoneTop(c: Config, q: Queue, f: nat)
    requires ValidConfig(c) && Inv(c, q) && q.jobs != [] && q.jobs[0] == Done(f) && f != c.out
    ensures f in q.input
    ensures Step(c, q, Execute) == q.(input := q.input[f := q.input[f].(phase := Idle)], jobs := q.jobs[1..])
  {
    TopIsExpected(c, q);
  }

  lemma UserSends(c: Config, q: Queue, f: nat, p: Packet)
    requires ValidConfig(c) && Inv(c, q) && Enabled(c, q, UserSend(f, p))
    ensures Operation(f) !in q.jobs
    ensures Step(c, q, UserSend(f, p)) ==
            q.(input := q.input[f := Iface(OperationPending, false, p)], jobs := [Operation(f)] + q.jobs)
  {
    assert Linked(q.input[f], f, q.jobs);
    WithoutAbsent(q.jobs, Operation(f));
  }

  lemma OutputOperationTop(c: Config, q: Queue)
    requires ValidConfig(c) && Inv(c, q) && q.jobs != [] && q.jobs[0] == Operation(c.out)
    ensures Step(c, q, Execute) == q.(output := q.output.(phase := Busy), jobs := q.jobs[1..])
  {
    hide Inv;
  }

  /** A flow queued while somebody else sends or will be scheduled. */
  lemma QueueTop(c: Config, q: Queue, f: nat)
    requires ValidConfig(c) && Inv(c, q) && q.jobs != [] && q.jobs[0] == Operation(f) && f != c.out
    requires q.sending.Some? || Schedule in q.jobs[1..]
    ensures Queues(c, q, Execute) && Step(c, q, Execute) == Queued(c, q)
  {
    hide Clocks, Roles, Ports, Lifo, Over, Insert;
    EnqueueKeeps(c, q, f);
  }

  lemma ScheduleTop(c: Config, q: Queue)
    requires ValidConfig(c) && Inv(c, q) && q.jobs != [] && q.jobs[0] == Schedule && q.tree != []
    ensures q.tree[0] in q.data
    ensures var f := q.tree[0];
            Step(c, q, Execute) == q.(previous := None, sending := Some(f), sendingLen := |q.data[f]|,
              tree := q.tree[1..], output := Iface(OperationPending, false, q.data[f]),
              jobs := [Operation(c.out)] + q.jobs[1..])
  {
    hide Clocks, Roles, Lifo, Over;
    TopIsExpected(c, q);
    IdleOutput(c, q);
    WithoutAbsent(q.jobs[1..], Operation(c.out));
  }

  lemma IdleOutput(c: Config, q: Queue)
    requires ValidConfig(c) && Inv(c, q) && q.sending.None?
    ensures q.output.phase == Idle
    ensures Operation(c.out) !in q.jobs && Done(c.out) !in q.jobs && RequestCancel(c.out) !in q.jobs
  {
    hide Clocks, Roles, Lifo;
  }

  // ---- A round: the flow that was sent sends again and one of the two is picked ----

  /** The flow f that is being sent is done, charged, and idle again before the schedule job runs. */
  lemma Serve(c: Config, q: Queue, i: Queue, f: nat, o: nat, busy: bool) returns (q': Queue, i': Queue)
    requires Twins(c, q, i) && q.sending == Some(f) && q.tree == [o] && q.output.phase == Busy && q.jobs == []
    ensures f in q.time && o in q.time && f in q.data
    ensures Twins(c, q', i') && (Splits(c, q', i', busy) ==> Splits(c, q, i, busy))
    ensures q'.sending.None? && q'.tree == [o] && q'.previous == Some(f) && q'.jobs == [Schedule]
    ensures f in q'.input && q'.input[f].phase == Idle && q'.data == q.data && o in q'.time && f in q'.time
    ensures q'.time[f] - q'.time[o] == q.time[f] - q.time[o] + c.weight + |q.data[f]|
    ensures i'.time[f] - i'.time[o] == i.time[f] - i.time[o] + c.weight + |q.data[f]|
  {
    hide Inv, Step, Enabled, Splits;
    Serving(c, q, f, o);
    Serving(Ideal(c), i, f, o);
    var q1, i1 := Both(c, q, i, OutputComplete, busy);
    Completes(c, q);
    Completes(Ideal(c), i);
    CanExecute(c, q1);
    var q2, i2 := Both(c, q1, i1, Execute, busy);
    OutputDoneTop(c, q1);
    ChargedGap(c, q1, f, o);
    ChargedGap(Ideal(c), i1, f, o);
    CanExecute(c, q2);
    q', i' := Both(c, q2, i2, Execute, busy);
    FlowDoneTop(c, q2, f);
    FlowDoneTop(Ideal(c), i2, f);
  }

  lemma CanExecute(c: Config, q: Queue)
    requires q.jobs != []
    ensures Enabled(c, q, Execute)
  {
  }

  lemma Serving(c: Config, q: Queue, f: nat, o: nat)
    requires ValidConfig(c) && Inv(c, q) && q.sending == Some(f) && q.tree == [o]
    ensures f in q.time && o in q.time && f in q.data && f in q.input && o in q.data && f != c.out && f != o
    ensures q.sendingLen == |q.data[f]| && q.previous.None?
    ensures q.output.phase == Busy ==> Enabled(c, q, OutputComplete)
  {
    hide Clocks, Roles, Ports, Lifo;
    assert o in q.tree;
  }

  lemma ChargedGap(c: Config, q: Queue, f: nat, o: nat)
    requires ValidConfig(c) && Inv(c, q) && q.sending == Some(f) && q.tree == [o] && q.jobs == [Done(c.out)]
    requires f in q.time && o in q.time && f != o
    ensures var t := Step(c, q, Execute).time;
            && t.Keys == q.time.Keys
            && t[f] - t[o] == q.time[f] - q.time[o] + c.weight + q.sendingLen
  {
    hide Inv, Step;
    CanExecute(c, q);
    ChargeEffect(c, q);
    assert o in q.tree;
  }

  lemma QueuedPair(c: Config, q: Queue, x: nat, y: nat)
    requires ValidConfig(c) && Inv(c, q) && q.jobs == [Operation(x), Schedule] && x != c.out && q.tree == [y]
    ensures Enabled(c, q, Execute) && Queues(c, q, Execute) && Step(c, q, Execute) == Queued(c, q)
    ensures x in q.input && x in q.time && y in q.time && x != y
    ensures var r := Queued(c, q);
            && r.time.Keys == q.time.Keys && r.tree == (if Before(r.time, x, y) then [x, y] else [y, x])
            && r.sending == q.sending && r.jobs == [Schedule] && r.output == q.output
            && r.data == q.data[x := q.input[x].packet]
            && r.time == if q.previous == Some(x) then q.time else q.time[x := Max(q.time[x], Now(c, q))]
  {
    hide Clocks, Roles, Ports, Lifo, Over, CurrentTime, Insert, Before;
    QueueTop(c, q, x);
    EnqueueKeeps(c, q, x);
    assert y in q.tree && q.jobs[1..] == [Schedule];
    InsertPair(Queued(c, q).time, x, y);
  }

  lemma InsertPair(time: map<nat, int>, x: nat, y: nat)
    requires x in time && y in time
    ensures Insert(time, [y], x) == if Before(time, x, y) then [x, y] else [y, x]
  {
    assert [y][1..] == [];
  }

  /** Flow x joins the waiting flow y just before one of them is picked. If the queues disagree on
      which goes first, that shows; otherwise both send it. */
  lemma Meet(c: Config, q: Queue, i: Queue, x: nat, y: nat, busy: bool) returns (q': Queue, i': Queue)
    requires Twins(c, q, i) && q.jobs == [Operation(x), Schedule] && x != c.out && q.tree == [y] && q.sending.None?
    ensures Queues(c, q, Execute) && x in q.input
    ensures !SamePlace(c, q, i) ==> Splits(c, q, i, busy)
    ensures SamePlace(c, q, i) ==>
              var r := Queued(c, q);
              && |r.tree| == 2
              && Twins(c, q', i') && (Splits(c, q', i', busy) ==> Splits(c, q, i, busy))
              && q'.sending == Some(r.tree[0]) && q'.tree == [r.tree[1]] && q'.output.phase == Busy && q'.jobs == []
              && q'.time == r.time && i'.time == Queued(Ideal(c), i).time && q'.data == q.data[x := q.input[x].packet]
  {
    hide Inv, Step, Enabled, Splits, Queued, Passed, Before;
    QueuedPair(c, q, x, y);
    QueuedPair(Ideal(c), i, x, y);
    q', i' := q, i;
    if SamePlace(c, q, i) {
      var q1, i1 := Both(c, q, i, Execute, busy);
      CanExecute(c, q1);
      var q2, i2 := Both(c, q1, i1, Execute, busy);
      ScheduleTop(c, q1);
      ScheduleTop(Ideal(c), i1);
      CanExecute(c, q2);
      q', i' := Both(c, q2, i2, Execute, busy);
      OutputOperationTop(c, q2);
      OutputOperationTop(Ideal(c), i2);
    } else {
      PickSplits(c, q, i, busy);
    }
  }

  lemma PickSplits(c: Config, q: Queue, i: Queue, busy: bool)
    requires ValidConfig(c) && Inv(c, q) && Inv(Ideal(c), i) && Enabled(c, q, Execute) && Enabled(Ideal(c), i, Execute)
    requires Occupied(q)
    requires var r := Step(c, q, Execute); r.jobs == [Schedule] && r.sending.None? && |r.tree| == 2
    requires var s := Step(Ideal(c), i, Execute); s.jobs == [Schedule] && s.sending.None? && |s.tree| == 2
    requires Step(c, q, Execute).tree[0] != Step(Ideal(c), i, Execute).tree[0]
    ensures Splits(c, q, i, busy)
  {
    hide Inv, Step, Enabled, Splits;
    StepKeepsInv(c, q, Execute);
    StepKeepsInv(Ideal(c), i, Execute);
    var r, s := Step(c, q, Execute), Step(Ideal(c), i, Execute);
    CanExecute(c, r);
    CanExecute(Ideal(c), s);
    ScheduleTop(c, r);
    ScheduleTop(Ideal(c), s);
    SplitsNow(c, r, s, Execute, busy);
    SplitsBack(c, q, i, Execute, busy);
  }

  /** By how much flow a is too late to be picked before flow b; ties go to the smaller address. */
  function Score(q: Queue, a: nat, b: nat): int
    requires a in q.time && b in q.time
  {
    q.time[a] - q.time[b] - if b < a then 0 else 1
  }

  /** One of the two is being sent, the other waits, and no job is pending. */
  ghost predicate Duel(c: Config, q: Queue, i: Queue, a: nat, b: nat) {
    && Twins(c, q, i) && a in q.time && b in q.time && q.data.Keys == q.time.Keys && a != b
    && a != c.out && b != c.out && q.output.phase == Busy && q.jobs == []
    && ((q.sending == Some(a) && q.tree == [b]) || (q.sending == Some(b) && q.tree == [a]))
  }

  function Served(c: Config, q: Queue, a: nat, b: nat): int
    requires a in q.data && b in q.data
  {
    if q.sending == Some(a) then c.weight + |q.data[a]| else -(c.weight + |q.data[b]|)
  }

  /** One round: the flow being sent is charged, sends p, and whoever is first is sent. */
  lemma Round(c: Config, q: Queue, i: Queue, a: nat, b: nat, p: Packet, busy: bool) returns (q': Queue, i': Queue)
    requires Duel(c, q, i, a, b) && |p| <= c.mtu
    ensures var s, t := Score(q, a, b) + Served(c, q, a, b), Score(i, a, b) + Served(c, q, a, b);
            if (s < 0) != (t < 0) then Splits(c, q, i, busy)
            else
              && Duel(c, q', i', a, b) && (Splits(c, q', i', busy) ==> Splits(c, q, i, busy))
              && Score(q', a, b) == s && Score(i', a, b) == t && q'.sending == Some(if s < 0 then a else b)
              && q'.data == q.data[q.sending.value := p]
  {
    hide Inv, Step, Enabled, Splits, Queued;
    var f, o := q.sending.value, q.tree[0];
    var q1, i1 := Serve(c, q, i, f, o, busy);
    CanSend(c, q1, f, p);
    var q2, i2 := Both(c, q1, i1, UserSend(f, p), busy);
    UserSends(c, q1, f, p);
    UserSends(Ideal(c), i1, f, p);
    QueuedPair(c, q2, f, o);
    QueuedPair(Ideal(c), i2, f, o);
    q', i' := Meet(c, q2, i2, f, o, busy);
    if SamePlace(c, q2, i2) { KeysOf(c, q'); }
  }

  lemma CanSend(c: Config, q: Queue, f: nat, p: Packet)
    requires f in q.input && q.input[f].phase == Idle && |p| <= c.mtu
    ensures Enabled(c, q, UserSend(f, p))
  {
  }

  // ---- How the two flows play ----

  /** The scores of the two queues are z and z - d. While flow b sends empty packets only, this is how
      far below zero flow a will be when it is picked next; 0 if the picks differ before. */
  function Dist(w: int, d: int, z: int): (r: int)
    requires w > 0 && d > 0
    ensures 0 <= r
    decreases if z < 0 then 0 else z + 1
  {
    if z < 0 then -z else if z < d then 0 else Dist(w, d, z - w)
  }

  function Min(x: int, y: int): int {
    if x < y then x else y
  }

  /** The length flow a sends from dist below zero. */
  function Plan(w: nat, mtu: nat, dist: int): nat
    requires dist > 0
  {
    Min(mtu, if dist >= w then dist - w else dist)
  }

  lemma PlanWorks(w: nat, d: int, mtu: nat, dist: int)
    requires w > 0 && d > 0 && dist > 0 && (mtu > 0 || d >= w)
    ensures Dist(w, d, Plan(w, mtu, dist) + w - dist) < dist
  {
  }

  function Top(q: Queue, i: Queue, a: nat, b: nat): int
    requires a in q.time && b in q.time && a in i.time && b in i.time
  {
    Max(Score(q, a, b), Score(i, a, b))
  }

  function Spread(q: Queue, i: Queue, a: nat, b: nat): int
    requires a in q.time && b in q.time && a in i.time && b in i.time
  {
    Abs(Score(q, a, b) - Score(i, a, b))
  }

  /** Until flow b has sent the packet it came with, and by whom. */
  function Rank(q: Queue, a: nat, b: nat): nat
    requires b in q.data
  {
    if q.data[b] == [] then 0 else if q.sending == Some(b) then 1 else 2
  }

  function Value(c: Config, q: Queue, i: Queue, a: nat, b: nat): nat
    requires a in q.time && b in q.time && a in i.time && b in i.time && a in q.data && b in q.data
    requires c.weight > 0 && Spread(q, i, a, b) > 0
  {
    var w, d, z := c.weight, Spread(q, i, a, b), Top(q, i, a, b);
    if Rank(q, a, b) == 2 then Max(0, -z)
    else if Rank(q, a, b) == 1 then 0
    else if q.sending == Some(a) then 1 + Dist(w, d, z + w + |q.data[a]|)
    else if Dist(w, d, z) == 0 then 0
    else 1 + Dist(w, d, |q.data[a]| + w - Dist(w, d, z))
  }

  /** What the flow that is done sends next. */
  function Move(c: Config, q: Queue, i: Queue, a: nat, b: nat): nat
    requires a in q.time && b in q.time && a in i.time && b in i.time && a in q.data && b in q.data
    requires c.weight > 0 && Spread(q, i, a, b) > 0
  {
    var w, d := c.weight, Spread(q, i, a, b);
    var dist := Dist(w, d, Top(q, i, a, b) + Served(c, q, a, b));
    if q.sending == Some(b) || dist == 0 then 0 else Plan(w, c.mtu, dist)
  }

  /** Both queues have just picked, and agree. */
  ghost predicate Picked(q: Queue, i: Queue, a: nat, b: nat)
    requires a in q.time && b in q.time && a in i.time && b in i.time
  {
    q.sending == Some(b) ==> Score(q, a, b) >= 0 && Score(i, a, b) >= 0
  }

  /** The part of the measure that goes down while flow b is sending. */
  function Turns(q: Queue, i: Queue, a: nat, b: nat): nat
    requires a in q.time && b in q.time && a in i.time && b in i.time
  {
    if q.sending == Some(b) then 1 + Max(0, Top(q, i, a, b)) else 0
  }

  ghost predicate Closer(c: Config, q: Queue, i: Queue, a: nat, b: nat, q': Queue, i': Queue)
    requires a in q.time && b in q.time && a in i.time && b in i.time && a in q.data && b in q.data
    requires a in q'.time && b in q'.time && a in i'.time && b in i'.time && a in q'.data && b in q'.data
    requires c.weight > 0 && Spread(q, i, a, b) > 0 && Spread(q', i', a, b) > 0
  {
    var r, r' := Rank(q, a, b), Rank(q', a, b);
    var v, v' := Value(c, q, i, a, b), Value(c, q', i', a, b);
    r' < r || (r' == r && (v' < v || (v' == v && Turns(q', i', a, b) < Turns(q, i, a, b))))
  }

  /** What a round in which both queues agree leaves behind. */
  ghost predicate After(c: Config, q: Queue, i: Queue, a: nat, b: nat, p: Packet, q': Queue, i': Queue)
    requires Duel(c, q, i, a, b) && Duel(c, q', i', a, b)
  {
    && Score(q', a, b) == Score(q, a, b) + Served(c, q, a, b)
    && Score(i', a, b) == Score(i, a, b) + Served(c, q, a, b)
    && (Score(q', a, b) < 0 <==> Score(i', a, b) < 0)
    && q'.sending == Some(if Score(q', a, b) < 0 then a else b)
    && q'.data == q.data[q.sending.value := p]
  }

  lemma ServedA(c: Config, q: Queue, i: Queue, a: nat, b: nat, p: Packet, q': Queue, i': Queue)
    requires Duel(c, q, i, a, b) && Spread(q, i, a, b) > 0 && q.sending == Some(a)
    requires c.mtu > 0 || Spread(q, i, a, b) >= c.weight
    requires |p| == Move(c, q, i, a, b) && Duel(c, q', i', a, b) && After(c, q, i, a, b, p, q', i')
    ensures Closer(c, q, i, a, b, q', i')
  {
    hide Inv, Dist, Plan;
    var w, d, z := c.weight, Spread(q, i, a, b), Top(q', i', a, b);
    assert Spread(q', i', a, b) == d && z == Top(q, i, a, b) + w + |q.data[a]|;
    if q.data[b] == [] {
      var dist := Dist(w, d, z);
      DistStep(w, d, z);
      if dist > 0 {
        PlanWorks(w, d, c.mtu, dist);
        assert |p| == Plan(w, c.mtu, dist);
        assert z < 0 ==> z + w + |p| == |p| + w - dist;
      }
    }
  }

  lemma DistStep(w: int, d: int, z: int)
    requires w > 0 && d > 0
    ensures z < 0 ==> Dist(w, d, z) == -z
    ensures z >= d ==> Dist(w, d, z) == Dist(w, d, z - w)
    ensures 0 <= z < d ==> Dist(w, d, z) == 0
  {
  }

  lemma ServedB(c: Config, q: Queue, i: Queue, a: nat, b: nat, p: Packet, q': Queue, i': Queue)
    requires Duel(c, q, i, a, b) && Spread(q, i, a, b) > 0 && q.sending == Some(b) && Picked(q, i, a, b)
    requires p == [] && Duel(c, q', i', a, b) && After(c, q, i, a, b, p, q', i')
    ensures Closer(c, q, i, a, b, q', i')
  {
    hide Inv, Dist;
    var w, d, z := c.weight, Spread(q, i, a, b), Top(q, i, a, b);
    assert Spread(q', i', a, b) == d;
    if q.data[b] == [] {
      assert Top(q', i', a, b) == z - w;
      DistStep(w, d, z);
      DistStep(w, d, z - w);
      assert z - w < 0 ==> z - w + w + |q.data[a]| == |q.data[a]| + w - Dist(w, d, z);
    }
  }

  /** Whatever they start from, a difference in the score shows in the end. */
  lemma {:induction false} Win(c: Config, q: Queue, i: Queue, a: nat, b: nat)
    requires Duel(c, q, i, a, b) && Spread(q, i, a, b) > 0 && Picked(q, i, a, b)
    requires c.mtu > 0 || Spread(q, i, a, b) >= c.weight
    ensures Splits(c, q, i, true)
    decreases Rank(q, a, b), Value(c, q, i, a, b), Turns(q, i, a, b)
  {
    hide Inv, Splits, Value, Turns, Rank;
    MoveFits(c, q, i, a, b);
    var p: Packet := seq(Move(c, q, i, a, b), _ => 0);
    var q', i' := Round(c, q, i, a, b, p, true);
    if (Score(q, a, b) + Served(c, q, a, b) < 0) == (Score(i, a, b) + Served(c, q, a, b) < 0) {
      if q.sending == Some(a) {
        ServedA(c, q, i, a, b, p, q', i');
      } else {
        ServedB(c, q, i, a, b, p, q', i');
      }
      Win(c, q', i', a, b);
    }
  }

  lemma MoveFits(c: Config, q: Queue, i: Queue, a: nat, b: nat)
    requires a in q.time && b in q.time && a in i.time && b in i.time && a in q.data && b in q.data
    requires c.weight > 0 && Spread(q, i, a, b) > 0
    ensures Move(c, q, i, a, b) <= c.mtu
    ensures q.sending == Some(b) ==> Move(c, q, i, a, b) == 0
  {
  }
}
