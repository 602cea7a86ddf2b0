/** What a fall back of the current time does to the order, exactly: the queue with bounded clocks goes
    on sending in the order of the ideal queue if and only if the two agree on the leads over the flow
    that enters. And a run from the empty queue, for every bound, on which they do not. */
module FairQueueFallback {
  import opened Basics
  import opened Pending
  import opened PassInterface
  import opened FairQueue
  import opened FairQueueSafety
  import opened FairQueueRuns
  import opened FairQueueFairness
  import opened FairQueueIdeal
  import opened FairQueueDuel

  lemma FallBackTop(c: Config, q: Queue)
    requires ValidConfig(c) && Inv(c, q) && FallsBack(c, q, Execute)
    ensures var a := q.jobs[0].i;
            && Enabled(c, q, Execute) && a in q.time && a in q.input && Queued(c, q).tree == [a]
            && var r := Step(c, q, Execute);
               && r.time == q.time && r.previous.None? && r.input == q.input[a := q.input[a].(phase := Busy)]
               && r.data == q.data[a := q.input[a].packet]
               && (Schedule in q.jobs ==> r.sending.None? && r.tree == [a] && r.output == q.output
                                          && r.jobs == q.jobs[1..])
               && (Schedule !in q.jobs ==> r.sending == Some(a) && r.tree == [] && r.output.phase == OperationPending
                                           && r.sendingLen == |q.input[a].packet|
                                           && r.jobs == [Operation(c.out)] + q.jobs[1..])
  {
    hide Clocks, Roles, Ports, Lifo, Over;
    var a := q.jobs[0].i;
    EnqueueKeeps(c, q, a);
    NotNegative(c, q, a);
    IdleOutput(c, q);
    WithoutAbsent(q.jobs[1..], Operation(c.out));
    assert q.time[a := q.time[a]] == q.time && [a][1..] == [];
  }

  // ---- Clearing the stage for two flows ----

  /** Flow a went first; nobody else takes part but possibly flow b behind it. */
  ghost predicate Staged(c: Config, q: Queue, a: nat, b: nat) {
    && ValidConfig(c) && Inv(c, q) && a != b && a in q.time && b in q.time && b in q.input
    && q.previous.None? && q.output.phase != DonePending
    && ((q.sending == Some(a) && (q.tree == [] || q.tree == [b])) || (q.sending.None? && q.tree == [a]))
  }

  /** What flow b still has to do before it is in the tree. */
  function Stage(q: Queue, b: nat): nat
    requires b in q.input
  {
    match q.input[b].phase
    case DonePending => 3
    case Idle => 2
    case OperationPending => 1
    case Busy => 0
  }

  function Pendings(q: Queue): nat {
    |q.jobs| + if q.sending.None? then 1 else 0
  }

  /** Fewer flows, or flow b further on, or fewer jobs. */
  ghost predicate Clearer(q: Queue, q': Queue, b: nat)
    requires b in q.input && b in q'.input
  {
    || |q'.time.Keys| < |q.time.Keys|
    || (|q'.time.Keys| == |q.time.Keys|
        && (Stage(q', b) < Stage(q, b) || (Stage(q', b) == Stage(q, b) && Pendings(q') < Pendings(q))))
  }

  lemma {:induction false} WithoutShorter<T>(s: seq<T>, x: T)
    ensures |Without(s, x)| <= |s| && (x in s ==> |Without(s, x)| < |s|)
  {
    if s != [] && s[0] != x {
      WithoutShorter(s[1..], x);
      assert s == [s[0]] + s[1..];
    }
  }

  lemma FreeOther(c: Config, q: Queue, a: nat, b: nat, x: nat)
    requires Staged(c, q, a, b) && x in q.time && x != a && x != b
    ensures Enabled(c, q, FreeFlow(x)) && !Queues(c, q, FreeFlow(x))
    ensures var r := Step(c, q, FreeFlow(x));
            Staged(c, r, a, b) && Lead(r, a, b) == Lead(q, a, b) && Clearer(q, r, b) && r.sending == q.sending
  {
    hide Clocks, Roles, Ports, Lifo, Duty;
    StepKeepsInv(c, q, FreeFlow(x));
    WithoutAbsent(q.tree, x);
    var r := Step(c, q, FreeFlow(x));
    assert r.time.Keys == q.time.Keys - {x};
    assert |r.time.Keys| < |q.time.Keys|;
  }

  lemma UnsetForeign(c: Config, q: Queue, a: nat, b: nat, k: nat)
    requires Staged(c, q, a, b) && Other(k) in q.jobs
    ensures Enabled(c, q, UnsetOther(k)) && !Queues(c, q, UnsetOther(k))
    ensures var r := Step(c, q, UnsetOther(k));
            Staged(c, r, a, b) && Lead(r, a, b) == Lead(q, a, b) && Clearer(q, r, b) && r.sending == q.sending
  {
    hide Clocks, Roles, Ports, Lifo, Duty, Without;
    StepKeepsInv(c, q, UnsetOther(k));
    WithoutShorter(q.jobs, Other(k));
  }

  lemma BSends(c: Config, q: Queue, a: nat, b: nat)
    requires Staged(c, q, a, b) && q.input[b].phase == Idle
    ensures Enabled(c, q, UserSend(b, [])) && !Queues(c, q, UserSend(b, []))
    ensures var r := Step(c, q, UserSend(b, []));
            Staged(c, r, a, b) && Lead(r, a, b) == Lead(q, a, b) && Clearer(q, r, b) && r.sending == q.sending
  {
    hide Clocks, Roles, Ports, Lifo, Duty, Set;
    StepKeepsInv(c, q, UserSend(b, []));
  }

  /** Nobody but a and b, and no job of anybody else. */
  ghost predicate Cleared(c: Config, q: Queue, a: nat, b: nat) {
    && Staged(c, q, a, b) && (forall x :: x in q.time ==> x == a || x == b)
    && forall j :: j in q.jobs ==> !j.Other?
  }

  /** The jobs that can be left. */
  lemma ClearedJobs(c: Config, q: Queue, a: nat, b: nat, j: Job)
    requires Cleared(c, q, a, b) && j in q.jobs
    ensures a != c.out && b != c.out
    ensures j == Operation(b) || j == Done(b) || (j == Schedule && q.sending.None?)
            || ((j == Operation(c.out) || j == RequestCancel(c.out)) && q.sending.Some?)
  {
    hide Clocks, Lifo;
    assert Known(c, q.input, j);
    assert Role(c, q.input[a], q.data[a], a in q.tree || q.sending == Some(a));
    assert Linked(q.input[a], a, q.jobs) && Linked(q.input[b], b, q.jobs);
    if q.sending.None? { IdleOutput(c, q); }
  }

  /** Flow b, queued behind a, keeps its lead. */
  lemma BQueued(c: Config, q: Queue, a: nat, b: nat)
    requires Cleared(c, q, a, b) && q.sending == Some(a) && q.jobs != [] && q.jobs[0] == Operation(b)
    ensures Enabled(c, q, Execute) && Queues(c, q, Execute) && Queued(c, q).tree == [b]
    ensures var r := Step(c, q, Execute);
            Staged(c, r, a, b) && Lead(r, a, b) == Lead(q, a, b) && Clearer(q, r, b)
  {
    hide Clocks, Roles, Ports, Lifo, Duty, Over;
    ClearedJobs(c, q, a, b, q.jobs[0]);
    StepKeepsInv(c, q, Execute);
    EnqueueKeeps(c, q, b);
    TopIsExpected(c, q);
    QueueTop(c, q, b);
  }

  lemma BDone(c: Config, q: Queue, a: nat, b: nat)
    requires Cleared(c, q, a, b) && q.jobs != [] && q.jobs[0] == Done(b)
    ensures Enabled(c, q, Execute) && !Queues(c, q, Execute)
    ensures var r := Step(c, q, Execute);
            Staged(c, r, a, b) && Lead(r, a, b) == Lead(q, a, b) && Clearer(q, r, b)
  {
    hide Clocks, Roles, Ports, Lifo, Duty;
    ClearedJobs(c, q, a, b, q.jobs[0]);
    StepKeepsInv(c, q, Execute);
    TopIsExpected(c, q);
    FlowDoneTop(c, q, b);
  }

  lemma Scheduled(c: Config, q: Queue, a: nat, b: nat)
    requires Cleared(c, q, a, b) && q.jobs != [] && q.jobs[0] == Schedule
    ensures Enabled(c, q, Execute) && !Queues(c, q, Execute)
    ensures var r := Step(c, q, Execute);
            Staged(c, r, a, b) && Lead(r, a, b) == Lead(q, a, b) && Clearer(q, r, b)
  {
    hide Clocks, Roles, Ports, Lifo, Duty, Step;
    StepKeepsInv(c, q, Execute);
    ClearedJobs(c, q, a, b, Schedule);
    ScheduleTop(c, q);
  }

  lemma OutputQuiet(c: Config, q: Queue, a: nat, b: nat)
    requires Cleared(c, q, a, b) && q.jobs != [] && (q.jobs[0] == Operation(c.out) || q.jobs[0] == RequestCancel(c.out))
    ensures Enabled(c, q, Execute) && !Queues(c, q, Execute)
    ensures var r := Step(c, q, Execute);
            Staged(c, r, a, b) && Lead(r, a, b) == Lead(q, a, b) && Clearer(q, r, b)
  {
    hide Clocks, Roles, Ports, Lifo, Duty;
    StepKeepsInv(c, q, Execute);
  }

  /** Flow b is about to be queued beside a before either is sent. */
  predicate Meeting(q: Queue, b: nat) {
    q.jobs != [] && q.jobs[0] == Operation(b) && q.sending.None?
  }

  /** The event clears something away. */
  ghost predicate Sweeps(c: Config, q: Queue, a: nat, b: nat, e: Event)
    requires Staged(c, q, a, b)
  {
    match e
    case FreeFlow(x) => x in q.time && x != a && x != b
    case UnsetOther(k) => Other(k) in q.jobs
    case UserSend(x, p) => x == b && p == [] && q.input[b].phase == Idle
    case Execute => Cleared(c, q, a, b) && q.jobs != [] && !Meeting(q, b)
    case _ => false
  }

  lemma Broom(c: Config, q: Queue, a: nat, b: nat) returns (e: Event)
    requires Staged(c, q, a, b) && (Cleared(c, q, a, b) ==> !Meeting(q, b))
    requires Cleared(c, q, a, b) && q.jobs == [] ==> q.input[b].phase == Idle
    ensures Sweeps(c, q, a, b, e)
  {
    hide Inv;
    if x :| x in q.time && x != a && x != b {
      e := FreeFlow(x);
    } else if j :| j in q.jobs && j.Other? {
      e := UnsetOther(j.k);
    } else if q.jobs == [] {
      e := UserSend(b, []);
    } else {
      e := Execute;
    }
  }

  lemma BroomWorks(c: Config, q: Queue, a: nat, b: nat, e: Event)
    requires Staged(c, q, a, b) && Sweeps(c, q, a, b, e)
    ensures Enabled(c, q, e) && (Queues(c, q, e) ==> Queued(c, q).tree == [b])
    ensures var r := Step(c, q, e);
            Staged(c, r, a, b) && Lead(r, a, b) == Lead(q, a, b) && Clearer(q, r, b)
  {
    hide Inv, Step, Enabled, Clearer, Lead;
    if e.FreeFlow? {
      FreeOther(c, q, a, b, e.a);
    } else if e.UnsetOther? {
      UnsetForeign(c, q, a, b, e.k);
    } else if e.UserSend? {
      BSends(c, q, a, b);
    } else {
      RunsTop(c, q, a, b);
    }
  }

  lemma RunsTop(c: Config, q: Queue, a: nat, b: nat)
    requires Cleared(c, q, a, b) && q.jobs != [] && !Meeting(q, b)
    ensures Enabled(c, q, Execute) && (Queues(c, q, Execute) ==> Queued(c, q).tree == [b])
    ensures var r := Step(c, q, Execute);
            Staged(c, r, a, b) && Lead(r, a, b) == Lead(q, a, b) && Clearer(q, r, b)
  {
    hide Inv, Step, Enabled, Clearer, Lead;
    var j := q.jobs[0];
    ClearedJobs(c, q, a, b, j);
    if j == Operation(b) {
      BQueued(c, q, a, b);
    } else if j == Done(b) {
      BDone(c, q, a, b);
    } else if j == Schedule {
      Scheduled(c, q, a, b);
    } else {
      OutputQuiet(c, q, a, b);
    }
  }

  lemma TwoJobs(jobs: seq<Job>, x: Job, y: Job)
    requires Distinct(jobs) && jobs != [] && jobs[0] == x && y in jobs && x != y
    requires forall j :: j in jobs ==> j == x || j == y
    ensures jobs == [x, y]
  {
    forall l | 0 < l < |jobs| ensures jobs[l] == y {
      assert jobs[l] in jobs;
    }
    assert |jobs| > 1;
    var last := |jobs| - 1;
    assert jobs[1] == jobs[last];
  }

  lemma MeetingJobs(c: Config, q: Queue, a: nat, b: nat)
    requires Cleared(c, q, a, b) && Meeting(q, b)
    ensures q.jobs == [Operation(b), Schedule] && q.tree == [a] && b != c.out && a != c.out && Occupied(q)
  {
    hide Clocks, Roles, Lifo;
    assert Linked(q.input[b], b, q.jobs);
    forall j | j in q.jobs ensures j == Operation(b) || j == Schedule {
      ClearedJobs(c, q, a, b, j);
    }
    ClearedJobs(c, q, a, b, Operation(b));
    TwoJobs(q.jobs, Operation(b), Schedule);
  }

  /** What flow b's score is when it is queued behind a. */
  lemma ScoreIsLead(c: Config, q: Queue, a: nat, b: nat)
    requires Inv(c, q) && q.sending == Some(a) && q.tree == [b]
    ensures a in q.time && b in q.time && q.data.Keys == q.time.Keys
    ensures Score(q, a, b) == -Lead(q, a, b) - if b < a then 0 else 1
  {
    assert b in q.tree;
  }

  /** The two meet before either is sent: they are picked in the order of their clocks. */
  lemma SettleMeeting(c: Config, q: Queue, i: Queue, a: nat, b: nat)
    requires Twins(c, q, i) && Cleared(c, q, a, b) && Cleared(Ideal(c), i, a, b) && Meeting(q, b)
    requires Lead(q, a, b) != Lead(i, a, b)
    requires c.mtu > 0 || Abs(Lead(q, a, b) - Lead(i, a, b)) >= c.weight
    ensures Splits(c, q, i, true)
  {
    hide Inv, Step, Enabled, Splits, Queued;
    MeetingJobs(c, q, a, b);
    var q', i' := Meet(c, q, i, b, a, true);
    if SamePlace(c, q, i) {
      MeetingScore(c, q, a, b);
      MeetingScore(Ideal(c), i, a, b);
      KeysOf(c, q');
      Win(c, q', i', a, b);
    }
  }

  lemma MeetingScore(c: Config, q: Queue, a: nat, b: nat)
    requires Cleared(c, q, a, b) && Meeting(q, b)
    ensures Queues(c, q, Execute)
    ensures var r := Queued(c, q);
            && a in r.time && b in r.time
            && Score(r, a, b) == -Lead(q, a, b) - (if b < a then 0 else 1)
            && (r.tree == [b, a] ==> Score(r, a, b) >= 0) && (r.tree == [a, b] || r.tree == [b, a])
  {
    hide Inv, Step, Enabled, Queued;
    MeetingJobs(c, q, a, b);
    QueuedPair(c, q, b, a);
    KeysOf(c, q);
    assert Now(c, q) == q.time[a];
  }

  lemma SettleDuel(c: Config, q: Queue, i: Queue, a: nat, b: nat)
    requires Twins(c, q, i) && Cleared(c, q, a, b) && Cleared(Ideal(c), i, a, b)
    requires q.jobs == [] && q.input[b].phase != Idle
    requires Lead(q, a, b) != Lead(i, a, b)
    requires c.mtu > 0 || Abs(Lead(q, a, b) - Lead(i, a, b)) >= c.weight
    ensures Splits(c, q, i, true)
  {
    hide Inv, Step, Enabled, Splits;
    StageIsSet(c, q, a, b);
    ScoreIsLead(c, q, a, b);
    ScoreIsLead(Ideal(c), i, a, b);
    Win(c, q, i, a, b);
  }

  lemma StageIsSet(c: Config, q: Queue, a: nat, b: nat)
    requires Cleared(c, q, a, b) && q.jobs == [] && q.input[b].phase != Idle
    ensures q.sending == Some(a) && q.tree == [b] && q.output.phase == Busy && a != c.out && b != c.out
  {
    hide Clocks, Lifo;
    assert Linked(q.input[b], b, q.jobs);
    assert Role(c, q.input[b], q.data[b], b in q.tree || q.sending == Some(b));
  }

  /** Two queues that are alike, in which flow a went first and flow b has a different lead over it:
      in the end they send differently. */
  lemma {:induction false} Settle(c: Config, q: Queue, i: Queue, a: nat, b: nat)
    requires Twins(c, q, i) && Staged(c, q, a, b) && Staged(Ideal(c), i, a, b)
    requires Lead(q, a, b) != Lead(i, a, b)
    requires c.mtu > 0 || Abs(Lead(q, a, b) - Lead(i, a, b)) >= c.weight
    ensures Splits(c, q, i, true)
    decreases |q.time.Keys|, Stage(q, b), Pendings(q)
  {
    hide Inv, Step, Enabled, Lead, Splits, Queued, Stage, Pendings;
    if Cleared(c, q, a, b) && Meeting(q, b) {
      SettleMeeting(c, q, i, a, b);
    } else if Cleared(c, q, a, b) && q.jobs == [] && q.input[b].phase != Idle {
      SettleDuel(c, q, i, a, b);
    } else {
      var e := Broom(c, q, a, b);
      BroomWorks(c, q, a, b, e);
      BroomWorks(Ideal(c), i, a, b, e);
      var q', i' := Both(c, q, i, e, true);
      Settle(c, q', i', a, b);
    }
  }

  // ---- Clocks when all packets are empty ----

  ghost predicate Multiple(t: int, w: int)
    requires w > 0
    decreases t
  {
    t == 0 || (t >= w && Multiple(t - w, w))
  }

  lemma MultipleMore(t: int, w: int)
    requires w > 0 && 0 <= t && Multiple(t, w)
    ensures Multiple(t + w, w)
  {
  }

  lemma {:induction false} MultipleLess(t: int, s: int, w: int)
    requires w > 0 && 0 <= s <= t && Multiple(t, w) && Multiple(s, w)
    ensures Multiple(t - s, w)
    decreases s
  {
    if s != 0 {
      MultipleLess(t - w, s - w, w);
    }
  }

  lemma {:induction false} MultiplesApart(t: int, s: int, w: int)
    requires w > 0 && 0 <= t && 0 <= s && t != s && Multiple(t, w) && Multiple(s, w)
    ensures Abs(t - s) >= w
    decreases s
  {
    if t != 0 && s != 0 {
      MultiplesApart(t - w, s - w, w);
    }
  }

  /** Every clock is a number of packet weights. */
  ghost predicate Whole(c: Config, q: Queue)
    requires ValidConfig(c)
  {
    forall a :: a in q.time ==> 0 <= q.time[a] && Multiple(q.time[a], c.weight)
  }

  lemma SubtractedIsWhole(c: Config, q: Queue, e: Event)
    requires ValidConfig(c) && Keys(c, q) && Whole(c, q)
    ensures Multiple(Subtracted(c, q, e), c.weight) && Multiple(Now(c, q), c.weight)
  {
    hide Multiple;
    NothingIsWhole(c);
  }

  lemma NothingIsWhole(c: Config)
    requires ValidConfig(c)
    ensures Multiple(0, c.weight)
  {
  }

  lemma ClockStaysWhole(c: Config, q: Queue, e: Event, a: nat)
    requires ValidConfig(c) && Inv(c, q) && Enabled(c, q, e) && c.mtu == 0 && Whole(c, q)
    requires a in Step(c, q, e).time
    ensures 0 <= Step(c, q, e).time[a] && Multiple(Step(c, q, e).time[a], c.weight)
  {
    hide Inv, Step, Enabled, Subtracted, Now, Multiple, Keys;
    KeysOf(c, q);
    NothingIsWhole(c);
    SubtractedIsWhole(c, q, e);
    StepKeepsInv(c, q, e);
    NotNegative(c, Step(c, q, e), a);
    if a in q.time {
      ClockStep(c, q, e, a);
      var s := Subtracted(c, q, e);
      MultipleMore(q.time[a], c.weight);
      if s <= q.time[a] { MultipleLess(q.time[a], s, c.weight); }
      if s <= q.time[a] + c.weight { MultipleLess(q.time[a] + c.weight, s, c.weight); }
    } else {
      FreshClock(c, q, e, a);
    }
  }

  lemma {:induction false} RunIsWhole(c: Config, q: Queue, es: seq<Event>)
    requires ValidConfig(c) && Inv(c, q) && Legal(c, q, es) && c.mtu == 0 && Whole(c, q)
    ensures Whole(c, Run(c, q, es))
    decreases es
  {
    hide Inv, Step, Enabled, Multiple;
    if es != [] {
      StepKeepsInv(c, q, es[0]);
      forall a | a in Step(c, q, es[0]).time
        ensures 0 <= Step(c, q, es[0]).time[a] && Multiple(Step(c, q, es[0]).time[a], c.weight)
      {
        ClockStaysWhole(c, q, es[0], a);
      }
      RunIsWhole(c, Step(c, q, es[0]), es[1..]);
    }
  }

  lemma LeadIsWhole(c: Config, q: Queue, a: nat, b: nat)
    requires ValidConfig(c) && Whole(c, q) && a in q.time && b in q.time
    ensures 0 <= Lead(q, a, b) && Multiple(Lead(q, a, b), c.weight)
  {
    hide Multiple;
    NothingIsWhole(c);
    if q.time[a] <= q.time[b] { MultipleLess(q.time[b], q.time[a], c.weight); }
  }

  /** The packets can tell any two different leads apart: they can have bytes, or all clocks are whole. */
  ghost predicate Visible(c: Config, q: Queue, i: Queue)
    requires ValidConfig(c)
  {
    c.mtu > 0 || (Whole(c, q) && Whole(c, i))
  }

  // ---- What a fall back shows, exactly ----

  lemma EntersFirst(c: Config, q: Queue, b: nat)
    requires ValidConfig(c) && Inv(c, q) && FallsBack(c, q, Execute) && b in q.time && b != q.jobs[0].i
    ensures var a, r := q.jobs[0].i, Step(c, q, Execute);
            && Enabled(c, q, Execute) && a in q.time && Queued(c, q).tree == [a]
            && Staged(c, r, a, b) && Lead(r, a, b) == Lead(q, a, b)
  {
    hide Clocks, Roles, Ports, Lifo, Duty, Step, Queued;
    FallBackTop(c, q);
    IdleOutput(c, q);
    StepKeepsInv(c, q, Execute);
    KeysOf(c, Step(c, q, Execute));
  }

  /** A flow whose lead over the flow that enters is not the same in both queues gives them away. */
  lemma FallbackShows(c: Config, q: Queue, i: Queue, b: nat)
    requires Twins(c, q, i) && FallsBack(c, q, Execute) && b in q.time && q.jobs[0].i in q.time
    requires Lead(q, q.jobs[0].i, b) != Lead(i, q.jobs[0].i, b)
    requires c.mtu > 0 || Abs(Lead(q, q.jobs[0].i, b) - Lead(i, q.jobs[0].i, b)) >= c.weight
    ensures Enabled(c, q, Execute) && Enabled(Ideal(c), i, Execute)
    ensures var r, s := Step(c, q, Execute), Step(Ideal(c), i, Execute);
            Twins(c, r, s) && Splits(c, r, s, true)
  {
    hide Inv, Step, Enabled, Splits, Queued, Staged;
    EntersFirst(c, q, b);
    EntersFirst(Ideal(c), i, b);
    var r, s := Both(c, q, i, Execute, false);
    Settle(c, r, s, q.jobs[0].i, b);
  }

  /** es begins with the fall back and is a busy period from then on. */
  ghost predicate BusyAfter(c: Config, q: Queue, es: seq<Event>)
    requires ValidConfig(c) && Inv(c, q)
  {
    && es != [] && es[0] == Execute && Legal(c, q, es)
    && (StepKeepsInv(c, q, Execute); BusyPeriod(c, Step(c, q, Execute), es[1..]))
  }

  ghost predicate SameOrder(c: Config, q: Queue, i: Queue, es: seq<Event>)
    requires ValidConfig(c) && Inv(c, q) && Inv(Ideal(c), i)
  {
    Legal(c, q, es) && Legal(Ideal(c), i, es) && Sends(Ideal(c), i, es) == Sends(c, q, es)
  }

  lemma AlignedAgrees(c: Config, q: Queue, i: Queue, es: seq<Event>)
    requires Twins(c, q, i) && FallsBack(c, q, Execute) && Aligned(q, i, q.jobs[0].i) && BusyAfter(c, q, es)
    ensures SameOrder(c, q, i, es)
  {
    hide Inv, Step, Enabled, Sends, Aligned, Coupled, BusyPeriod, Subtracted;
    var a := q.jobs[0].i;
    AlignedHas(q, i, a);
    AlignedCouples(c, q, i, a);
    var base, low := i.time[a] - q.time[a], q.time[a];
    StepStaysCoupled(c, q, i, base, low, Execute);
    var s := Subtracted(c, q, Execute);
    BusyIsAligned(c, Step(c, q, Execute), Step(Ideal(c), i, Execute), base + s, Max(0, low - s), es[1..]);
    RunStaysCoupled(c, q, i, base, low, es);
  }

  lemma MisalignedDiffers(c: Config, q: Queue, i: Queue) returns (es: seq<Event>)
    requires Twins(c, q, i) && FallsBack(c, q, Execute) && !Aligned(q, i, q.jobs[0].i) && Visible(c, q, i)
    ensures BusyAfter(c, q, es) && !SameOrder(c, q, i, es)
  {
    hide Inv, Step, Enabled, Sends, Passed, BusyPeriod, Legal, Whole, Multiple;
    FlowOnTop(c, q);
    var b :| b in q.time && Lead(q, q.jobs[0].i, b) != Lead(i, q.jobs[0].i, b);
    if c.mtu == 0 {
      LeadIsWhole(c, q, q.jobs[0].i, b);
      LeadIsWhole(c, i, q.jobs[0].i, b);
      MultiplesApart(Lead(q, q.jobs[0].i, b), Lead(i, q.jobs[0].i, b), c.weight);
    }
    FallbackShows(c, q, i, b);
    var r, s := Step(c, q, Execute), Step(Ideal(c), i, Execute);
    var rest :| Differs(c, r, s, rest, true);
    RunOfMore(c, q, Execute, rest);
    RunOfMore(Ideal(c), i, Execute, rest);
    es := [Execute] + rest;
    assert es[1..] == rest;
    SamePrefix(Passed(q, r), Sends(c, r, rest), Sends(Ideal(c), s, rest));
    SamePassed(c, q, i);
  }

  lemma SamePassed(c: Config, q: Queue, i: Queue)
    requires Twins(c, q, i) && FallsBack(c, q, Execute)
    ensures Enabled(c, q, Execute) && Enabled(Ideal(c), i, Execute)
    ensures Passed(i, Step(Ideal(c), i, Execute)) == Passed(q, Step(c, q, Execute))
  {
    hide Inv, Step, Passed, Queued;
    FallBackTop(c, q);
    FallBackTop(Ideal(c), i);
    StepAlike(c, q, i, Execute);
  }

  /** From a fall back on, the bounded queue and the ideal queue send alike throughout the busy period
      that it starts, however that goes on, if and only if they agree on the lead of every flow over
      the flow that enters. */
  lemma FallbackExactly(c: Config, q: Queue, i: Queue)
    requires Twins(c, q, i) && FallsBack(c, q, Execute) && Visible(c, q, i)
    ensures Aligned(q, i, q.jobs[0].i) <==> forall es :: BusyAfter(c, q, es) ==> SameOrder(c, q, i, es)
  {
    hide Inv, Aligned, BusyAfter, SameOrder, Visible;
    if Aligned(q, i, q.jobs[0].i) {
      forall es | BusyAfter(c, q, es) ensures SameOrder(c, q, i, es) {
        AlignedAgrees(c, q, i, es);
      }
    } else {
      var es := MisalignedDiffers(c, q, i);
    }
  }

  // ---- From the empty queue ----

  /** Nothing is on its way; flow x has sent alone, and its clock has not been rebased. */
  ghost predicate Solo(c: Config, q: Queue, i: Queue, x: nat, y: nat) {
    && Twins(c, q, i) && !Occupied(q) && q.jobs == [] && x != y && x in q.time && y in q.time && x != c.out
    && x in q.input && y in q.input && q.input[x].phase == Idle && q.input[y].phase == Idle
    && q.time[y] == 0 && i.time[y] == 0
  }

  /** Flow x sends an empty packet and is done with it. */
  lemma SoloSend(c: Config, q: Queue, i: Queue, x: nat, y: nat) returns (q': Queue, i': Queue)
    requires Solo(c, q, i, x, y)
    ensures Solo(c, q', i', x, y) && (Splits(c, q', i', false) ==> Splits(c, q, i, false))
    ensures i'.time[x] == i.time[x] + c.weight
    ensures c.maxTime.Some? ==>
              q'.time[x] == if q.time[x] + c.weight > c.maxTime.value then c.weight else q.time[x] + c.weight
  {
    hide Inv, Step, Enabled, Splits, Queued;
    CanSend(c, q, x, []);
    var q1, i1 := Both(c, q, i, UserSend(x, []), false);
    UserSends(c, q, x, []);
    UserSends(Ideal(c), i, x, []);
    FallBackTop(c, q1);
    FallBackTop(Ideal(c), i1);
    var q2, i2 := Both(c, q1, i1, Execute, false);
    q', i' := SoloServed(c, q2, i2, x, y);
  }

  /** What the user's packet is between being passed on and the queue's idling. */
  lemma SoloServed(c: Config, q: Queue, i: Queue, x: nat, y: nat) returns (q': Queue, i': Queue)
    requires Twins(c, q, i) && q.sending == Some(x) && q.tree == [] && q.previous.None? && q.sendingLen == 0
    requires q.jobs == [Operation(c.out)] && x != y && x in q.time && y in q.time && x != c.out
    requires x in q.input && y in q.input && q.input[y].phase == Idle && q.time[y] == 0 && i.time[y] == 0
    ensures Solo(c, q', i', x, y) && (Splits(c, q', i', false) ==> Splits(c, q, i, false))
    ensures i'.time[x] == i.time[x] + c.weight
    ensures c.maxTime.Some? ==>
              q'.time[x] == if q.time[x] + c.weight > c.maxTime.value then c.weight else q.time[x] + c.weight
  {
    hide Inv, Step, Enabled, Splits, Queued;
    CanExecute(c, q);
    var q1, i1 := Both(c, q, i, Execute, false);
    OutputOperationTop(c, q);
    OutputOperationTop(Ideal(c), i);
    CanComplete(c, q1);
    var q2, i2 := Both(c, q1, i1, OutputComplete, false);
    Completes(c, q1);
    Completes(Ideal(c), i1);
    CanExecute(c, q2);
    var q3, i3 := Both(c, q2, i2, Execute, false);
    OutputDoneTop(c, q2);
    SoloCharged(c, q2, x, y);
    SoloCharged(Ideal(c), i2, x, y);
    CanExecute(c, q3);
    var q4, i4 := Both(c, q3, i3, Execute, false);
    FlowDoneTop(c, q3, x);
    FlowDoneTop(Ideal(c), i3, x);
    CanExecute(c, q4);
    q', i' := Both(c, q4, i4, Execute, false);
    ScheduleIdle(c, q4);
    ScheduleIdle(Ideal(c), i4);
  }

  lemma CanComplete(c: Config, q: Queue)
    requires q.output.phase == Busy
    ensures Enabled(c, q, OutputComplete)
  {
  }

  lemma SoloCharged(c: Config, q: Queue, x: nat, y: nat)
    requires ValidConfig(c) && Inv(c, q) && q.jobs == [Done(c.out)] && q.sending == Some(x) && q.tree == []
    requires q.sendingLen == 0 && x in q.time && y in q.time && x != y && q.time[y] == 0
    ensures var t := Step(c, q, Execute).time;
            && t.Keys == q.time.Keys && t[y] == 0
            && t[x] == if c.maxTime.Some? && q.time[x] + c.weight > c.maxTime.value then c.weight
                       else q.time[x] + c.weight
  {
    hide Roles, Ports, Lifo, Step, Charge;
    CanExecute(c, q);
    ChargeEffect(c, q);
  }

  lemma ScheduleIdle(c: Config, q: Queue)
    requires ValidConfig(c) && Inv(c, q) && q.jobs == [Schedule] && q.tree == []
    ensures Step(c, q, Execute) == q.(previous := None, jobs := [])
  {
    hide Clocks, Roles, Ports, Lifo;
    TopIsExpected(c, q);
    assert q.jobs[1..] == [];
  }

  /** Flow x sends until its clock is rebased; then flow y enters, over which the two queues disagree
      on the lead of x. */
  lemma {:induction false} SoloSplits(c: Config, q: Queue, i: Queue, x: nat, y: nat)
    requires Solo(c, q, i, x, y) && c.maxTime.Some? && y != c.out
    requires i.time[x] == q.time[x] && (q.time[x] == 0 || q.time[x] >= c.weight) && q.time[x] <= c.maxTime.value
    ensures Splits(c, q, i, false)
    decreases c.maxTime.value - q.time[x]
  {
    hide Twins, Splits, Occupied;
    TwinsValid(c, q, i);
    var q', i' := SoloSend(c, q, i, x, y);
    if q.time[x] + c.weight <= c.maxTime.value {
      SoloSplits(c, q', i', x, y);
    } else {
      SecondEnters(c, q', i', x, y);
    }
  }

  lemma TwinsValid(c: Config, q: Queue, i: Queue)
    requires Twins(c, q, i)
    ensures ValidConfig(c)
  {
  }

  lemma BusyOrNot(c: Config, q: Queue, i: Queue)
    requires ValidConfig(c) && Inv(c, q) && Inv(Ideal(c), i) && Splits(c, q, i, true)
    ensures Splits(c, q, i, false)
  {
    hide Inv, Legal, Sends, BusyPeriod;
    var es :| Differs(c, q, i, es, true);
    assert Differs(c, q, i, es, false);
  }

  lemma SecondEnters(c: Config, q: Queue, i: Queue, x: nat, y: nat)
    requires Solo(c, q, i, x, y) && y != c.out && 0 <= q.time[x] && i.time[x] - q.time[x] >= c.weight
    ensures Splits(c, q, i, false)
  {
    hide Inv, Step, Enabled, Splits, Queued;
    CanSend(c, q, y, []);
    var q1, i1 := Both(c, q, i, UserSend(y, []), false);
    UserSends(c, q, y, []);
    UserSends(Ideal(c), i, y, []);
    FallBackTop(c, q1);
    FallBackTop(Ideal(c), i1);
    FallbackShows(c, q1, i1, x);
    var q2, i2 := Both(c, q1, i1, Execute, false);
    BusyOrNot(c, q2, i2);
  }

  lemma NewFlowAdds(c: Config, q: Queue, x: nat)
    requires Inv(c, q) && x !in q.time && x != c.out
    ensures Enabled(c, q, NewFlow(x)) && !Queues(c, q, NewFlow(x))
    ensures Step(c, q, NewFlow(x)) ==
            q.(time := q.time[x := 0], data := q.data[x := []], input := q.input[x := FRESH])
  {
    hide Inv;
  }

  lemma SplitsRun(c: Config, q: Queue, i: Queue) returns (es: seq<Event>)
    requires ValidConfig(c) && Inv(c, q) && Inv(Ideal(c), i) && Splits(c, q, i, false)
    ensures Legal(c, q, es) && Legal(Ideal(c), i, es) && Sends(c, q, es) != Sends(Ideal(c), i, es)
  {
    hide Inv, Legal, Sends;
    es :| Differs(c, q, i, es, false);
  }

  /** For every limit, the one the source ships included, some run from the empty queue with only two
      flows makes the bounded queue and the ideal queue send different packets. */
  lemma FallbackChangesOrder(c: Config)
    requires ValidConfig(c) && c.maxTime.Some?
    ensures Inv(c, EMPTY) && Inv(Ideal(c), EMPTY)
    ensures exists es :: && Legal(c, EMPTY, es) && Legal(Ideal(c), EMPTY, es)
                         && Sends(c, EMPTY, es) != Sends(Ideal(c), EMPTY, es)
  {
    hide Inv, Step, Enabled, Splits, Legal, Sends;
    EmptyInv(c);
    EmptyInv(Ideal(c));
    var x, y := c.out + 1, c.out + 2;
    NewFlowAdds(c, EMPTY, x);
    NewFlowAdds(Ideal(c), EMPTY, x);
    var q1, i1 := Both(c, EMPTY, EMPTY, NewFlow(x), false);
    NewFlowAdds(c, q1, y);
    NewFlowAdds(Ideal(c), i1, y);
    var q2, i2 := Both(c, q1, i1, NewFlow(y), false);
    SoloSplits(c, q2, i2, x, y);
    var es := SplitsRun(c, EMPTY, EMPTY);
  }

  lemma WholeFromEmpty(c: Config, es: seq<Event>)
    requires ValidConfig(c) && Inv(c, EMPTY) && Legal(c, EMPTY, es) && c.mtu == 0
    ensures Whole(c, Run(c, EMPTY, es))
  {
    hide Inv, Multiple;
    RunIsWhole(c, EMPTY, es);
  }

  /** For every limit and every MTU: after any run from the empty queue along which the leads agreed at
      each fall back, the two queues are alike, and at the next fall back the leads decide exactly
      whether they can part. */
  lemma NextFallbackExactly(c: Config, es: seq<Event>)
    requires ValidConfig(c) && Inv(c, EMPTY) && Inv(Ideal(c), EMPTY)
    requires Legal(c, EMPTY, es) && AlignedAlong(c, EMPTY, EMPTY, es)
    ensures Legal(Ideal(c), EMPTY, es) && Sends(Ideal(c), EMPTY, es) == Sends(c, EMPTY, es)
    ensures var q, i := Run(c, EMPTY, es), Run(Ideal(c), EMPTY, es);
            && Twins(c, q, i)
            && (FallsBack(c, q, Execute) ==>
                  (Aligned(q, i, q.jobs[0].i) <==> forall rest :: BusyAfter(c, q, rest) ==> SameOrder(c, q, i, rest)))
  {
    hide Inv, Legal, Run, Sends, AlignedAlong, Aligned, BusyAfter, SameOrder, Whole, FallsBack;
    SameOrderWhenAligned(c, EMPTY, es);
    RunKeepsInv(c, EMPTY, es);
    RunKeepsInv(Ideal(c), EMPTY, es);
    var q, i := Run(c, EMPTY, es), Run(Ideal(c), EMPTY, es);
    if c.mtu == 0 {
      WholeFromEmpty(c, es);
      WholeFromEmpty(Ideal(c), es);
      SameWhole(c, i);
    }
    if FallsBack(c, q, Execute) {
      FallbackExactly(c, q, i);
    }
  }

  lemma SameWhole(c: Config, q: Queue)
    requires ValidConfig(c) && Whole(Ideal(c), q)
    ensures Whole(c, q)
  {
  }
}
