/** The fair queue comes to rest: left to itself and to the provider behind it, it makes a bounded number
    of steps, and then everything submitted has been passed on and acknowledged. */
module FairQueueProgress {
  import opened Basics
  import opened Pending
  import opened PassInterface
  import opened FairQueue
  import opened FairQueueSafety
  import opened FairQueueRuns
  import opened FairQueueHistory

  /** The users of flows and other components; the provider's done is not among them. */
  predicate FromOutside(e: Event) {
    !e.Execute? && !e.OutputComplete?
  }

  /** What a pending job can still lead to: a packet on its way in will be queued, sent, taken by the
      provider, charged and acknowledged, and the next one scheduled. */
  function Weight(c: Config, j: Job): nat {
    if j.Operation? && j.i != c.out then 6 else 1
  }

  function Pendings(c: Config, jobs: seq<Job>): nat {
    if jobs == [] then 0 else Weight(c, jobs[0]) + Pendings(c, jobs[1..])
  }

  function Sending(p: Phase): nat {
    match p
    case Idle => 0
    case OperationPending => 4
    case Busy => 4
    case DonePending => 2
  }

  function Work(c: Config, q: Queue): nat {
    Pendings(c, q.jobs) + 5 * |q.tree| + Sending(q.output.phase)
  }

  lemma {:induction false} WithoutLighter(c: Config, jobs: seq<Job>, x: Job)
    ensures Pendings(c, Without(jobs, x)) <= Pendings(c, jobs)
  {
    if jobs != [] && jobs[0] != x {
      WithoutLighter(c, jobs[1..], x);
      assert ([jobs[0]] + Without(jobs[1..], x))[1..] == Without(jobs[1..], x);
    }
  }

  lemma SetAdds(c: Config, jobs: seq<Job>, x: Job)
    ensures Pendings(c, Set(jobs, x)) <= Pendings(c, jobs) + Weight(c, x)
  {
    WithoutLighter(c, jobs, x);
    assert Set(jobs, x)[1..] == Without(jobs, x);
  }

  lemma {:induction false} InsertGrows(time: map<nat, int>, tree: seq<nat>, a: nat)
    requires a in time && forall b :: b in tree ==> b in time
    ensures |Insert(time, tree, a)| == |tree| + 1
  {
    if tree != [] && !Before(time, a, tree[0]) {
      assert tree == [tree[0]] + tree[1..];
      InsertGrows(time, tree[1..], a);
    }
  }

  lemma TopWeighs(c: Config, q: Queue)
    requires q.jobs != []
    ensures Pendings(c, q.jobs) == Weight(c, q.jobs[0]) + Pendings(c, q.jobs[1..])
  {
  }

  lemma OperationWorks(c: Config, q: Queue, a: nat)
    requires ValidConfig(c) && Inv(c, q) && q.jobs != [] && q.jobs[0] == Operation(a) && a != c.out
    ensures Work(c, RunTop(c, q)) < Work(c, q)
  {
    hide Clocks, Roles, Ports, Lifo, Over, Insert, Set;
    EnqueueKeeps(c, q, a);
    TopWeighs(c, q);
    var r := Enqueue(c, Entering(q, a), a, q.input[a].packet);
    InsertGrows(r.time, q.tree, a);
    SetAdds(c, r.jobs, Operation(c.out));
  }

  lemma OutputDoneWorks(c: Config, q: Queue)
    requires ValidConfig(c) && Inv(c, q) && q.jobs != [] && q.jobs[0] == Done(c.out)
    ensures Work(c, RunTop(c, q)) < Work(c, q)
  {
    hide Clocks, Roles, Ports, Lifo, Charge, Set, Without;
    TopIsExpected(c, q);
    TopWeighs(c, q);
    var f, rest := q.sending.value, q.jobs[1..];
    SetAdds(c, rest, Schedule);
    WithoutLighter(c, Set(rest, Schedule), RequestCancel(f));
    SetAdds(c, Without(Set(rest, Schedule), RequestCancel(f)), Done(f));
  }

  lemma ScheduleWorks(c: Config, q: Queue)
    requires ValidConfig(c) && Inv(c, q) && q.jobs != [] && q.jobs[0] == Schedule
    ensures Work(c, RunTop(c, q)) < Work(c, q)
  {
    hide Clocks, Roles, Ports, Lifo, Set;
    TopIsExpected(c, q);
    TopWeighs(c, q);
    SetAdds(c, q.jobs[1..], Operation(c.out));
  }

  lemma QuietWorks(c: Config, q: Queue)
    requires ValidConfig(c) && Inv(c, q) && q.jobs != [] && q.jobs[0] != Schedule && q.jobs[0] != Done(c.out)
    requires q.jobs[0].Operation? ==> q.jobs[0].i == c.out
    ensures Work(c, RunTop(c, q)) < Work(c, q)
  {
    hide Clocks, Roles, Ports, Lifo, InputSend, OutputDone, ScheduleHandler;
    TopIsExpected(c, q);
    TopWeighs(c, q);
  }

  lemma CompleteWorks(c: Config, q: Queue)
    requires ValidConfig(c) && Inv(c, q) && Enabled(c, q, OutputComplete)
    ensures Work(c, Step(c, q, OutputComplete)) < Work(c, q)
  {
    hide Inv, Set, Without;
    WithoutLighter(c, q.jobs, RequestCancel(c.out));
    SetAdds(c, Without(q.jobs, RequestCancel(c.out)), Done(c.out));
  }

  /** Every step that is not from outside leaves less work. */
  lemma StepWorks(c: Config, q: Queue, e: Event)
    requires ValidConfig(c) && Inv(c, q) && Enabled(c, q, e) && !FromOutside(e)
    ensures Work(c, Step(c, q, e)) < Work(c, q)
  {
    hide Inv, RunTop, Work;
    if e.OutputComplete? {
      CompleteWorks(c, q);
    } else if q.jobs[0] == Schedule {
      ScheduleWorks(c, q);
    } else if q.jobs[0] == Done(c.out) {
      OutputDoneWorks(c, q);
    } else if q.jobs[0].Operation? && q.jobs[0].i != c.out {
      OperationWorks(c, q, q.jobs[0].i);
    } else {
      QuietWorks(c, q);
    }
  }

  /** Only the outside can go on. */
  ghost predicate AtRest(c: Config, q: Queue) {
    forall e :: Enabled(c, q, e) ==> FromOutside(e)
  }

  /** At rest nothing is queued, sending or remembered, and every flow is idle. */
  lemma RestIsIdle(c: Config, q: Queue)
    requires ValidConfig(c) && Inv(c, q) && AtRest(c, q)
    ensures q.jobs == [] && q.tree == [] && q.sending.None? && q.previous.None? && q.output.phase == Idle
    ensures forall a :: a in q.input ==> q.input[a].phase == Idle
  {
    hide Clocks, Lifo;
    assert !Enabled(c, q, Execute) && !Enabled(c, q, OutputComplete);
    forall a | a in q.input ensures q.input[a].phase == Idle {
      assert Linked(q.input[a], a, q.jobs);
      assert Role(c, q.input[a], q.data[a], a in q.tree || q.sending == Some(a));
    }
  }

  /** A run without the outside has at most Work(q) steps; where it cannot be continued, the queue is
      idle. */
  lemma {:induction false} RunsDown(c: Config, q: Queue, es: seq<Event>)
    requires ValidConfig(c) && Inv(c, q) && Legal(c, q, es) && forall e :: e in es ==> !FromOutside(e)
    ensures |es| <= Work(c, q)
    ensures var t := Run(c, q, es);
            AtRest(c, t) ==>
              && t.jobs == [] && t.tree == [] && t.sending.None? && t.previous.None?
              && forall a :: a in t.input ==> t.input[a].phase == Idle
    decreases es
  {
    hide Inv, Step, Work, Enabled, AtRest, FromOutside;
    if es == [] {
      if AtRest(c, q) { RestIsIdle(c, q); }
    } else {
      StepKeepsInv(c, q, es[0]);
      StepWorks(c, q, es[0]);
      RunsDown(c, Step(c, q, es[0]), es[1..]);
    }
  }

  /** Where a run from the empty queue can only be continued from outside, every flow has had all its
      packets passed on, in order, with one done for each. */
  lemma AllPassed(c: Config, es: seq<Event>, a: nat)
    requires ValidConfig(c) && Legal(c, EMPTY, es) && AtRest(c, Run(c, EMPTY, es))
    requires a in Run(c, EMPTY, es).time
    ensures Balanced(EMPTY, NO_HISTORY)
    ensures var h := RunHistory(c, EMPTY, NO_HISTORY, es);
            && a in h.submitted && a in h.passed && a in h.dones
            && h.passed[a] == h.submitted[a] && h.dones[a] == |h.submitted[a]|
  {
    hide Inv, AtRest, Enabled, Legal, Run, RunHistory;
    EmptyInv(c);
    RunKeepsInv(c, EMPTY, es);
    RestIsIdle(c, Run(c, EMPTY, es));
    RunConserves(c, es, a);
  }
}
