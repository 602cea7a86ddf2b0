/** Virtual time and weighted fairness of the fair queue. */
module FairQueueFairness {
  import opened Basics
  import opened Pending
  import opened PassInterface
  import opened FairQueue
  import opened FairQueueSafety
  import opened FairQueueRuns

  /** A flow that takes part: queued, being sent, or remembered as just finished. */
  predicate Active(q: Queue, a: nat) {
    a in q.tree || q.sending == Some(a) || q.previous == Some(a)
  }

  predicate Occupied(q: Queue) {
    q.tree != [] || q.sending.Some? || q.previous.Some?
  }

  /** The step charges the flow that was being sent. */
  predicate Charges(c: Config, q: Queue, e: Event) {
    e.Execute? && q.jobs != [] && q.jobs[0] == Done(c.out)
  }

  /** The step charges flow a. */
  predicate Charged(c: Config, q: Queue, e: Event, a: nat) {
    Charges(c, q, e) && q.sending == Some(a)
  }

  /** The step queues a, which was not taking part. */
  predicate Raised(c: Config, q: Queue, e: Event, a: nat) {
    e.Execute? && q.jobs != [] && q.jobs[0] == Operation(a) && a != c.out && q.previous != Some(a)
  }

  /** The amount the step takes off all clocks. */
  function Subtracted(c: Config, q: Queue, e: Event): int
    requires Keys(c, q)
  {
    if Charges(c, q, e) && q.sending.Some? then
      Rebase(c, q.time, q.tree, q.sending.value, c.weight + q.sendingLen)
    else 0
  }

  function Max(x: int, y: int): int {
    if x > y then x else y
  }

  function Abs(x: int): int {
    if x < 0 then -x else x
  }

  lemma ChargeClocks(c: Config, q: Queue, f: nat)
    requires ValidConfig(c) && Keys(c, q) && Clocks(c, q.time, q.tree, q.sending) && q.sending == Some(f)
             && f !in q.tree
    requires 0 <= q.sendingLen <= c.mtu
    ensures var time := Charge(c, q.time, q.tree, f, c.weight + q.sendingLen);
            var s := Rebase(c, q.time, q.tree, f, c.weight + q.sendingLen);
            && time.Keys == q.time.Keys && 0 <= s
            && time[f] == q.time[f] - s + c.weight + q.sendingLen
            && (forall a :: a in q.time && a != f ==> time[a] == Max(0, q.time[a] - s))
            && (forall b :: b in q.tree ==> s <= q.time[b] && q.time[f] <= q.time[b])
  {
    ChargeExact(c, q.time, q.tree, f, c.weight + q.sendingLen);
  }

  lemma ChargeEffect(c: Config, q: Queue)
    requires ValidConfig(c) && Inv(c, q) && Enabled(c, q, Execute) && q.jobs[0] == Done(c.out)
    ensures var q' := Step(c, q, Execute);
            var s := Subtracted(c, q, Execute);
            && q.sending.Some? && q.previous.None? && q'.previous == q.sending && q'.sending.None? && q'.tree == q.tree
            && q'.time.Keys == q.time.Keys && 0 <= s && 0 <= q.sendingLen <= c.mtu
            && q'.time[q.sending.value] == q.time[q.sending.value] - s + c.weight + q.sendingLen
            && (forall a :: a in q.time && a != q.sending.value ==> q'.time[a] == Max(0, q.time[a] - s))
            && (forall b :: b in q.tree ==> s <= q.time[b] && q.time[q.sending.value] <= q.time[b])
  {
    hide Clocks, Ports, Roles, Lifo, Charge, Rebase, Finish, Set;
    TopIsExpected(c, q);
    RoleOf(c, q, q.sending.value);
    ChargeClocks(c, q, q.sending.value);
  }

  lemma RaiseEffect(c: Config, q: Queue, a: nat)
    requires ValidConfig(c) && Inv(c, q) && Enabled(c, q, Execute) && q.jobs[0] == Operation(a) && a != c.out
    ensures var q' := Step(c, q, Execute);
            && a in q.time && a !in q.tree && q.sending != Some(a)
            && q'.time == (if q.previous == Some(a) then q.time else q.time[a := Max(q.time[a], Now(c, q))])
            && (forall b :: Active(q', b) ==> Active(q, b) || b == a)
  {
    hide Clocks, Roles, Ports, Lifo, Over, Insert;
    EnqueueKeeps(c, q, a);
  }

  lemma OtherEffect(c: Config, q: Queue, e: Event)
    requires ValidConfig(c) && Inv(c, q) && Enabled(c, q, e)
    requires e.Execute? ==> q.jobs[0] != Done(c.out) && (q.jobs[0].Operation? ==> q.jobs[0].i == c.out)
    ensures var q' := Step(c, q, e);
            && (forall a :: a in q.time && a in q'.time ==> q'.time[a] == q.time[a])
            && (forall b :: Active(q', b) ==> Active(q, b))
  {
    match e
    case Execute => if q.jobs[0] == Schedule && q.tree != [] { HeadLeaves(q.time, q.tree); }
    case FreeFlow(a) => WithoutSorted(q.time, q.tree, a);
    case _ =>
  }

  /** What one step does to one clock, whatever the step. */
  lemma ClockStep(c: Config, q: Queue, e: Event, a: nat)
    requires ValidConfig(c) && Inv(c, q) && Enabled(c, q, e)
    requires a in q.time && a in Step(c, q, e).time
    ensures var q' := Step(c, q, e);
            var s := Subtracted(c, q, e);
            && 0 <= s
            && (Charged(c, q, e, a) ==>
                  q'.time[a] == q.time[a] - s + c.weight + q.sendingLen && 0 <= q.sendingLen <= c.mtu)
            && (Raised(c, q, e, a) ==>
                  !Active(q, a) && s == 0 && q'.time[a] == Max(q.time[a], Now(c, q)))
            && (!Charged(c, q, e, a) && !Raised(c, q, e, a) ==> q'.time[a] == Max(0, q.time[a] - s))
            && (a in q.tree ==> s <= q.time[a])
            && (Active(q', a) ==> Active(q, a) || Raised(c, q, e, a))
  {
    if Charges(c, q, e) {
      ChargeEffect(c, q);
    } else if e.Execute? && q.jobs[0].Operation? && q.jobs[0].i != c.out {
      RaiseEffect(c, q, q.jobs[0].i);
    } else {
      OtherEffect(c, q, e);
    }
  }

  /** The current time is the least clock among the flows that take part. */
  lemma NowIsLeast(c: Config, q: Queue)
    requires ValidConfig(c) && Inv(c, q) && Occupied(q)
    ensures forall a :: a in q.time && Active(q, a) ==> Now(c, q) <= q.time[a]
    ensures exists a :: a in q.time && Active(q, a) && Now(c, q) == q.time[a]
  {
    if q.sending.Some? {
      assert Active(q, q.sending.value);
    } else {
      forall a | a in q.tree ensures q.time[q.tree[0]] <= q.time[a] {
        var k :| 0 <= k < |q.tree| && q.tree[k] == a;
        if k > 0 { assert Before(q.time, q.tree[0], q.tree[k]); }
      }
      if q.previous.Some? { assert Active(q, q.previous.value); }
      if q.tree != [] { assert Active(q, q.tree[0]); }
    }
  }

  lemma KeysStep(c: Config, q: Queue, e: Event, a: nat)
    requires ValidConfig(c) && Inv(c, q) && Enabled(c, q, e) && a in Step(c, q, e).time
    ensures a in q.time || e == NewFlow(a)
    ensures Active(Step(c, q, e), a) ==> a in q.time
  {
    if Charges(c, q, e) {
      ChargeEffect(c, q);
    } else if e.Execute? && q.jobs[0].Operation? && q.jobs[0].i != c.out {
      RaiseEffect(c, q, q.jobs[0].i);
    } else if !e.FreeFlow? {
    }
  }

  lemma NotBehind(c: Config, q: Queue, e: Event, a: nat)
    requires ValidConfig(c) && Inv(c, q) && Enabled(c, q, e) && Occupied(q)
    requires a in Step(c, q, e).time && Active(Step(c, q, e), a)
    ensures Step(c, q, e).time[a] + Subtracted(c, q, e) >= Now(c, q)
  {
    KeysStep(c, q, e, a);
    ClockStep(c, q, e, a);
    NowIsLeast(c, q);
  }

  /** Virtual time, corrected by what a rebase subtracts, never runs backwards while the queue is
      busy; so a flow that joins late cannot be placed behind the service point. */
  lemma VirtualTimeMonotone(c: Config, q: Queue, e: Event)
    requires ValidConfig(c) && Inv(c, q) && Enabled(c, q, e)
    requires Occupied(q) && Occupied(Step(c, q, e))
    ensures Inv(c, Step(c, q, e)) && Now(c, Step(c, q, e)) + Subtracted(c, q, e) >= Now(c, q)
  {
    StepKeepsInv(c, q, e);
    var q' := Step(c, q, e);
    NowIsLeast(c, q');
    var a :| a in q'.time && Active(q', a) && Now(c, q') == q'.time[a];
    NotBehind(c, q, e, a);
  }

  // ---- Fairness between two flows that stay backlogged ----

  /** Flow f takes part in every state of the run. */
  ghost predicate Backlogged(c: Config, q: Queue, es: seq<Event>, f: nat)
    requires ValidConfig(c) && Inv(c, q) && Legal(c, q, es)
    decreases es
  {
    f in q.time && Active(q, f) &&
    (es == [] || (StepKeepsInv(c, q, es[0]); Backlogged(c, Step(c, q, es[0]), es[1..], f)))
  }

  /** The weight flow f is charged in one step: packet_weight plus the length sent. */
  function Charge1(c: Config, q: Queue, e: Event, f: nat): int {
    if Charged(c, q, e, f) then c.weight + q.sendingLen else 0
  }

  /** The weighted service flow f receives along a run. */
  ghost function Service(c: Config, q: Queue, es: seq<Event>, f: nat): int
    requires ValidConfig(c) && Inv(c, q) && Legal(c, q, es)
    decreases es
  {
    if es == [] then 0 else
    StepKeepsInv(c, q, es[0]);
    Charge1(c, q, es[0], f) + Service(c, Step(c, q, es[0]), es[1..], f)
  }

  lemma GapStep(c: Config, q: Queue, e: Event, f: nat, g: nat)
    requires ValidConfig(c) && Inv(c, q) && Enabled(c, q, e)
    requires f in q.time && g in q.time && Active(q, f) && Active(q, g) && f != g
    requires f in Step(c, q, e).time && g in Step(c, q, e).time
    ensures var q' := Step(c, q, e);
            && q'.time[f] - q'.time[g] == q.time[f] - q.time[g] + Charge1(c, q, e, f) - Charge1(c, q, e, g)
            && Abs(q'.time[f] - q'.time[g]) <= Max(Abs(q.time[f] - q.time[g]), c.weight + c.mtu)
  {
    hide Inv, Step, Enabled, Subtracted, Keys;
    KeysOf(c, q);
    ClockStep(c, q, e, f);
    ClockStep(c, q, e, g);
    NotAhead(c, q, e, f);
    NotAhead(c, q, e, g);
  }

  /** When a flow is charged, it is not ahead of any that takes part, and nobody runs below zero. */
  lemma NotAhead(c: Config, q: Queue, e: Event, f: nat)
    requires ValidConfig(c) && Inv(c, q) && Enabled(c, q, e) && Keys(c, q) && f in q.time && Active(q, f)
    ensures !Charged(c, q, e, f) ==> Subtracted(c, q, e) <= q.time[f]
    ensures Charges(c, q, e) && q.sending.Some? && q.sending.value in q.time ==> q.time[q.sending.value] <= q.time[f]
  {
    hide Clocks, Roles, Ports, Lifo, Rebase, Step;
    if Charges(c, q, e) {
      ChargeEffect(c, q);
    } else {
      NotNegative(c, q, f);
    }
  }

  lemma NotNegative(c: Config, q: Queue, b: nat)
    requires Inv(c, q) && b in q.time
    ensures 0 <= q.time[b]
  {
  }

  /** Two flows that stay backlogged: the gap between their clocks never exceeds the larger of
      the starting gap and one maximal packet, and the clocks measure service exactly. */
  lemma {:induction false} BackloggedGap(c: Config, q: Queue, es: seq<Event>, f: nat, g: nat)
    requires ValidConfig(c) && Inv(c, q) && Legal(c, q, es) && f != g
    requires Backlogged(c, q, es, f) && Backlogged(c, q, es, g)
    ensures var t := Run(c, q, es);
            && f in t.time && g in t.time
            && Abs(t.time[f] - t.time[g]) <= Max(Abs(q.time[f] - q.time[g]), c.weight + c.mtu)
            && t.time[f] - t.time[g] == q.time[f] - q.time[g] + Service(c, q, es, f) - Service(c, q, es, g)
    decreases es
  {
    hide Step, Inv, Enabled;
    if es != [] {
      StepKeepsInv(c, q, es[0]);
      GapStep(c, q, es[0], f, g);
      BackloggedGap(c, Step(c, q, es[0]), es[1..], f, g);
    }
  }

  /** Weighted fairness: over any stretch in which both stay backlogged, two flows are served
      alike up to the starting gap plus the larger of that gap and one maximal packet. */
  lemma FairShare(c: Config, q: Queue, es: seq<Event>, f: nat, g: nat)
    requires ValidConfig(c) && Inv(c, q) && Legal(c, q, es) && f != g
    requires Backlogged(c, q, es, f) && Backlogged(c, q, es, g)
    ensures var gap := Abs(q.time[f] - q.time[g]);
            Abs(Service(c, q, es, f) - Service(c, q, es, g)) <= gap + Max(gap, c.weight + c.mtu)
  {
    hide Step, Inv, Enabled;
    BackloggedGap(c, q, es, f, g);
  }

  // ---- The share of a flow that stays backlogged, against one that comes and goes ----

  /** The clock with which flow g takes part from now on. */
  function Level(c: Config, q: Queue, g: nat): int
    requires Keys(c, q) && g in q.time
  {
    Max(q.time[g], Now(c, q))
  }

  lemma LevelStep(c: Config, q: Queue, e: Event, f: nat, g: nat)
    requires ValidConfig(c) && Inv(c, q) && Enabled(c, q, e) && f != g
    requires f in q.time && Active(q, f) && f in Step(c, q, e).time && Active(Step(c, q, e), f)
    requires g in q.time && g in Step(c, q, e).time
    ensures var q' := Step(c, q, e);
            && Keys(c, q) && Keys(c, q')
            && q'.time[f] == q.time[f] - Subtracted(c, q, e) + Charge1(c, q, e, f)
            && Level(c, q', g) >= Level(c, q, g) - Subtracted(c, q, e) + Charge1(c, q, e, g)
            && 0 <= Charge1(c, q, e, g) <= c.weight + c.mtu && 0 <= Charge1(c, q, e, f)
            && (Charged(c, q, e, g) ==> Level(c, q, g) <= q.time[f])
  {
    hide Inv, Step, Enabled, Subtracted, Keys, Now;
    KeysOf(c, q);
    StepKeepsInv(c, q, e);
    KeysOf(c, Step(c, q, e));
    ClockStep(c, q, e, f);
    ClockStep(c, q, e, g);
    NotAhead(c, q, e, f);
    TakesPart(q, f);
    TakesPart(Step(c, q, e), f);
    VirtualTimeMonotone(c, q, e);
    SenderIsNow(c, q, e, g);
  }

  lemma TakesPart(q: Queue, f: nat)
    requires Active(q, f)
    ensures Occupied(q)
  {
  }

  /** The current time is the clock of the flow that is charged. */
  lemma SenderIsNow(c: Config, q: Queue, e: Event, g: nat)
    requires Keys(c, q) && g in q.time
    ensures Charged(c, q, e, g) ==> Now(c, q) == q.time[g]
  {
  }

  /** While flow f stays backlogged, no flow g gets ahead of it, however it leaves and returns: g is
      served at most as much as f and the lead f had over the clock with which g takes part, and one
      maximal packet. */
  lemma {:induction false} OneSidedShare(c: Config, q: Queue, es: seq<Event>, f: nat, g: nat)
    requires ValidConfig(c) && Inv(c, q) && Legal(c, q, es) && f != g
    requires Backlogged(c, q, es, f) && g in q.time && FreeFlow(g) !in es
    ensures Keys(c, q) && 0 <= Service(c, q, es, f)
    ensures Service(c, q, es, g) <=
            Max(0, Service(c, q, es, f) + q.time[f] - Level(c, q, g) + c.weight + c.mtu)
    decreases es
  {
    hide Step, Inv, Enabled, Subtracted, Level, Charge1;
    KeysOf(c, q);
    if es != [] {
      StepKeepsInv(c, q, es[0]);
      StaysThere(c, q, es[0], g);
      StartsBacklogged(c, Step(c, q, es[0]), es[1..], f);
      LevelStep(c, q, es[0], f, g);
      OneSidedShare(c, Step(c, q, es[0]), es[1..], f, g);
      ChargeOrNot(c, q, es[0], g);
    }
  }

  lemma ChargeOrNot(c: Config, q: Queue, e: Event, g: nat)
    ensures !Charged(c, q, e, g) ==> Charge1(c, q, e, g) == 0
  {
  }

  lemma StartsBacklogged(c: Config, q: Queue, es: seq<Event>, f: nat)
    requires ValidConfig(c) && Inv(c, q) && Legal(c, q, es) && Backlogged(c, q, es, f)
    ensures f in q.time && Active(q, f)
  {
  }

  /** A flow is there until it is freed. */
  lemma StaysThere(c: Config, q: Queue, e: Event, g: nat)
    requires ValidConfig(c) && Inv(c, q) && Enabled(c, q, e) && g in q.time && e != FreeFlow(g)
    ensures g in Step(c, q, e).time
  {
    if Charges(c, q, e) {
      ChargeEffect(c, q);
    } else if e.Execute? && q.jobs[0].Operation? && q.jobs[0].i != c.out {
      RaiseEffect(c, q, q.jobs[0].i);
    }
  }
}
