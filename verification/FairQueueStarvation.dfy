/** A queued flow is served after a bounded number of other sends. */
module FairQueueStarvation {
  import opened Basics
  import opened Pending
  import opened FairQueue
  import opened FairQueueSafety
  import opened FairQueueRuns
  import opened FairQueueFairness

  /** How far flow g, once raised to the current time, is behind flow f. */
  function Slack(c: Config, q: Queue, f: nat, g: nat): int
    requires Keys(c, q) && f in q.time && g in q.time
  {
    q.time[f] - Max(q.time[g], Now(c, q))
  }

  /** How often g can still be picked before the queued flow f. */
  function Chances(c: Config, q: Queue, f: nat, g: nat): nat
    requires Keys(c, q) && f in q.time && c.weight > 0
  {
    if g !in q.time || Slack(c, q, f, g) < 0 then 0
    else if q.sending == Some(g) then Slack(c, q, f, g) / c.weight
    else Slack(c, q, f, g) / c.weight + 1
  }

  function Total(c: Config, q: Queue, f: nat, others: seq<nat>): nat
    requires Keys(c, q) && f in q.time && c.weight > 0
  {
    if others == [] then 0 else Chances(c, q, f, others[0]) + Total(c, q, f, others[1..])
  }

  lemma MulMono(a: int, b: int, w: int)
    requires w > 0
    ensures a <= b ==> w * a <= w * b
  {
  }

  lemma DivMono(x: int, y: int, w: int)
    requires w > 0 && x <= y
    ensures x / w <= y / w
  {
    assert w * (y / w + 1) == w * (y / w) + w;
    MulMono(y / w + 1, x / w, w);
  }

  lemma DivDrop(x: int, y: int, w: int)
    requires w > 0 && y <= x - w
    ensures y / w + 1 <= x / w
  {
    assert w * (x / w - 1) == w * (x / w) - w;
    assert w * (x / w + 1) == w * (x / w) + w;
    MulMono(x / w, y / w, w);
  }

  /** While f stays queued, no other flow gets further behind it, and a flow that is charged
      catches up by at least packet_weight. */
  lemma SlackStep(c: Config, q: Queue, e: Event, f: nat, g: nat)
    requires ValidConfig(c) && Inv(c, q) && Enabled(c, q, e) && f != g
    requires f in q.tree && f in q.time && g in q.time
    requires Inv(c, Step(c, q, e)) && f in Step(c, q, e).tree && f in Step(c, q, e).time && g in Step(c, q, e).time
    ensures Slack(c, Step(c, q, e), f, g) <= Slack(c, q, f, g)
    ensures Charged(c, q, e, g) ==>
              0 <= Slack(c, q, f, g) && Slack(c, Step(c, q, e), f, g) <= Slack(c, q, f, g) - c.weight
  {
    hide Inv, Step;
    StillQueued(c, q, e, f);
    ClockStep(c, q, e, g);
    VirtualTimeMonotone(c, q, e);
    if Charged(c, q, e, g) {
      ChargeEffect(c, q);
    }
  }

  lemma StillQueued(c: Config, q: Queue, e: Event, f: nat)
    requires ValidConfig(c) && Inv(c, q) && Enabled(c, q, e)
    requires f in q.tree && f in q.time && f in Step(c, q, e).tree && f in Step(c, q, e).time
    ensures !Charged(c, q, e, f) && !Raised(c, q, e, f)
    ensures Step(c, q, e).time[f] == q.time[f] - Subtracted(c, q, e)
    ensures Occupied(q) && Occupied(Step(c, q, e))
  {
    ClockStep(c, q, e, f);
    if Charges(c, q, e) { ChargeEffect(c, q); }
  }

  /** A flow being sent stays so until it is charged, and a send starts only from rest. */
  lemma SendingStep(c: Config, q: Queue, e: Event)
    requires ValidConfig(c) && Inv(c, q) && Enabled(c, q, e)
    requires q.sending.Some? && Step(c, q, e).sending != q.sending
    ensures Charges(c, q, e) && Step(c, q, e).sending.None?
  {
    hide Clocks, Roles, Ports, Lifo, Set, Without, Charge, Insert, Without;
    if e.Execute? { TopIsExpected(c, q); }
  }

  lemma PickedIsAhead(c: Config, q: Queue, e: Event, f: nat, g: nat)
    requires ValidConfig(c) && Inv(c, q) && Enabled(c, q, e) && f != g
    requires q.sending.None? && Step(c, q, e).sending == Some(g)
    requires Inv(c, Step(c, q, e)) && f in Step(c, q, e).tree && f in Step(c, q, e).time && g in Step(c, q, e).time
    ensures 0 <= Slack(c, Step(c, q, e), f, g)
  {
    hide Inv, Step;
    SendsLeast(c, q, e);
    assert Before(Step(c, q, e).time, g, f);
  }

  lemma ChanceStep(c: Config, q: Queue, e: Event, f: nat, g: nat)
    requires ValidConfig(c) && Inv(c, q) && Enabled(c, q, e) && f != g && !e.NewFlow?
    requires Inv(c, Step(c, q, e)) && f in q.tree && f in q.time && f in Step(c, q, e).tree && f in Step(c, q, e).time
    ensures Chances(c, Step(c, q, e), f, g) <= Chances(c, q, f, g)
    ensures q.sending.None? && Step(c, q, e).sending == Some(g) ==>
              Chances(c, Step(c, q, e), f, g) < Chances(c, q, f, g)
  {
    hide Inv, Step, Now;
    var q' := Step(c, q, e);
    KeysOf(c, q);
    KeysOf(c, q');
    if q'.sending == Some(g) { assert g in q'.time by { SendingIsKey(c, q'); } }
    if g in q'.time {
      KeysStep(c, q, e, g);
      SlackStep(c, q, e, f, g);
      if q.sending.Some? && q'.sending != q.sending { SendingStep(c, q, e); }
      if q.sending.None? && q'.sending == Some(g) { PickedIsAhead(c, q, e, f, g); }
      var x, y := Slack(c, q, f, g), Slack(c, q', f, g);
      if y >= 0 {
        DivMono(y, x, c.weight);
        if Charged(c, q, e, g) { DivDrop(x, y, c.weight); }
      }
    }
  }

  lemma SendingIsKey(c: Config, q: Queue)
    requires Inv(c, q)
    ensures q.sending.Some? ==> q.sending.value in q.time && q.sending.value !in q.tree
  {
    hide Clocks, Roles, Ports, Lifo;
  }

  lemma {:induction false} TotalStep(c: Config, q: Queue, e: Event, f: nat, others: seq<nat>)
    requires ValidConfig(c) && Inv(c, q) && Enabled(c, q, e) && !e.NewFlow? && f !in others
    requires Inv(c, Step(c, q, e)) && f in q.tree && f in q.time && f in Step(c, q, e).tree && f in Step(c, q, e).time
    ensures Total(c, Step(c, q, e), f, others) <= Total(c, q, f, others)
    ensures q.sending.None? && Step(c, q, e).sending.Some? && Step(c, q, e).sending.value in others ==>
              Total(c, Step(c, q, e), f, others) + 1 <= Total(c, q, f, others)
  {
    hide Inv, Step, Chances;
    if others != [] {
      ChanceStep(c, q, e, f, others[0]);
      TotalStep(c, q, e, f, others[1..]);
      assert others == [others[0]] + others[1..];
    }
  }

  /** f is queued in every state of the run, and no flow is created. */
  ghost predicate StaysQueued(c: Config, q: Queue, es: seq<Event>, f: nat)
    requires ValidConfig(c) && Inv(c, q) && Legal(c, q, es)
    decreases es
  {
    f in q.tree && f in q.time &&
    (es == [] || (!es[0].NewFlow? && (StepKeepsInv(c, q, es[0]); StaysQueued(c, Step(c, q, es[0]), es[1..], f))))
  }

  lemma {:induction false} WaitWithin(c: Config, q: Queue, es: seq<Event>, f: nat, others: seq<nat>)
    requires ValidConfig(c) && Inv(c, q) && Legal(c, q, es) && StaysQueued(c, q, es, f)
    requires f !in others && forall g :: g in q.time && g != f ==> g in others
    ensures |Sends(c, q, es)| <= Total(c, q, f, others)
    decreases es
  {
    hide Inv, Step, Total, Enabled;
    if es != [] {
      StepKeepsInv(c, q, es[0]);
      var q' := Step(c, q, es[0]);
      TotalStep(c, q, es[0], f, others);
      forall g | g in q'.time && g != f ensures g in others { KeysStep(c, q, es[0], g); }
      SendingIsKey(c, q');
      WaitWithin(c, q', es[1..], f, others);
    }
  }

  lemma {:induction false} TotalBound(c: Config, q: Queue, f: nat, others: seq<nat>)
    requires ValidConfig(c) && Inv(c, q) && f in q.tree && f in q.time && Now(c, q) <= q.time[f]
    ensures Total(c, q, f, others) <= |others| * ((q.time[f] - Now(c, q)) / c.weight + 1)
  {
    hide Inv, Now;
    KeysOf(c, q);
    if others != [] {
      var d := q.time[f] - Now(c, q);
      var g := others[0];
      DivMono(0, d, c.weight);
      if g in q.time && Slack(c, q, f, g) >= 0 { DivMono(Slack(c, q, f, g), d, c.weight); }
      assert Chances(c, q, f, g) <= d / c.weight + 1;
      TotalBound(c, q, f, others[1..]);
      var k := d / c.weight + 1;
      assert |others| * k == |others[1..]| * k + k;
    }
  }

  ghost function Enumerate(s: set<nat>): (r: seq<nat>)
    ensures |r| == |s| && forall x :: x in r <==> x in s
  {
    if s == {} then [] else
    var x :| x in s;
    [x] + Enumerate(s - {x})
  }

  /** No starvation: as long as a flow waits in the queue and no flow is created, the number of
      other sends is bounded by the number of other flows times how far its clock is ahead of the
      current time, in units of packet_weight, plus one. Enqueues, rebasing, cancellation and
      freeing of other flows do not add to the bound. */
  lemma NoStarvation(c: Config, q: Queue, es: seq<Event>, f: nat)
    requires ValidConfig(c) && Inv(c, q) && Legal(c, q, es) && StaysQueued(c, q, es, f)
    ensures Now(c, q) <= q.time[f]
    ensures |Sends(c, q, es)| <= (|q.time| - 1) * ((q.time[f] - Now(c, q)) / c.weight + 1)
  {
    hide Inv, Step, Enabled;
    NowIsLeast(c, q);
    var s := q.time.Keys - {f};
    assert |s| == |q.time| - 1;
    var others := Enumerate(s);
    WaitWithin(c, q, es, f, others);
    TotalBound(c, q, f, others);
  }
}
