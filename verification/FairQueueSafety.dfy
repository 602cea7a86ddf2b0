/** Every run of the fair queue keeps its invariant, so no assertion in its handlers can fail. */
module FairQueueSafety {
  import opened Basics
  import opened Pending
  import opened PassInterface
  import opened FairQueue

  lemma {:induction false} InsertSorted(time: map<nat, int>, tree: seq<nat>, a: nat)
    requires a in time && forall b :: b in tree ==> b in time
    requires Sorted(time, tree) && a !in tree
    ensures Sorted(time, Insert(time, tree, a))
  {
    if tree == [] {
    } else if Before(time, a, tree[0]) {
      assert ([a] + tree)[1..] == tree;
    } else {
      InsertSorted(time, tree[1..], a);
      var r := Insert(time, tree[1..], a);
      assert Insert(time, tree, a) == [tree[0]] + r;
      forall k | 0 <= k < |r| ensures Before(time, tree[0], r[k]) {
        assert r[k] in r;
        assert r[k] in tree[1..] || r[k] == a;
      }
    }
  }

  lemma {:induction false} WithoutSorted(time: map<nat, int>, tree: seq<nat>, a: nat)
    requires forall b :: b in tree ==> b in time
    requires Sorted(time, tree)
    ensures forall b :: b in Without(tree, a) <==> b in tree && b != a
    ensures Sorted(time, Without(tree, a))
  {
    if tree == [] {
    } else if tree[0] == a {
    } else {
      WithoutSorted(time, tree[1..], a);
      var r := Without(tree[1..], a);
      assert Without(tree, a) == [tree[0]] + r;
      assert tree == [tree[0]] + tree[1..];
      forall k | 0 <= k < |r| ensures Before(time, tree[0], r[k]) {
        assert r[k] in r;
      }
    }
  }

  /** Charging the flow that was sent is exact: its clock is the true integer
      time - subtract + amount, in range, although the machine may go below zero and wrap back;
      every other clock loses the same amount but not more than it has; and no queued clock has
      less than that, so the search tree stays in order while its keys change. */
  lemma ChargeExact(c: Config, time: map<nat, int>, tree: seq<nat>, f: nat, amount: int)
    requires ValidConfig(c) && f in time && f !in tree
    requires forall a :: a in tree ==> a in time
    requires forall a :: a in time ==> 0 <= time[a] && (c.maxTime.Some? ==> time[a] <= c.maxTime.value)
    requires Sorted(time, tree) && forall b :: b in tree ==> time[f] <= time[b]
    requires 0 <= amount && (c.maxTime.Some? ==> amount <= c.maxTime.value)
    ensures var t := Charge(c, time, tree, f, amount);
            var s := Rebase(c, time, tree, f, amount);
            && t.Keys == time.Keys && 0 <= s
            && t[f] == time[f] - s + amount && 0 <= t[f] && (c.maxTime.Some? ==> t[f] <= c.maxTime.value)
            && (forall a :: a in time && a != f ==> t[a] == if time[a] < s then 0 else time[a] - s)
            && (forall b :: b in tree ==> s <= time[b])
            && Sorted(t, tree)
            && (c.maxTime.None? || time[f] + amount <= c.maxTime.value ==> s == 0)
  {
  }

  /** When the clock of f would pass the limit and something is queued, the queued flow with the
      least clock ends up at zero. */
  lemma RebaseReachesZero(c: Config, time: map<nat, int>, tree: seq<nat>, f: nat, amount: int)
    requires ValidConfig(c) && f in time && f !in tree && c.maxTime.Some?
    requires forall a :: a in tree ==> a in time
    requires forall a :: a in time ==> 0 <= time[a] <= c.maxTime.value
    requires Sorted(time, tree) && forall b :: b in tree ==> time[f] <= time[b]
    requires 0 <= amount <= c.maxTime.value
    requires time[f] + amount > c.maxTime.value
    ensures var t := Charge(c, time, tree, f, amount);
            if tree == [] then t[f] == amount else t[tree[0]] == 0 && t[f] <= amount
  {
    ChargeExact(c, time, tree, f, amount);
  }

  lemma DoScheduleClocks(c: Config, q: Queue)
    requires Keys(c, q) && Clocks(c, q.time, q.tree, q.sending) && q.sending.None? && q.previous.None? && q.tree != []
    requires q.output.phase == Idle && |q.data[q.tree[0]]| <= c.mtu
    ensures var r := DoSchedule(c, q);
            Keys(c, r) && Clocks(c, r.time, r.tree, r.sending)
  {
    var r := DoSchedule(c, q);
    forall b | b in r.tree ensures b in q.tree && q.time[r.sending.value] <= q.time[b] {
      var k :| 0 <= k < |r.tree| && r.tree[k] == b;
      assert q.tree[k + 1] == b;
    }
  }

  lemma OutputPort(c: Config, input: map<nat, Iface>, output: Iface, jobs: seq<Job>, output': Iface, jobs': seq<Job>)
    requires Ports(c, input, output, jobs) && c.out !in input
    requires Distinct(jobs') && Linked(output', c.out, jobs')
    requires forall j :: !Own(j, c.out) ==> (j in jobs' <==> j in jobs)
    ensures Ports(c, input, output', jobs')
  {
    forall a | a in input ensures Linked(input[a], a, jobs') {
      assert Linked(input[a], a, jobs);
      assert !Own(Operation(a), c.out) && !Own(RequestCancel(a), c.out) && !Own(Done(a), c.out);
    }
    forall j | j in jobs' ensures Known(c, input, j) {
      if !Own(j, c.out) { assert j in jobs; }
    }
  }

  lemma InputPort(c: Config, input: map<nat, Iface>, output: Iface, jobs: seq<Job>, a: nat, i: Iface, jobs': seq<Job>)
    requires Ports(c, input, output, jobs) && a != c.out
    requires Distinct(jobs') && Linked(i, a, jobs') && !i.cancelRequested
    requires forall j :: !Own(j, a) ==> (j in jobs' <==> j in jobs)
    ensures Ports(c, input[a := i], output, jobs')
  {
    var input' := input[a := i];
    forall b | b in input' ensures Linked(input'[b], b, jobs') && !input'[b].cancelRequested {
      if b != a {
        assert Linked(input[b], b, jobs);
        assert !Own(Operation(b), a) && !Own(RequestCancel(b), a) && !Own(Done(b), a);
      }
    }
    assert !Own(Operation(c.out), a) && !Own(RequestCancel(c.out), a) && !Own(Done(c.out), a);
    forall j | j in jobs' ensures Known(c, input', j) {
      if !Own(j, a) { assert j in jobs; assert Known(c, input, j); }
    }
  }

  /** Jobs that belong to no interface may come and go. */
  lemma ForeignJobs(c: Config, input: map<nat, Iface>, output: Iface, jobs: seq<Job>, jobs': seq<Job>)
    requires Ports(c, input, output, jobs) && Distinct(jobs')
    requires forall j: Job :: !j.Schedule? && !j.Other? ==> (j in jobs' <==> j in jobs)
    ensures Ports(c, input, output, jobs')
  {
    forall a | a in input ensures Linked(input[a], a, jobs') {
      assert Linked(input[a], a, jobs);
      assert !Operation(a).Schedule? && !RequestCancel(a).Schedule? && !Done(a).Schedule?;
    }
    assert !Operation(c.out).Schedule? && !RequestCancel(c.out).Schedule? && !Done(c.out).Schedule?;
    forall j | j in jobs' ensures Known(c, input, j) {
      if !j.Schedule? && !j.Other? { assert j in jobs; }
    }
  }

  lemma RolesUpdate(c: Config, tree: seq<nat>, sending: Option<nat>, data: map<nat, Packet>, input: map<nat, Iface>,
                    a: nat, tree': seq<nat>, sending': Option<nat>, p: Packet, i: Iface)
    requires data.Keys == input.Keys && Roles(c, tree, sending, data, input)
    requires forall b :: b != a ==> (b in tree' || sending' == Some(b) <==> b in tree || sending == Some(b))
    requires Role(c, i, p, a in tree' || sending' == Some(a))
    ensures Roles(c, tree', sending', data[a := p], input[a := i])
  {
    hide Role;
    var data', input' := data[a := p], input[a := i];
    forall b | b in input' ensures Role(c, input'[b], data'[b], b in tree' || sending' == Some(b)) {
      if b != a { assert Role(c, input[b], data[b], b in tree || sending == Some(b)); }
    }
  }

  lemma HeadLeaves(time: map<nat, int>, tree: seq<nat>)
    requires forall b :: b in tree ==> b in time
    requires Sorted(time, tree) && tree != []
    ensures tree[0] !in tree[1..] && forall b :: b in tree <==> b in tree[1..] || b == tree[0]
  {
    assert tree == [tree[0]] + tree[1..];
    forall k | 0 <= k < |tree[1..]| ensures tree[1..][k] != tree[0] {
      assert Before(time, tree[0], tree[k + 1]);
    }
  }

  /** The invariant at the moment schedule() is entered with an empty previous slot. */
  ghost predicate Ready(c: Config, q: Queue) {
    && Keys(c, q)
    && Clocks(c, q.time, q.tree, q.sending)
    && Roles(c, q.tree, q.sending, q.data, q.input)
    && Ports(c, q.input, q.output, q.jobs)
    && Slots(c, q)
    && q.sending.None? && q.previous.None? && q.tree != [] && Schedule !in q.jobs
  }

  lemma HeadRole(c: Config, q: Queue)
    requires Ready(c, q)
    ensures q.output.phase == Idle && |q.data[q.tree[0]]| <= c.mtu
    ensures q.tree[0] !in q.tree[1..] && forall b :: b in q.tree <==> b in q.tree[1..] || b == q.tree[0]
    ensures Roles(c, q.tree[1..], Some(q.tree[0]), q.data, q.input)
  {
    HeadLeaves(q.time, q.tree);
    var a := q.tree[0];
    assert Role(c, q.input[a], q.data[a], a in q.tree || q.sending == Some(a));
    RolesUpdate(c, q.tree, q.sending, q.data, q.input, a, q.tree[1..], Some(a), q.data[a], q.input[a]);
    assert q.data[a := q.data[a]] == q.data && q.input[a := q.input[a]] == q.input;
  }

  lemma DoSchedulePorts(c: Config, q: Queue, p: Packet)
    requires Ports(c, q.input, q.output, q.jobs) && c.out !in q.input && q.output.phase == Idle
    ensures var port := Send(Port(q.output, q.jobs), c.out, p);
            Ports(c, q.input, port.iface, port.jobs) && (Schedule in port.jobs <==> Schedule in q.jobs)
  {
    var s := Port(q.output, q.jobs);
    SendLinks(s, c.out, p);
    OutputPort(c, q.input, q.output, q.jobs, Send(s, c.out, p).iface, Send(s, c.out, p).jobs);
  }

  lemma DoScheduleKeepsInv(c: Config, q: Queue)
    requires Ready(c, q)
    ensures q.output.phase == Idle && |q.data[q.tree[0]]| <= c.mtu && Inv(c, DoSchedule(c, q))
  {
    hide Clocks, Roles, Ports, Set;
    HeadRole(c, q);
    DoScheduleClocks(c, q);
    DoSchedulePorts(c, q, q.data[q.tree[0]]);
  }

  lemma EnqueueClocks(c: Config, q: Queue, a: nat, p: Packet)
    requires Keys(c, q) && Clocks(c, q.time, q.tree, q.sending) && a in q.time && q.sending != Some(a) && a !in q.tree
    requires q.sending.Some? ==> q.previous.None?
    ensures var r := Enqueue(c, q, a, p);
            && Keys(c, r) && Clocks(c, r.time, r.tree, r.sending)
            && (forall b :: b in r.tree <==> b in q.tree || b == a)
  {
    var r := Enqueue(c, q, a, p);
    assert forall b :: b in q.tree ==> r.time[b] == q.time[b];
    InsertSorted(r.time, q.tree, a);
  }

  lemma PopOperation(c: Config, q: Queue, a: nat)
    requires Ports(c, q.input, q.output, q.jobs) && q.jobs != [] && q.jobs[0] == Operation(a) && a != c.out
    ensures a in q.input && q.input[a].phase == OperationPending
    ensures Ports(c, q.input[a := q.input[a].(phase := Busy)], q.output, q.jobs[1..])
    ensures Schedule in q.jobs[1..] <==> Schedule in q.jobs
    ensures Over(q.jobs, Schedule) == Over(q.jobs[1..], Schedule) + {Operation(a)}
  {
    PopTop(q.jobs, Schedule);
    assert Known(c, q.input, q.jobs[0]);
    assert Linked(q.input[a], a, q.jobs);
    InputPort(c, q.input, q.output, q.jobs, a, q.input[a].(phase := Busy), q.jobs[1..]);
  }

  lemma RunCancel(c: Config, q: Queue, a: nat)
    requires Ports(c, q.input, q.output, q.jobs) && q.jobs != [] && q.jobs[0] == RequestCancel(a)
    ensures a == c.out && q.output.phase == Busy && q.output.cancelRequested
    ensures Ports(c, q.input, q.output, q.jobs[1..]) && (Schedule in q.jobs[1..] <==> Schedule in q.jobs)
    ensures Over(q.jobs, Schedule) == Over(q.jobs[1..], Schedule) + {RequestCancel(a)}
  {
    PopTop(q.jobs, Schedule);
    assert Known(c, q.input, q.jobs[0]);
    assert a in q.input ==> Linked(q.input[a], a, q.jobs);
    OutputPort(c, q.input, q.output, q.jobs, q.output, q.jobs[1..]);
  }

  lemma TopIsExpected(c: Config, q: Queue)
    requires ValidConfig(c) && Inv(c, q) && q.jobs != []
    ensures match q.jobs[0]
            case Operation(a) =>
              if a == c.out then q.output.phase == OperationPending
              else a in q.input && q.input[a].phase == OperationPending && q.sending != Some(a) && a !in q.tree
            case Done(a) =>
              if a == c.out then
                && q.output.phase == DonePending && q.sending.Some? && q.previous.None?
                && Schedule !in q.jobs && q.sending.value !in q.tree
              else a in q.input && q.input[a].phase == DonePending
            case RequestCancel(a) => a == c.out && q.output.phase == Busy && q.output.cancelRequested
            case Schedule => q.sending.None?
            case Other(_) => true
  {
    assert Known(c, q.input, q.jobs[0]);
    match q.jobs[0]
    case Operation(a) => if a in q.input { assert Linked(q.input[a], a, q.jobs); }
    case Done(a) => if a in q.input { assert Linked(q.input[a], a, q.jobs); }
    case RequestCancel(a) => RunCancel(c, q, a);
    case _ =>
  }

  lemma PopJob(c: Config, q: Queue)
    requires Inv(c, q) && q.jobs != []
    ensures q.jobs[0] != Schedule ==> (Schedule in q.jobs[1..] <==> Schedule in q.jobs)
    ensures q.jobs[0] == Schedule ==> Over(q.jobs, Schedule) == {}
    ensures q.jobs[0] != Schedule ==> Over(q.jobs, Schedule) == Over(q.jobs[1..], Schedule) + {q.jobs[0]}
  {
    hide Clocks, Roles, Lifo, Linked, Known;
    PopTop(q.jobs, Schedule);
  }

  lemma RoleOf(c: Config, q: Queue, a: nat)
    requires Inv(c, q) && a in q.input
    ensures a in q.data && a in q.time && Role(c, q.input[a], q.data[a], a in q.tree || q.sending == Some(a))
    ensures q.sending == Some(a) ==> a !in q.tree && q.previous.None? && q.sendingLen == |q.data[a]|
  {
    hide Clocks, Ports, Lifo, Role;
  }

  /** The state in which input_handler_send of flow a is entered. */
  function Entering(q: Queue, a: nat): Queue
    requires q.jobs != [] && a in q.input
  {
    q.(jobs := q.jobs[1..], input := q.input[a := q.input[a].(phase := Busy)])
  }

  lemma EnqueueKeeps(c: Config, q: Queue, a: nat)
    requires ValidConfig(c) && Inv(c, q) && q.jobs != [] && q.jobs[0] == Operation(a) && a != c.out
    ensures a in q.input && a in q.time && q.sending != Some(a) && a !in q.tree && |q.input[a].packet| <= c.mtu
    ensures Schedule in q.jobs[1..] <==> Schedule in q.jobs
    ensures Over(q.jobs, Schedule) == Over(q.jobs[1..], Schedule) + {Operation(a)}
    ensures var r := Enqueue(c, Entering(q, a), a, q.input[a].packet);
            && Keys(c, r) && Clocks(c, r.time, r.tree, r.sending)
            && Roles(c, r.tree, r.sending, r.data, r.input)
            && Ports(c, r.input, r.output, r.jobs)
            && (forall b :: b in r.tree <==> b in q.tree || b == a)
  {
    TopIsExpected(c, q);
    assert Role(c, q.input[a], q.data[a], a in q.tree || q.sending == Some(a));
    hide Clocks, Ports, Sorted, Insert;
    PopOperation(c, q, a);
    EnqueueClocks(c, Entering(q, a), a, q.input[a].packet);
    var r := Enqueue(c, Entering(q, a), a, q.input[a].packet);
    RolesUpdate(c, q.tree, q.sending, q.data, q.input, a, r.tree, r.sending, q.input[a].packet, r.input[a]);
  }

  /** Where input_handler_send calls schedule, its assertions hold. */
  lemma OperationReady(c: Config, q: Queue, a: nat)
    requires ValidConfig(c) && Inv(c, q) && q.jobs != [] && q.jobs[0] == Operation(a) && a != c.out
    ensures q.sending.None? && Schedule !in q.jobs[1..] ==> q.previous.None? && q.output.phase == Idle
  {
    hide Clocks, Roles, Ports, Lifo;
    EnqueueKeeps(c, q, a);
  }

  lemma RunInputOperation(c: Config, q: Queue, a: nat)
    requires ValidConfig(c) && Inv(c, q) && q.jobs != [] && q.jobs[0] == Operation(a) && a != c.out
    ensures Inv(c, RunTop(c, q))
  {
    hide Clocks, Roles, Ports, Over, Insert, CurrentTime;
    EnqueueKeeps(c, q, a);
    var e := Enqueue(c, Entering(q, a), a, q.input[a].packet);
    if e.sending.None? && Schedule !in e.jobs {
      DoScheduleKeepsInv(c, e);
    }
  }

  lemma PopDone(c: Config, q: Queue, a: nat)
    requires Ports(c, q.input, q.output, q.jobs) && q.jobs != [] && q.jobs[0] == Done(a) && a != c.out
    ensures a in q.input && q.input[a].phase == DonePending
    ensures Ports(c, q.input[a := q.input[a].(phase := Idle)], q.output, q.jobs[1..])
    ensures Schedule in q.jobs[1..] <==> Schedule in q.jobs
    ensures Over(q.jobs, Schedule) == Over(q.jobs[1..], Schedule) + {Done(a)}
  {
    PopTop(q.jobs, Schedule);
    assert Known(c, q.input, q.jobs[0]);
    assert Linked(q.input[a], a, q.jobs);
    InputPort(c, q.input, q.output, q.jobs, a, q.input[a].(phase := Idle), q.jobs[1..]);
  }

  lemma IdleRoles(c: Config, q: Queue, a: nat, i: Iface)
    requires Keys(c, q) && Roles(c, q.tree, q.sending, q.data, q.input) && a in q.input
    requires q.input[a].phase != Busy && i.phase != Busy && (i.phase == OperationPending ==> |i.packet| <= c.mtu)
    ensures Roles(c, q.tree, q.sending, q.data, q.input[a := i])
  {
    assert Role(c, q.input[a], q.data[a], a in q.tree || q.sending == Some(a));
    RolesUpdate(c, q.tree, q.sending, q.data, q.input, a, q.tree, q.sending, q.data[a], i);
    assert q.data[a := q.data[a]] == q.data;
  }

  lemma RunInputDone(c: Config, q: Queue, a: nat)
    requires ValidConfig(c) && Inv(c, q) && q.jobs != [] && q.jobs[0] == Done(a) && a != c.out
    ensures Inv(c, RunTop(c, q))
  {
    hide Clocks, Roles, Ports, Over;
    PopDone(c, q, a);
    IdleRoles(c, q, a, q.input[a].(phase := Idle));
  }

  lemma PopOutputOperation(c: Config, q: Queue)
    requires Ports(c, q.input, q.output, q.jobs) && q.jobs != [] && q.jobs[0] == Operation(c.out) && c.out !in q.input
    ensures Ports(c, q.input, q.output.(phase := Busy), q.jobs[1..])
            && (Schedule in q.jobs[1..] <==> Schedule in q.jobs)
    ensures Over(q.jobs, Schedule) == Over(q.jobs[1..], Schedule) + {Operation(c.out)}
    ensures q.output.phase == OperationPending
  {
    PopTop(q.jobs, Schedule);
    OutputPort(c, q.input, q.output, q.jobs, q.output.(phase := Busy), q.jobs[1..]);
  }

  lemma PopForeign(c: Config, q: Queue)
    requires Ports(c, q.input, q.output, q.jobs) && q.jobs != [] && (q.jobs[0].Schedule? || q.jobs[0].Other?)
    ensures Ports(c, q.input, q.output, q.jobs[1..])
    ensures Schedule in q.jobs[1..] <==> Schedule in q.jobs && q.jobs[0] != Schedule
    ensures q.jobs[0].Schedule? ==> Over(q.jobs, Schedule) == {}
    ensures q.jobs[0].Other? ==> Over(q.jobs, Schedule) == Over(q.jobs[1..], Schedule) + {q.jobs[0]}
  {
    PopTop(q.jobs, Schedule);
    ForeignJobs(c, q.input, q.output, q.jobs, q.jobs[1..]);
  }

  lemma RunSchedule(c: Config, q: Queue)
    requires ValidConfig(c) && Inv(c, q) && q.jobs != [] && q.jobs[0] == Schedule
    ensures Inv(c, RunTop(c, q))
  {
    hide Clocks, Roles, Ports, Over;
    PopForeign(c, q);
    var q1 := q.(jobs := q.jobs[1..], previous := None);
    if q1.tree != [] {
      DoScheduleKeepsInv(c, q1);
    }
  }

  lemma DonePorts(c: Config, q: Queue, f: nat)
    requires Ports(c, q.input, q.output, q.jobs) && q.jobs != [] && q.jobs[0] == Done(c.out) && c.out !in q.input
    requires f in q.input && q.input[f].phase == Busy
    ensures var port := Finish(Port(q.input[f], Set(q.jobs[1..], Schedule)), f);
            && Ports(c, q.input[f := port.iface], q.output.(phase := Idle), port.jobs)
            && Schedule in port.jobs && Over(port.jobs, Schedule) == {Done(f)}
            && (Schedule in q.jobs[1..] <==> Schedule in q.jobs)
  {
    PopTop(q.jobs, Schedule);
    var rest := q.jobs[1..];
    var idle := q.output.(phase := Idle);
    OutputPort(c, q.input, q.output, q.jobs, idle, rest);
    SetPushes(rest, Schedule, Schedule);
    var mid := Set(rest, Schedule);
    ForeignJobs(c, q.input, idle, rest, mid);
    DoneAbove(c, q.input, idle, mid, f);
  }

  lemma DoneAbove(c: Config, input: map<nat, Iface>, output: Iface, jobs: seq<Job>, f: nat)
    requires Ports(c, input, output, jobs) && f in input && f != c.out && input[f].phase == Busy
    requires Schedule in jobs && Over(jobs, Schedule) == {}
    ensures var port := Finish(Port(input[f], jobs), f);
            && Ports(c, input[f := port.iface], output, port.jobs)
            && Schedule in port.jobs && Over(port.jobs, Schedule) == {Done(f)}
  {
    var s := Port(input[f], jobs);
    assert Linked(input[f], f, jobs);
    FinishLinks(s, f);
    InputPort(c, input, output, jobs, f, Finish(s, f).iface, Finish(s, f).jobs);
    UnsetKeepsOthers(jobs, RequestCancel(f), Schedule);
    SetPushes(Without(jobs, RequestCancel(f)), Done(f), Schedule);
  }

  lemma DoneRoles(c: Config, q: Queue, i: Iface)
    requires Keys(c, q) && Roles(c, q.tree, q.sending, q.data, q.input) && q.sending.Some? && q.sending.value !in q.tree
    requires i.phase == DonePending
    ensures q.input[q.sending.value].phase == Busy && |q.data[q.sending.value]| <= c.mtu
    ensures Roles(c, q.tree, None, q.data, q.input[q.sending.value := i])
  {
    var f := q.sending.value;
    assert Role(c, q.input[f], q.data[f], f in q.tree || q.sending == Some(f));
    RolesUpdate(c, q.tree, q.sending, q.data, q.input, f, q.tree, None, q.data[f], i);
    assert q.data[f := q.data[f]] == q.data;
  }

  lemma DoneClocks(c: Config, q: Queue)
    requires ValidConfig(c) && Keys(c, q) && Clocks(c, q.time, q.tree, q.sending)
    requires q.sending.Some? && q.sending.value !in q.tree && 0 <= q.sendingLen <= c.mtu
    ensures var time := Charge(c, q.time, q.tree, q.sending.value, c.weight + q.sendingLen);
            time.Keys == q.time.Keys && Clocks(c, time, q.tree, None)
  {
    hide Charge, Rebase;
    ChargeExact(c, q.time, q.tree, q.sending.value, c.weight + q.sendingLen);
  }

  lemma RunOutputDone(c: Config, q: Queue)
    requires ValidConfig(c) && Inv(c, q) && q.jobs != [] && q.jobs[0] == Done(c.out)
    ensures Inv(c, RunTop(c, q))
  {
    TopIsExpected(c, q);
    RunOutputDoneParts(c, q);
  }

  lemma RunOutputDoneParts(c: Config, q: Queue)
    requires ValidConfig(c) && Inv(c, q) && q.jobs != [] && q.jobs[0] == Done(c.out) && q.sending.Some?
    ensures Inv(c, RunTop(c, q))
  {
    hide Clocks, Roles, Ports, Charge, Over, Set, Without;
    var f := q.sending.value;
    DoneRoles(c, q, q.input[f].(phase := DonePending));
    DonePorts(c, q, f);
    DoneClocks(c, q);
  }

  lemma RunTopKeepsInv(c: Config, q: Queue)
    requires ValidConfig(c) && Inv(c, q) && q.jobs != []
    ensures Inv(c, RunTop(c, q))
  {
    match q.jobs[0]
    case Operation(a) => if a == c.out { RunQuiet(c, q); } else { RunInputOperation(c, q, a); }
    case Done(a) => if a == c.out { RunOutputDone(c, q); } else { RunInputDone(c, q, a); }
    case RequestCancel(a) => RunQuiet(c, q);
    case Schedule => RunSchedule(c, q);
    case Other(_) => RunQuiet(c, q);
  }

  /** Jobs that touch neither flows nor the tree. */
  lemma RunQuiet(c: Config, q: Queue)
    requires ValidConfig(c) && Inv(c, q) && q.jobs != []
    requires q.jobs[0] == Operation(c.out) || q.jobs[0].RequestCancel? || q.jobs[0].Other?
    ensures Inv(c, RunTop(c, q))
  {
    hide Clocks, Roles, Ports, Over;
    if q.jobs[0] == Operation(c.out) {
      PopOutputOperation(c, q);
    } else if q.jobs[0].RequestCancel? {
      RunCancel(c, q, q.jobs[0].i);
    } else {
      PopForeign(c, q);
    }
  }

  lemma UserSendPorts(c: Config, q: Queue, a: nat, p: Packet)
    requires Ports(c, q.input, q.output, q.jobs) && a in q.input && q.input[a].phase == Idle && a != c.out
    ensures var port := Send(Port(q.input[a], q.jobs), a, p);
            && Ports(c, q.input[a := port.iface], q.output, port.jobs)
            && (Schedule in port.jobs <==> Schedule in q.jobs)
            && Over(port.jobs, Schedule) == Over(q.jobs, Schedule) + {Operation(a)}
  {
    var s := Port(q.input[a], q.jobs);
    assert Linked(q.input[a], a, q.jobs);
    SendLinks(s, a, p);
    InputPort(c, q.input, q.output, q.jobs, a, Send(s, a, p).iface, Send(s, a, p).jobs);
    SetPushes(q.jobs, Operation(a), Schedule);
  }

  lemma UserSendKeepsInv(c: Config, q: Queue, a: nat, p: Packet)
    requires Inv(c, q) && Enabled(c, q, UserSend(a, p))
    ensures Inv(c, Step(c, q, UserSend(a, p)))
  {
    hide Clocks, Roles, Ports, Over, Set;
    UserSendPorts(c, q, a, p);
    IdleRoles(c, q, a, Send(Port(q.input[a], q.jobs), a, p).iface);
  }

  lemma CompletePorts(c: Config, q: Queue)
    requires Ports(c, q.input, q.output, q.jobs) && c.out !in q.input && q.output.phase == Busy
    ensures var port := Finish(Port(q.output, q.jobs), c.out);
            && Ports(c, q.input, port.iface, port.jobs)
            && (Schedule in port.jobs <==> Schedule in q.jobs)
  {
    var s := Port(q.output, q.jobs);
    FinishLinks(s, c.out);
    OutputPort(c, q.input, q.output, q.jobs, Finish(s, c.out).iface, Finish(s, c.out).jobs);
  }

  lemma CancelPorts(c: Config, q: Queue)
    requires Ports(c, q.input, q.output, q.jobs) && c.out !in q.input && q.output.phase != Idle
    ensures var port := Cancel(Port(q.output, q.jobs), c.out);
            && Ports(c, q.input, port.iface, port.jobs)
            && (Schedule in port.jobs <==> Schedule in q.jobs)
  {
    var s := Port(q.output, q.jobs);
    CancelLinks(s, c.out);
    OutputPort(c, q.input, q.output, q.jobs, Cancel(s, c.out).iface, Cancel(s, c.out).jobs);
  }

  lemma OutputEventsKeepInv(c: Config, q: Queue, e: Event)
    requires Inv(c, q) && Enabled(c, q, e) && (e.OutputComplete? || e.AskCancel?)
    ensures Inv(c, Step(c, q, e))
  {
    hide Clocks, Roles, Ports, Over, Set, Without;
    if e.OutputComplete? { CompletePorts(c, q); } else { CancelPorts(c, q); }
  }

  lemma NewFlowPorts(c: Config, q: Queue, a: nat)
    requires Ports(c, q.input, q.output, q.jobs) && a !in q.input && a != c.out
    ensures Ports(c, q.input[a := FRESH], q.output, q.jobs)
  {
    assert !Known(c, q.input, Operation(a)) && !Known(c, q.input, RequestCancel(a)) && !Known(c, q.input, Done(a));
    InputPort(c, q.input, q.output, q.jobs, a, FRESH, q.jobs);
  }

  lemma NewFlowClocks(c: Config, q: Queue, a: nat)
    requires ValidConfig(c) && Keys(c, q) && Clocks(c, q.time, q.tree, q.sending) && a !in q.time
    ensures Clocks(c, q.time[a := 0], q.tree, q.sending)
  {
  }

  lemma NewFlowRoles(c: Config, q: Queue, a: nat)
    requires Keys(c, q) && Roles(c, q.tree, q.sending, q.data, q.input) && a !in q.time
    ensures Roles(c, q.tree, q.sending, q.data[a := []], q.input[a := FRESH])
  {
    RolesUpdate(c, q.tree, q.sending, q.data, q.input, a, q.tree, q.sending, [], FRESH);
  }

  lemma NewFlowKeepsInv(c: Config, q: Queue, a: nat)
    requires ValidConfig(c) && Inv(c, q) && Enabled(c, q, NewFlow(a))
    ensures Inv(c, Step(c, q, NewFlow(a)))
  {
    hide Clocks, Roles, Ports, Over;
    NewFlowPorts(c, q, a);
    NewFlowClocks(c, q, a);
    NewFlowRoles(c, q, a);
  }

  lemma UnsetOwn(jobs: seq<Job>, a: nat)
    requires Distinct(jobs)
    ensures var r := Without(Without(Without(jobs, Done(a)), RequestCancel(a)), Operation(a));
            && Distinct(r) && (forall j :: j in r <==> j in jobs && !Own(j, a))
            && Over(r, Schedule) == Over(jobs, Schedule) - {Done(a), RequestCancel(a), Operation(a)}
  {
    UnsetKeepsOthers(jobs, Done(a), Schedule);
    var j1 := Without(jobs, Done(a));
    UnsetKeepsOthers(j1, RequestCancel(a), Schedule);
    UnsetKeepsOthers(Without(j1, RequestCancel(a)), Operation(a), Schedule);
  }

  lemma FreePorts(c: Config, q: Queue, a: nat)
    requires Ports(c, q.input, q.output, q.jobs) && a in q.input && a != c.out
    ensures var jobs := Without(Without(Without(q.jobs, Done(a)), RequestCancel(a)), Operation(a));
            && Ports(c, q.input - {a}, q.output, jobs)
            && (Schedule in jobs <==> Schedule in q.jobs)
            && Over(jobs, Schedule) == Over(q.jobs, Schedule) - {Done(a), RequestCancel(a), Operation(a)}
  {
    hide Distinct, Over, Without;
    UnsetOwn(q.jobs, a);
    var jobs := Without(Without(Without(q.jobs, Done(a)), RequestCancel(a)), Operation(a));
    var input := q.input - {a};
    assert forall j :: j in jobs <==> j in q.jobs && !Own(j, a);
    forall b | b in input ensures Linked(input[b], b, jobs) {
      assert Linked(q.input[b], b, q.jobs);
      assert !Own(Operation(b), a) && !Own(RequestCancel(b), a) && !Own(Done(b), a);
    }
    assert !Own(Operation(c.out), a) && !Own(RequestCancel(c.out), a) && !Own(Done(c.out), a);
    forall j | j in jobs ensures Known(c, input, j) {
      assert Known(c, q.input, j) && !Own(j, a);
    }
  }

  lemma FreeClocks(c: Config, q: Queue, a: nat)
    requires Keys(c, q) && Clocks(c, q.time, q.tree, q.sending) && q.sending != Some(a)
    ensures forall b :: b in Without(q.tree, a) <==> b in q.tree && b != a
    ensures Clocks(c, q.time - {a}, Without(q.tree, a), q.sending)
  {
    WithoutSorted(q.time, q.tree, a);
  }

  lemma FreeRoles(c: Config, q: Queue, a: nat, tree': seq<nat>)
    requires Keys(c, q) && Roles(c, q.tree, q.sending, q.data, q.input)
    requires forall b :: b in tree' <==> b in q.tree && b != a
    ensures Roles(c, tree', q.sending, q.data - {a}, q.input - {a})
  {
    hide Role;
    forall b | b in q.input - {a} ensures Role(c, q.input[b], q.data[b], b in tree' || q.sending == Some(b)) {
      assert Role(c, q.input[b], q.data[b], b in q.tree || q.sending == Some(b));
    }
  }

  lemma FreeFlowKeepsInv(c: Config, q: Queue, a: nat)
    requires Inv(c, q) && Enabled(c, q, FreeFlow(a))
    ensures Inv(c, Step(c, q, FreeFlow(a)))
  {
    hide Clocks, Roles, Ports, Over, Without;
    FreeClocks(c, q, a);
    FreePorts(c, q, a);
    FreeRoles(c, q, a, Without(q.tree, a));
    assert Without(q.tree, a) != [] ==> Without(q.tree, a)[0] in q.tree;
  }

  lemma OtherJobs(c: Config, q: Queue, k: nat)
    requires Ports(c, q.input, q.output, q.jobs)
    ensures Ports(c, q.input, q.output, Set(q.jobs, Other(k))) && Ports(c, q.input, q.output, Without(q.jobs, Other(k)))
    ensures Schedule in Set(q.jobs, Other(k)) <==> Schedule in q.jobs
    ensures Schedule in Without(q.jobs, Other(k)) <==> Schedule in q.jobs
    ensures Over(Set(q.jobs, Other(k)), Schedule) == Over(q.jobs, Schedule) + {Other(k)}
    ensures Over(Without(q.jobs, Other(k)), Schedule) == Over(q.jobs, Schedule) - {Other(k)}
  {
    SetPushes(q.jobs, Other(k), Schedule);
    ForeignJobs(c, q.input, q.output, q.jobs, Set(q.jobs, Other(k)));
    UnsetKeepsOthers(q.jobs, Other(k), Schedule);
    ForeignJobs(c, q.input, q.output, q.jobs, Without(q.jobs, Other(k)));
  }

  lemma OtherJobsKeepInv(c: Config, q: Queue, e: Event)
    requires Inv(c, q) && (e.SetOther? || e.UnsetOther?)
    ensures Inv(c, Step(c, q, e))
  {
    hide Clocks, Roles, Ports, Over, Set, Without;
    OtherJobs(c, q, e.k);
  }

  lemma KeysOf(c: Config, q: Queue)
    requires Inv(c, q)
    ensures Keys(c, q)
  {
  }

  /** One step, any event: the invariant is kept. */
  lemma StepKeepsInv(c: Config, q: Queue, e: Event)
    requires ValidConfig(c) && Inv(c, q) && Enabled(c, q, e)
    ensures Inv(c, Step(c, q, e))
  {
    hide Inv;
    match e
    case Execute => RunTopKeepsInv(c, q);
    case UserSend(a, p) => UserSendKeepsInv(c, q, a, p);
    case OutputComplete => OutputEventsKeepInv(c, q, e);
    case AskCancel(_) => OutputEventsKeepInv(c, q, e);
    case NewFlow(a) => NewFlowKeepsInv(c, q, a);
    case FreeFlow(a) => FreeFlowKeepsInv(c, q, a);
    case SetOther(k) => OtherJobsKeepInv(c, q, e);
    case UnsetOther(k) => OtherJobsKeepInv(c, q, e);
  }
}
