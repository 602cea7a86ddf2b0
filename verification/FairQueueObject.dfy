/** PacketPassFairQueue.c in place: the queue object, its flows and the methods that update them,
    each proved to act as the function of the same name in FairQueue. */
module FairQueueObject {
  import opened Basics
  import opened Pending
  import opened PassInterface
  import opened FairQueue
  import opened FairQueueSafety

  /** uint64_t. */
  newtype U64 = x: int | 0 <= x < TWO64

  function Sub64(a: U64, b: U64): (r: U64)
    ensures r as int == Wrap(a as int - b as int)
  {
    if a >= b then a - b else (a as int - b as int + TWO64) as U64
  }

  function Add64(a: U64, b: U64): (r: U64)
    ensures r as int == Wrap(a as int + b as int)
  {
    var s := a as int + b as int;
    if s < TWO64 then s as U64 else (s - TWO64) as U64
  }

  /** A clock less the amount subtracted; only the clock of the finished flow may wrap. */
  function Lowered(time: U64, subtract: U64, finished: bool): U64 {
    if subtract > time && !finished then 0 else Sub64(time, subtract)
  }

  class Flow {
    const addr: nat
    const input: PacketPassInterface
    var time: U64
    var isQueued: bool
    var data: Packet

    constructor (addr: nat, mtu: nat, pg: PendingGroup)
      ensures this.addr == addr && time == 0 && !isQueued && data == []
      ensures fresh(input) && input.id == addr && input.mtu == mtu && input.pg == pg && input.State() == FRESH
    {
      this.addr := addr;
      input := new PacketPassInterface(addr, mtu, false, pg);
      time, isQueued, data := 0, false, [];
    }
  }

  /** The addresses of a list of flows. */
  function Ids(s: seq<Flow>): (r: seq<nat>)
    ensures |r| == |s| && forall k :: 0 <= k < |s| ==> r[k] == s[k].addr
  {
    seq(|s|, k requires 0 <= k < |s| => s[k].addr)
  }

  lemma IdsTail(s: seq<Flow>)
    requires s != []
    ensures Ids(s[1..]) == Ids(s)[1..]
  {
  }

  function Id(f: Flow?): Option<nat> {
    if f == null then None else Some(f.addr)
  }

  class PacketPassFairQueue {
    const output: PacketPassInterface
    const pg: PendingGroup
    const packetWeight: nat
    const maxTime: U64
    var sendingFlow: Flow?
    var sendingLen: nat
    var previousFlow: Flow?
    var queuedTree: seq<Flow>
    var flowsList: seq<Flow>
    ghost var table: map<nat, Flow>

    ghost function C(): Config {
      Config(output.id, packetWeight, output.mtu, Some(maxTime as int))
    }

    ghost predicate Registered()
      reads `table, `flowsList
    {
      Wired(table, flowsList, output, pg) && ValidConfig(C())
    }

    /** The tree and the two slots refer to flows of this queue. */
    ghost predicate Valid()
      reads this
    {
      && Registered()
      && (forall f :: f in queuedTree ==> f in flowsList)
      && Distinct(queuedTree)
      && (sendingFlow != null ==> sendingFlow in flowsList)
      && (previousFlow != null ==> previousFlow in flowsList)
    }

    /** is_queued says whether the flow is in the tree. */
    ghost predicate Marked()
      reads `flowsList, `queuedTree, flowsList`isQueued
    {
      forall f :: f in flowsList ==> (f.isQueued <==> f in queuedTree)
    }

    ghost function Times(): map<nat, int>
      reads `table, table.Values`time
    {
      map a | a in table :: table[a].time as int
    }

    ghost function Datas(): map<nat, Packet>
      reads `table, table.Values`data
    {
      map a | a in table :: table[a].data
    }

    ghost function Inputs(): map<nat, Iface>
      reads `table, set f | f in table.Values :: f.input
    {
      map a | a in table :: table[a].input.State()
    }

    ghost function View(): Queue
      reads this, table.Values, output, pg, set f | f in table.Values :: f.input
    {
      Queue(Times(), Ids(queuedTree), Id(sendingFlow), sendingLen, Id(previousFlow),
            Datas(), Inputs(), output.State(), pg.jobs)
    }

    constructor (output: PacketPassInterface, packetWeight: nat, maxTime: U64)
      requires packetWeight > 0 && output.mtu + packetWeight <= maxTime as int
      ensures Valid() && Marked() && View().time == map[] && View().tree == [] && View().sending == None
              && View().previous == None
      ensures this.output == output && this.packetWeight == packetWeight && this.maxTime == maxTime && pg == output.pg
      ensures output.State() == FRESH && pg.jobs == [] ==> View() == EMPTY && Inv(C(), View())
    {
      this.output, this.pg, this.packetWeight, this.maxTime := output, output.pg, packetWeight, maxTime;
      sendingFlow, sendingLen, previousFlow := null, 0, null;
      queuedTree, flowsList, table := [], [], map[];
    }

    /** PacketPassFairQueue_Init. It fails when one packet could carry a clock past the limit. */
    static method Init(output: PacketPassInterface, packetWeight: nat, maxTime: U64) returns (m: PacketPassFairQueue?)
      requires packetWeight > 0
      ensures m == null <==> output.mtu + packetWeight > maxTime as int
      ensures m != null ==>
                && fresh(m) && m.Valid() && m.Marked() && m.output == output && m.packetWeight == packetWeight
                && m.maxTime == maxTime
                && m.View().time == map[] && m.View().tree == [] && m.View().sending == None
                && m.View().previous == None
                && (output.State() == FRESH && output.pg.jobs == [] ==> m.View() == EMPTY && Inv(m.C(), m.View()))
    {
      if output.mtu <= maxTime as int && packetWeight <= maxTime as int - output.mtu {
        m := new PacketPassFairQueue(output, packetWeight, maxTime);
      } else {
        m := null;
      }
    }

    lemma ViewKeys()
      requires Valid()
      ensures Keys(C(), View())
    {
      forall a | a in Ids(queuedTree) ensures a in View().time {
        var k :| 0 <= k < |queuedTree| && Ids(queuedTree)[k] == a;
        assert queuedTree[k] in queuedTree;
      }
    }

    lemma TreeMember(f: Flow)
      requires Valid() && f in flowsList
      ensures f in queuedTree <==> f.addr in Ids(queuedTree)
    {
      if f in queuedTree {
        var k :| 0 <= k < |queuedTree| && queuedTree[k] == f;
        assert Ids(queuedTree)[k] == f.addr;
      }
      if f.addr in Ids(queuedTree) {
        var k :| 0 <= k < |queuedTree| && Ids(queuedTree)[k] == f.addr;
        assert queuedTree[k] in queuedTree;
      }
    }

    lemma HeadData()
      requires Valid() && queuedTree != []
      ensures queuedTree[0] in flowsList && queuedTree[0].addr in Datas()
              && Datas()[queuedTree[0].addr] == queuedTree[0].data
    {
      assert queuedTree[0] in queuedTree;
    }

    lemma Apart()
      requires Registered()
      ensures output.pg == pg && forall a :: a in table ==> table[a].input != output
    {
    }

    method GetCurrentTime() returns (t: U64)
      requires Valid()
      ensures Keys(C(), View()) && t as int == Now(C(), View())
    {
      ViewKeys();
      if sendingFlow != null {
        return sendingFlow.time;
      }
      t := 0;
      var have := false;
      if queuedTree != [] {
        assert queuedTree[0] in queuedTree;
        t := queuedTree[0].time;
        have := true;
      }
      if previousFlow != null {
        if !have || previousFlow.time < t {
          t := previousFlow.time;
          have := true;
        }
      }
    }

    /** The loop of increment_sent_flow rewrites the clock of every flow, including flows that sit
        in the tree. No queued flow may be clamped. */
    method SubtractFromAll(flow: Flow, subtract: U64)
      requires Valid() && flow in flowsList
      requires forall f :: f in flowsList && subtract > f.time && f != flow ==> !f.isQueued
      modifies (set f | f in flowsList)`time
      ensures Times() == Shifted(old(Times()), flow.addr, subtract as int)
    {
      hide Distinct;
      LowerAll(flow, subtract);
      forall a | a in table ensures Times()[a] == Shifted(old(Times()), flow.addr, subtract as int)[a] {
        assert table[a] in flowsList;
      }
    }

    method LowerAll(flow: Flow, subtract: U64)
      requires Distinct(flowsList) && flow in flowsList
      requires forall f :: f in flowsList && subtract > f.time && f != flow ==> !f.isQueued
      modifies (set f | f in flowsList)`time
      ensures forall i :: 0 <= i < |flowsList| ==>
                flowsList[i].time == Lowered(old(flowsList[i].time), subtract, flowsList[i] == flow)
    {
      hide Lowered;
      for k := 0 to |flowsList|
        invariant forall i :: k <= i < |flowsList| ==> flowsList[i].time == old(flowsList[i].time)
        invariant forall i :: 0 <= i < k ==>
                    flowsList[i].time == Lowered(old(flowsList[i].time), subtract, flowsList[i] == flow)
      {
        SubtractFrom(flowsList[k], subtract, flowsList[k] == flow);
      }
    }

    /** One turn of the loop. */
    method SubtractFrom(someflow: Flow, subtract: U64, finished: bool)
      requires subtract > someflow.time && !finished ==> !someflow.isQueued
      modifies someflow`time
      ensures someflow.time == Lowered(old(someflow.time), subtract, finished)
    {
      if subtract > someflow.time && !finished {
        assert !someflow.isQueued;
        someflow.time := 0;
      } else {
        someflow.time := Sub64(someflow.time, subtract);
      }
    }

    method AddTime(flow: Flow, amount: U64)
      requires Valid() && flow in flowsList
      modifies flow`time
      ensures flow.addr in old(Times())
      ensures Times() == old(Times())[flow.addr := Wrap(old(Times())[flow.addr] + amount as int)]
    {
      hide Wrap;
      flow.time := Add64(flow.time, amount);
    }

    /** The amount increment_sent_flow takes off all clocks when the clock of flow would overflow,
        with the fact its loop relies on. */
    method RebaseAmount(flow: Flow) returns (subtract: U64)
      requires Valid() && Marked() && flow in flowsList
      requires (forall b :: b in Ids(queuedTree) ==> b in Times()) && Sorted(Times(), Ids(queuedTree))
      ensures subtract as int == if queuedTree == [] then Times()[flow.addr] else Times()[Ids(queuedTree)[0]]
      ensures forall f :: f in flowsList && f.isQueued ==> subtract <= f.time
    {
      if queuedTree == [] {
        subtract := flow.time;
      } else {
        assert queuedTree[0] in queuedTree;
        subtract := queuedTree[0].time;
      }
      forall f | f in flowsList && f.isQueued ensures subtract <= f.time {
        TreeMember(f);
        HeadIsLeast(Times(), Ids(queuedTree), f.addr);
      }
    }

    /** The overflow branch of increment_sent_flow. */
    method RebaseAll(flow: Flow)
      requires Valid() && Marked() && flow in flowsList
      requires (forall b :: b in Ids(queuedTree) ==> b in Times()) && Sorted(Times(), Ids(queuedTree))
      modifies (set f | f in flowsList)`time
      ensures Times() == Shifted(old(Times()), flow.addr,
                                 if queuedTree == [] then old(Times())[flow.addr] else old(Times())[Ids(queuedTree)[0]])
    {
      hide Sorted, Shifted;
      var subtract := RebaseAmount(flow);
      SubtractFromAll(flow, subtract);
    }

    /** increment_sent_flow. The requires clauses are its assertions and the order of the tree. */
    method IncrementSentFlow(flow: Flow, amount: U64)
      requires Valid() && Marked() && flow in flowsList && !flow.isQueued && sendingFlow == null && amount <= maxTime
      requires (forall b :: b in Ids(queuedTree) ==> b in Times()) && Sorted(Times(), Ids(queuedTree))
      modifies (set f | f in flowsList)`time
      ensures flow.addr in old(Times())
      ensures Times() == Charge(C(), old(Times()), Ids(queuedTree), flow.addr, amount as int)
    {
      hide Registered, Marked, Sorted, Wrap, Charge, Shifted, View, Inputs, Datas;
      TimeOf(flow);
      ghost var times, tree := Times(), Ids(queuedTree);
      ChargeByParts(C(), times, tree, flow.addr, amount as int);
      if amount > Sub64(maxTime, flow.time) {
        RebaseAll(flow);
      }
      AddTime(flow, amount);
    }

    /** Takes the first flow off the tree. */
    method PopTree() returns (qflow: Flow)
      requires Valid() && Marked() && queuedTree != []
      modifies `queuedTree, (set f | f in flowsList)`isQueued
      ensures Valid() && Marked()
      ensures qflow == old(queuedTree)[0] && queuedTree == old(queuedTree)[1..] && qflow in flowsList
    {
      qflow := queuedTree[0];
      assert qflow in queuedTree;
      assert queuedTree == [qflow] + queuedTree[1..];
      queuedTree := queuedTree[1..];
      qflow.isQueued := false;
    }

    /** The steps of schedule, field by field. */
    method SendFirst()
      requires Valid() && Marked() && sendingFlow == null && previousFlow == null && queuedTree != []
      requires output.phase == Idle && |queuedTree[0].data| <= output.mtu
      modifies this`queuedTree, this`sendingFlow, this`sendingLen, output, pg, (set f | f in flowsList)`isQueued
      ensures Valid() && Marked()
      ensures sendingFlow == old(queuedTree)[0] && queuedTree == old(queuedTree)[1..]
              && sendingLen == |old(queuedTree[0].data)|
      ensures output.View() == Send(old(output.View()), output.id, old(queuedTree[0].data))
      ensures Inputs() == old(Inputs())
    {
      hide Registered;
      Apart();
      var qflow := PopTree();
      output.SenderSend(qflow.data);
      sendingFlow := qflow;
      sendingLen := |qflow.data|;
    }

    /** schedule. */
    method ScheduleNext()
      requires Valid() && Marked() && sendingFlow == null && previousFlow == null && queuedTree != []
      requires output.phase == Idle && |queuedTree[0].data| <= output.mtu
      requires Keys(C(), View())
      modifies this`queuedTree, this`sendingFlow, this`sendingLen, output, pg, (set f | f in flowsList)`isQueued
      ensures Valid() && Marked()
      ensures View() == DoSchedule(C(), old(View()))
    {
      hide Registered, Marked, Keys, Set, Send, Times, Datas, Inputs;
      assert queuedTree[0] in queuedTree;
      HeadData();
      Apart();
      IdsTail(queuedTree);
      SendFirst();
    }

    /** schedule_job_handler. */
    method ScheduleJobHandler()
      requires Valid() && Marked() && sendingFlow == null && output.phase == Idle
      requires forall f :: f in queuedTree ==> |f.data| <= output.mtu
      requires Keys(C(), View()) && forall a :: a in View().tree ==> |View().data[a]| <= output.mtu
      modifies this`queuedTree, this`sendingFlow, this`sendingLen, this`previousFlow, output, pg,
               (set f | f in flowsList)`isQueued
      ensures Valid() && Marked()
      ensures View() == FairQueue.ScheduleHandler(C(), old(View()))
    {
      hide Registered, Marked, Set, Send, Times, Datas, Inputs;
      previousFlow := null;
      if queuedTree != [] {
        assert queuedTree[0] in queuedTree;
        ScheduleNext();
      }
    }

    /** Where compare_flows puts the flow in the search tree. */
    method FindPlace(flow: Flow) returns (i: nat)
      requires Valid() && flow in flowsList
      requires forall b :: b in Ids(queuedTree) ==> b in Times()
      ensures i <= |queuedTree| && flow.addr in Times()
      ensures Insert(Times(), Ids(queuedTree), flow.addr) == Ids(queuedTree)[..i] + [flow.addr] + Ids(queuedTree)[i..]
    {
      hide Registered, Insert;
      TimeOf(flow);
      i := 0;
      while i < |queuedTree|
            && !(flow.time < queuedTree[i].time
                 || (flow.time == queuedTree[i].time && flow.addr < queuedTree[i].addr))
        invariant 0 <= i <= |queuedTree|
        invariant forall k :: 0 <= k < i ==> !Before(Times(), flow.addr, Ids(queuedTree)[k])
      {
        assert queuedTree[i] in queuedTree;
        TimeOf(queuedTree[i]);
        i := i + 1;
      }
      if i < |queuedTree| {
        assert queuedTree[i] in queuedTree;
        TimeOf(queuedTree[i]);
      }
      InsertAt(Times(), Ids(queuedTree), flow.addr, i);
    }

    method TreeInsert(flow: Flow)
      requires Valid() && flow in flowsList && flow !in queuedTree
      requires forall b :: b in Ids(queuedTree) ==> b in Times()
      modifies `queuedTree
      ensures Valid() && flow.addr in Times()
      ensures Ids(queuedTree) == Insert(Times(), Ids(old(queuedTree)), flow.addr)
      ensures forall f :: f in queuedTree <==> f in old(queuedTree) || f == flow
    {
      hide Registered, Insert, Before, Distinct;
      var i := FindPlace(flow);
      IdsInsert(queuedTree, flow, i);
      DistinctInsert(queuedTree, flow, i);
      queuedTree := queuedTree[..i] + [flow] + queuedTree[i..];
    }

    lemma TimeOf(f: Flow)
      requires Registered() && f in flowsList
      ensures f.addr in Times() && Times()[f.addr] == f.time as int
    {
    }

    /** A flow that was remembered as previous keeps its clock; any other is raised. */
    method RaiseOrForget(flow: Flow)
      requires Valid() && Marked() && flow in flowsList
      modifies this`previousFlow, flow`time
      ensures Valid() && Marked() && Keys(C(), old(View())) && flow.addr in old(Times())
      ensures Times() == if flow == old(previousFlow) then old(Times())
                         else old(Times())[flow.addr :=
                           if old(Times())[flow.addr] > Now(C(), old(View())) then old(Times())[flow.addr]
                           else Now(C(), old(View()))]
      ensures previousFlow == if flow == old(previousFlow) then null else old(previousFlow)
    {
      hide Registered, Marked, Keys, Now, Times, Datas, Inputs, Ids, View, C;
      ViewKeys();
      TimeOf(flow);
      if flow == previousFlow {
        previousFlow := null;
      } else {
        var now := GetCurrentTime();
        RaiseTime(flow, now);
      }
    }

    method SetData(flow: Flow, data: Packet)
      requires Registered() && flow in flowsList
      modifies flow`data
      ensures flow.addr in old(Datas()) && Datas() == old(Datas())[flow.addr := data] && flow.data == data
    {
      flow.data := data;
    }

    method PutInTree(flow: Flow, data: Packet)
      requires Valid() && Marked() && flow in flowsList && !flow.isQueued
      requires forall b :: b in Ids(queuedTree) ==> b in Times()
      modifies this`queuedTree, flow`data, flow`isQueued
      ensures Valid() && Marked() && flow.addr in Times()
      ensures flow.addr in old(Datas()) && Datas() == old(Datas())[flow.addr := data]
      ensures Ids(queuedTree) == Insert(Times(), Ids(old(queuedTree)), flow.addr)
      ensures flow.data == data && forall f :: f in queuedTree <==> f in old(queuedTree) || f == flow
    {
      hide Insert, Registered, Distinct, Datas, Times, Ids;
      SetData(flow, data);
      TreeInsert(flow);
      flow.isQueued := true;
    }

    /** The part of input_handler_send that puts the flow into the tree. */
    method EnqueueFlow(flow: Flow, data: Packet)
      requires Valid() && Marked() && flow in flowsList && flow != sendingFlow && !flow.isQueued
      modifies this`queuedTree, this`previousFlow, flow`time, flow`data, flow`isQueued
      ensures Valid() && Marked()
      ensures Keys(C(), old(View())) && flow.addr in old(View()).time && flow.addr !in old(View()).tree
      ensures old(View()).sending != Some(flow.addr) && View() == Enqueue(C(), old(View()), flow.addr, data)
      ensures flow.data == data && forall f :: f in queuedTree <==> f in old(queuedTree) || f == flow
      ensures old(previousFlow) == null ==> previousFlow == null
    {
      hide Registered, Insert, Now, Times, Datas, Inputs, Ids;
      TreeMember(flow);
      ViewKeys();
      PreviousIs(flow);
      RaiseOrForget(flow);
      PutInTree(flow, data);
    }

    /** input_handler_send. The requires clauses are its assertions and those of schedule. */
    method InputHandlerSend(flow: Flow, data: Packet)
      requires Valid() && Marked() && flow in flowsList && flow != sendingFlow && !flow.isQueued
      requires |data| <= output.mtu && forall f :: f in queuedTree ==> |f.data| <= output.mtu
      requires sendingFlow == null && !pg.IsSet(Schedule) ==> previousFlow == null && output.phase == Idle
      modifies this`queuedTree, this`previousFlow, this`sendingFlow, this`sendingLen, output, pg
      modifies flow`time, flow`data, (set f | f in flowsList)`isQueued
      ensures Valid() && Marked()
      ensures Accepts(old(View()), flow.addr, data) && View() == InputSend(C(), old(View()), flow.addr, data)
    {
      AcceptsNow(flow, data);
      hide Registered, Enqueue, Times, Datas, Inputs, Ids, Distinct, Set, Send, Marked;
      EnqueueFlow(flow, data);
      if sendingFlow == null && !pg.IsSet(Schedule) {
        assert flow in queuedTree && queuedTree[0] in queuedTree;
        ScheduleNext();
      }
    }

    /** What InputSend asks of the state. */
    ghost predicate Accepts(q: Queue, a: nat, p: Packet) {
      && Keys(C(), q) && a in q.time && q.sending != Some(a) && a !in q.tree
      && |p| <= C().mtu && (forall b :: b in q.tree ==> |q.data[b]| <= C().mtu)
      && (q.sending.None? && Schedule !in q.jobs ==> q.previous.None? && q.output.phase == Idle)
    }

    /** The calls at the end of output_handler_done: schedule goes on the job list first, the done
        job of the finished flow on top of it. */
    method FinishFlow(flow: Flow)
      requires Registered() && flow in flowsList && flow.input.phase == Busy
      modifies pg, flow.input
      ensures flow.addr in old(Inputs()) && output.State() == old(output.State())
      ensures var port := Finish(Port(old(Inputs())[flow.addr], Set(old(pg.jobs), Schedule)), flow.addr);
              Inputs() == old(Inputs())[flow.addr := port.iface] && pg.jobs == port.jobs
    {
      hide Set, Without;
      InputsApart(flow);
      pg.SetJob(Schedule);
      flow.input.ProviderDone();
    }

    lemma InputsApart(flow: Flow)
      requires Registered() && flow in flowsList
      ensures flow.input != output && flow.input.pg == pg && flow.input.id == flow.addr && flow.addr != output.id
      ensures flow.addr in table && table[flow.addr] == flow
      ensures forall a :: a in table && a != flow.addr ==> table[a].input != flow.input
    {
    }

    /** output_handler_done. The requires clauses are its assertions, the order of the tree and the
        bound checked when the queue was initialised. */
    method OutputHandlerDone()
      requires Valid() && Marked() && sendingFlow != null && previousFlow == null && !pg.IsSet(Schedule)
      requires !sendingFlow.isQueued && sendingFlow.input.phase == Busy && sendingLen <= output.mtu
      requires (forall b :: b in Ids(queuedTree) ==> b in Times()) && Sorted(Times(), Ids(queuedTree))
      modifies this`sendingFlow, this`previousFlow, pg, sendingFlow.input, (set f | f in flowsList)`time
      ensures Valid() && Marked() && Completes(old(View()))
      ensures View() == OutputDone(C(), old(View()))
    {
      hide Valid, Registered, Marked, Times, Datas, Inputs, Ids, Distinct, Set, Finish, Charge, Sorted, Keys, C;
      RegisteredNow();
      CompletesNow();
      ghost var q := View();
      ChargeSent();

      FinishFlow(previousFlow);
      assert View().time == Charge(C(), q.time, q.tree, q.sending.value, C().weight + q.sendingLen);
    }

    /** The sent flow becomes the previous one and is charged. */
    method ChargeSent()
      requires Valid() && Marked() && sendingFlow != null && !sendingFlow.isQueued
      requires packetWeight + sendingLen <= maxTime as int
      requires (forall b :: b in Ids(queuedTree) ==> b in Times()) && Sorted(Times(), Ids(queuedTree))
      modifies this`sendingFlow, this`previousFlow, (set f | f in flowsList)`time
      ensures Valid() && Marked() && sendingFlow == null && previousFlow == old(sendingFlow)
              && previousFlow in flowsList
      ensures previousFlow.addr in old(Times())
      ensures Times() == Charge(C(), old(Times()), Ids(queuedTree), previousFlow.addr, packetWeight + sendingLen)
    {
      hide Registered, Times, Ids, Distinct, Charge, Sorted;
      previousFlow := sendingFlow;
      sendingFlow := null;
      IncrementSentFlow(previousFlow, (packetWeight + sendingLen) as U64);
    }

    /** Appends an initialised flow to the list. */
    method Register(flow: Flow)
      requires Registered() && flow.addr !in table && flow.addr != output.id
      requires flow.input.pg == pg && flow.input.id == flow.addr && flow.input.mtu == output.mtu
      modifies `flowsList, `table
      ensures Registered() && flowsList == old(flowsList) + [flow] && flow !in old(flowsList)
      ensures Times() == old(Times())[flow.addr := flow.time as int]
      ensures Datas() == old(Datas())[flow.addr := flow.data]
      ensures Inputs() == old(Inputs())[flow.addr := flow.input.State()]
    {
      hide Wired, Times, Datas, Inputs;
      WiredAppend(table, flowsList, output, pg, flow);
      flowsList := flowsList + [flow];
      table := table[flow.addr := flow];
      TimesGrew(flow);
      DatasGrew(flow);
      InputsGrew(flow);
    }

    twostate lemma TimesGrew(flow: Flow)
      requires flow.addr !in old(table) && table == old(table)[flow.addr := flow]
      requires forall b :: b in old(table) ==> unchanged(table[b])
      ensures Times() == old(Times())[flow.addr := flow.time as int]
    {
    }

    twostate lemma DatasGrew(flow: Flow)
      requires flow.addr !in old(table) && table == old(table)[flow.addr := flow]
      requires forall b :: b in old(table) ==> unchanged(table[b])
      ensures Datas() == old(Datas())[flow.addr := flow.data]
    {
    }

    twostate lemma InputsGrew(flow: Flow)
      requires flow.addr !in old(table) && table == old(table)[flow.addr := flow]
      requires forall b :: b in old(table) ==> unchanged(table[b].input)
      ensures Inputs() == old(Inputs())[flow.addr := flow.input.State()]
    {
    }

    /** PacketPassFairQueueFlow_Init. */
    method FlowInit(addr: nat) returns (flow: Flow)
      requires Valid() && Marked() && addr !in table && addr != output.id
      modifies `flowsList, `table
      ensures Valid() && Marked() && fresh(flow) && flow.addr == addr && flow in flowsList
      ensures View() == old(View()).(time := old(Times())[addr := 0], data := old(Datas())[addr := []],
                                     input := old(Inputs())[addr := FRESH])
    {
      hide Registered, Distinct, Times, Datas, Inputs, Ids;
      flow := new Flow(addr, output.mtu, pg);
      Register(flow);
    }

    method TreeRemove(flow: Flow)
      requires Valid() && flow in queuedTree
      modifies `queuedTree
      ensures Valid() && Ids(queuedTree) == Without(Ids(old(queuedTree)), flow.addr)
      ensures forall f :: f in queuedTree <==> f in old(queuedTree) && f != flow
    {
      hide Registered, Distinct, Without;
      var i := IndexOf(queuedTree, flow);
      CutOut(queuedTree, flow, i);
      forall k | 0 <= k < i ensures Ids(queuedTree)[k] != flow.addr { OtherAddr(queuedTree[k], flow); }
      WithoutAt(Ids(queuedTree), flow.addr, i);
      assert Ids(queuedTree[..i] + queuedTree[i + 1..]) == Ids(queuedTree)[..i] + Ids(queuedTree)[i + 1..];
      queuedTree := queuedTree[..i] + queuedTree[i + 1..];
    }

    lemma OtherAddr(f: Flow, g: Flow)
      requires Valid()
      ensures (f in flowsList || f in queuedTree) && (g in flowsList || g in queuedTree) && f != g ==> f.addr != g.addr
    {
    }

    /** Takes the flow off the list. */
    method Unregister(flow: Flow)
      requires Registered() && flow in flowsList
      modifies `flowsList, `table
      ensures Registered() && forall f :: f in flowsList <==> f in old(flowsList) && f != flow
      ensures Times() == old(Times()) - {flow.addr} && Datas() == old(Datas()) - {flow.addr}
      ensures Inputs() == old(Inputs()) - {flow.addr}
    {
      hide Wired, Times, Datas, Inputs;
      var i := IndexOf(flowsList, flow);
      WiredRemove(table, flowsList, output, pg, flow, i);
      flowsList := flowsList[..i] + flowsList[i + 1..];
      table := table - {flow.addr};
      TableShrank(flow.addr);
    }

    /** The views follow the table. */
    twostate lemma TableShrank(a: nat)
      requires table == old(table) - {a}
      requires forall b :: b in table ==> unchanged(table[b]) && unchanged(table[b].input)
      ensures Times() == old(Times()) - {a} && Datas() == old(Datas()) - {a} && Inputs() == old(Inputs()) - {a}
    {
    }

    /** Takes the flow out of the previous slot and the tree. */
    method LeaveQueue(flow: Flow)
      requires Valid() && Marked() && flow in flowsList
      modifies this`previousFlow, this`queuedTree
      ensures Valid() && flow !in queuedTree && flow != previousFlow
      ensures forall f :: f in flowsList && f != flow ==> (f.isQueued <==> f in queuedTree)
      ensures Ids(queuedTree) == Without(Ids(old(queuedTree)), flow.addr)
      ensures Id(previousFlow) == if Id(old(previousFlow)) == Some(flow.addr) then None else Id(old(previousFlow))
    {
      hide Registered, Distinct, Times, Without, Ids;
      PreviousIs(flow);
      TreeMember(flow);
      if flow == previousFlow {
        previousFlow := null;
      }
      if flow.isQueued {
        TreeRemove(flow);
      } else {
        WithoutAbsent(Ids(queuedTree), flow.addr);
      }
    }

    /** PacketPassInterface_Free of the flow's input. */
    method DropJobs(addr: nat)
      modifies pg
      ensures pg.jobs == Without(Without(Without(old(pg.jobs), Done(addr)), RequestCancel(addr)), Operation(addr))
    {
      pg.UnsetJob(Done(addr));
      pg.UnsetJob(RequestCancel(addr));
      pg.UnsetJob(Operation(addr));
    }

    /** PacketPassFairQueueFlow_Free, outside the freeing of the whole queue. */
    method FlowFree(flow: Flow)
      requires Valid() && Marked() && flow in flowsList && flow != sendingFlow
      modifies this`previousFlow, this`queuedTree, this`flowsList, this`table, pg
      ensures Valid() && Marked()
      ensures flow.addr in old(View()).time && View() == Release(old(View()), flow.addr)
    {
      hide Registered, Distinct, Times, Datas, Inputs, Without, Ids;
      PreviousIs(flow);
      LeaveQueue(flow);
      Unregister(flow);
      DropJobs(flow.addr);
    }

    /** PacketPassFairQueueFlow_RequestCancel. */
    method FlowRequestCancel(flow: Flow)
      requires Valid() && Marked() && flow == sendingFlow && output.canCancel && output.phase != Idle
               && !pg.IsSet(Schedule)
      modifies output, pg
      ensures Valid() && Marked()
      ensures var port := Cancel(Port(old(View()).output, old(View()).jobs), output.id);
              View() == old(View()).(output := port.iface, jobs := port.jobs)
      ensures Inv(C(), old(View())) ==>
                && Enabled(C(), old(View()), AskCancel(flow.addr))
                && View() == Step(C(), old(View()), AskCancel(flow.addr)) && Inv(C(), View())
    {
      hide Registered, Marked, Times, Datas, Inputs, Ids, Distinct, Set, Without, Inv;
      RegisteredNow();
      Apart();
      ghost var q := View();
      if Inv(C(), q) {
        StepKeepsInv(C(), q, AskCancel(flow.addr));
      }
      output.SenderRequestCancel();
      InputsFrame();
    }

    twostate lemma InputsFrame()
      requires Registered() && old(table) == table && forall a :: a in table ==> unchanged(table[a].input)
      ensures Inputs() == old(Inputs())
    {
    }

    // ---- Running jobs. q is the state before the job was taken off the list. ----

    ghost predicate Popped(q: Queue, job: Job)
      reads this, table.Values, flowsList`isQueued, output, pg, set f | f in table.Values :: f.input
    {
      && Valid() && Marked() && Inv(C(), q) && q.jobs == [job] + pg.jobs && View() == q.(jobs := pg.jobs)
    }

    lemma FlowFacts(q: Queue, job: Job, flow: Flow)
      requires Popped(q, job) && flow in flowsList
      ensures flow.addr in q.input && q.input[flow.addr] == flow.input.State()
      ensures flow.addr in q.data && q.data[flow.addr] == flow.data
      ensures (flow in queuedTree <==> flow.addr in q.tree) && (flow.isQueued <==> flow.addr in q.tree)
      ensures Id(sendingFlow) == q.sending && (flow == sendingFlow <==> q.sending == Some(flow.addr))
    {
      TreeMember(flow);
      PreviousIs(flow);
    }

    lemma QueuedSizes(q: Queue, job: Job)
      requires Popped(q, job)
      ensures forall f :: f in queuedTree ==> |f.data| <= output.mtu
      ensures forall b :: b in q.tree ==> b in q.data && |q.data[b]| <= output.mtu
    {
      hide Clocks, Ports, Lifo, Marked;
      forall b | b in q.tree ensures b in q.data && |q.data[b]| <= output.mtu {
        RoleOf(C(), q, b);
      }
      forall f | f in queuedTree ensures |f.data| <= output.mtu {
        FlowFacts(q, job, f);
      }
    }

    /** What the top job of interface a says about the state its handler is entered in. */
    lemma OperationReady(q: Queue, a: nat)
      requires ValidConfig(C()) && Inv(C(), q) && q.jobs != [] && q.jobs[0] == Operation(a) && a != C().out
      ensures a in q.input && q.input[a].phase == OperationPending && |q.input[a].packet| <= C().mtu
      ensures q.sending != Some(a) && a !in q.tree
      ensures q.sending.None? && Schedule !in q.jobs[1..] ==> q.previous.None? && q.output.phase == Idle
    {
      hide Clocks, Roles, Ports, Lifo;
      EnqueueKeeps(C(), q, a);
      TopIsExpected(C(), q);
    }

    /** The operation job of a flow's input, up to the call of input_handler_send. */
    method StartFlow(flow: Flow) returns (p: Packet)
      requires Registered() && flow in flowsList && flow.input.phase == OperationPending
      modifies flow.input
      ensures flow.addr in old(Inputs()) && p == old(Inputs())[flow.addr].packet
      ensures Inputs() == old(Inputs())[flow.addr := old(Inputs())[flow.addr].(phase := Busy)]
    {
      InputsApart(flow);
      p := flow.input.JobOperation();
    }

    method RunFlowOperation(ghost q: Queue, flow: Flow)
      requires Popped(q, Operation(flow.addr)) && flow in flowsList
      modifies this, output, pg, flow.input, flow`time, flow`data, (set f | f in flowsList)`isQueued
      ensures Valid() && Marked() && q.jobs != [] && View() == RunTop(C(), q)
    {
      hide Inv, Registered, Times, Datas, Ids, Distinct, Enqueue, Inputs, InputSend, Marked;
      RegisteredNow();
      InputsApart(flow);
      FlowFacts(q, Operation(flow.addr), flow);
      QueuedSizes(q, Operation(flow.addr));
      OperationReady(q, flow.addr);
      var p := StartFlow(flow);
      InputHandlerSend(flow, p);
    }

    /** The done job of a flow's input; the user's done handler is an event of its own. */
    method EndFlow(flow: Flow)
      requires Registered() && flow in flowsList && flow.input.phase == DonePending
      modifies flow.input
      ensures flow.addr in old(Inputs())
      ensures Inputs() == old(Inputs())[flow.addr := old(Inputs())[flow.addr].(phase := Idle)]
    {
      InputsApart(flow);
      flow.input.JobDone();
    }

    method RunFlowDone(ghost q: Queue, flow: Flow)
      requires Popped(q, Done(flow.addr)) && flow in flowsList
      modifies flow.input
      ensures Valid() && Marked() && q.jobs != [] && View() == RunTop(C(), q)
    {
      hide Inv, Registered, Times, Datas, Ids, Distinct, Inputs, Marked;
      RegisteredNow();
      InputsApart(flow);
      FlowFacts(q, Done(flow.addr), flow);
      TopIsExpected(C(), q);
      EndFlow(flow);
    }

    /** The state output_handler_done is entered in. */
    lemma SendingFacts(q: Queue)
      requires Popped(q, Done(output.id))
      ensures q.output.phase == DonePending && sendingFlow != null && previousFlow == null && !pg.IsSet(Schedule)
      ensures !sendingFlow.isQueued && sendingFlow.input.phase == Busy && sendingLen <= output.mtu
      ensures (forall b :: b in Ids(queuedTree) ==> b in Times()) && Sorted(Times(), Ids(queuedTree))
    {
      hide Roles, Ports, Lifo, Times, Datas, Inputs, Ids, Sorted;
      RegisteredNow();
      TopIsExpected(C(), q);
      FlowFacts(q, Done(output.id), sendingFlow);
      RoleOf(C(), q, sendingFlow.addr);
    }

    method RunOutputDone(ghost q: Queue)
      requires Popped(q, Done(output.id))
      modifies this, output, pg, (set f | f in flowsList :: f.input), (set f | f in flowsList)`time
      ensures Valid() && Marked() && q.jobs != [] && View() == RunTop(C(), q)
    {
      hide Inv, Registered, Times, Datas, Ids, Distinct, Inputs, Marked, Sorted, OutputDone;
      RegisteredNow();
      Apart();
      SendingFacts(q);
      output.JobDone();
      InputsFrame();
      OutputHandlerDone();
    }

    method RunOutputOperation(ghost q: Queue) returns (p: Packet)
      requires Popped(q, Operation(output.id))
      modifies output
      ensures Valid() && Marked() && q.jobs != [] && View() == RunTop(C(), q) && p == q.output.packet
    {
      hide Inv, Registered, Times, Datas, Ids, Distinct, Inputs, Marked;
      RegisteredNow();
      Apart();
      TopIsExpected(C(), q);
      p := output.JobOperation();
      InputsFrame();
    }

    method RunScheduleJob(ghost q: Queue)
      requires Popped(q, Schedule)
      modifies this, output, pg, (set f | f in flowsList)`isQueued
      ensures Valid() && Marked() && q.jobs != [] && View() == RunTop(C(), q)
    {
      hide Clocks, Roles, Ports, Lifo, Registered, Times, Datas, Ids, Distinct, Inputs, Marked, ScheduleHandler;
      RegisteredNow();
      QueuedSizes(q, Schedule);
      TopIsExpected(C(), q);
      ScheduleJobHandler();
    }

    /** The request-cancel handler of the output and the jobs of others do not touch the queue. */
    lemma QuietJob(q: Queue, job: Job)
      requires Popped(q, job) && (job.RequestCancel? || job.Other?)
      ensures q.jobs != [] && View() == RunTop(C(), q)
    {
      hide Inv, Registered, Times, Datas, Ids, Inputs, Marked;
      assert q.jobs[0] == job && q.jobs[1..] == pg.jobs;
    }

    method FlowAt(a: nat) returns (flow: Flow)
      requires Registered() && a in table
      ensures flow in flowsList && flow.addr == a
    {
      assert table[a] in flowsList;
      var i := 0;
      while flowsList[i].addr != a
        invariant 0 <= i < |flowsList| && table[a] in flowsList[i..]
        decreases |flowsList| - i
      {
        i := i + 1;
      }
      flow := flowsList[i];
    }

    method TakeJob() returns (job: Job)
      requires Valid() && Marked() && pg.jobs != [] && Inv(C(), View())
      modifies pg
      ensures Popped(old(View()), job) && (output.pg == pg && ValidConfig(C()))
      ensures (forall a :: job == Operation(a) || job == Done(a) ==> a == output.id || a in table)
    {
      hide Clocks, Roles, Lifo, Slots, Duty, Times, Datas, Ids, Marked, Distinct;
      ghost var q := View();
      RegisteredNow();
      Apart();
      TopIsExpected(C(), q);
      job := pg.ExecuteJob();
      assert q.jobs == [job] + pg.jobs;
      assert q.jobs[0] == job;
    }

    /** One turn of the event loop. No assertion in a handler can fail, and the object does what
        RunTop says. */
    method ExecuteJob()
      requires Valid() && Marked() && pg.jobs != [] && Inv(C(), View())
      modifies this, output, pg, flowsList, (set f | f in flowsList :: f.input)
      ensures Valid() && Marked() && View() == RunTop(C(), old(View())) && Inv(C(), View())
    {
      hide Inv, Registered, Times, Datas, Ids, Distinct, Inputs, Marked, RunTop;
      ghost var q := View();
      RegisteredNow();
      RunTopKeepsInv(C(), q);
      var job := TakeJob();
      match job
      case Operation(a) =>
        if a == output.id {
          var p := RunOutputOperation(q);
        } else {
          var flow := FlowAt(a);
          RunFlowOperation(q, flow);
        }
      case Done(a) =>
        if a == output.id {
          RunOutputDone(q);
        } else {
          var flow := FlowAt(a);
          RunFlowDone(q, flow);
        }
      case Schedule => RunScheduleJob(q);
      case RequestCancel(_) => QuietJob(q, job);
      case Other(_) => QuietJob(q, job);
    }

    /** The user of a flow sends a packet on its input. */
    method FlowSend(flow: Flow, p: Packet)
      requires Valid() && Marked() && flow in flowsList && Inv(C(), View())
      requires flow.input.phase == Idle && |p| <= output.mtu
      modifies flow.input, pg
      ensures Valid() && Marked() && Inv(C(), View()) && Enabled(C(), old(View()), UserSend(flow.addr, p))
      ensures View() == Step(C(), old(View()), UserSend(flow.addr, p))
    {
      hide Inv, Registered, Times, Datas, Ids, Distinct, Inputs, Marked, Set;
      RegisteredNow();
      InputsApart(flow);
      InputNow(flow);
      ghost var q := View();
      StepKeepsInv(C(), q, UserSend(flow.addr, p));
      SubmitTo(flow, p);
    }

    method SubmitTo(flow: Flow, p: Packet)
      requires Registered() && flow in flowsList && flow.input.phase == Idle && |p| <= flow.input.mtu
      modifies flow.input, pg
      ensures flow.addr in old(Inputs()) && output.State() == old(output.State())
      ensures var port := Send(Port(old(Inputs())[flow.addr], old(pg.jobs)), flow.addr, p);
              Inputs() == old(Inputs())[flow.addr := port.iface] && pg.jobs == port.jobs
    {
      hide Set;
      InputsApart(flow);
      flow.input.SenderSend(p);
    }

    lemma InputNow(flow: Flow)
      requires Valid() && flow in flowsList
      ensures flow.addr in Inputs() && Inputs()[flow.addr] == flow.input.State() && flow.input.mtu == output.mtu
    {
    }

    /** The provider behind the output is done. */
    method OutputCompletes()
      requires Valid() && Marked() && Inv(C(), View()) && output.phase == Busy
      modifies output, pg
      ensures Valid() && Marked() && Inv(C(), View()) && Enabled(C(), old(View()), OutputComplete)
      ensures View() == Step(C(), old(View()), OutputComplete)
    {
      hide Inv, Registered, Times, Datas, Ids, Distinct, Inputs, Marked, Set, Without;
      RegisteredNow();
      Apart();
      ghost var q := View();
      StepKeepsInv(C(), q, OutputComplete);
      output.ProviderDone();
      InputsFrame();
    }

    /** What OutputDone asks of the state. */
    ghost predicate Completes(q: Queue) {
      && Keys(C(), q) && q.sending.Some? && q.previous.None? && Schedule !in q.jobs
      && q.sending.value !in q.tree && q.input[q.sending.value].phase == Busy
    }

    lemma RegisteredNow()
      requires Valid()
      ensures Registered() && output.pg == pg && C().weight == packetWeight && ValidConfig(C())
    {
    }

    lemma CompletesNow()
      requires Valid() && Marked() && sendingFlow != null && previousFlow == null && !pg.IsSet(Schedule)
      requires !sendingFlow.isQueued && sendingFlow.input.phase == Busy && sendingLen <= output.mtu
      ensures Completes(View()) && packetWeight + sendingLen <= maxTime as int
    {
      ViewKeys();
      TreeMember(sendingFlow);
    }

    lemma AcceptsNow(flow: Flow, data: Packet)
      requires Valid() && Marked() && flow in flowsList && flow != sendingFlow && !flow.isQueued
      requires |data| <= output.mtu && forall f :: f in queuedTree ==> |f.data| <= output.mtu
      requires sendingFlow == null && !pg.IsSet(Schedule) ==> previousFlow == null && output.phase == Idle
      ensures Accepts(View(), flow.addr, data)
    {
      ViewKeys();
      TreeMember(flow);
      PreviousIs(flow);
      forall b | b in View().tree ensures |View().data[b]| <= C().mtu {
        var k :| 0 <= k < |queuedTree| && Ids(queuedTree)[k] == b;
        assert queuedTree[k] in queuedTree;
      }
    }

    lemma PreviousIs(flow: Flow)
      requires Valid() && flow in flowsList
      ensures flow == previousFlow <==> Id(previousFlow) == Some(flow.addr)
      ensures flow == sendingFlow <==> Id(sendingFlow) == Some(flow.addr)
      ensures flow.addr in Times()
    {
    }

    method RaiseTime(flow: Flow, now: U64)
      requires Registered() && flow in flowsList
      modifies flow`time
      ensures flow.addr in old(Times())
      ensures Times() ==
              old(Times())[flow.addr := if old(Times())[flow.addr] > now as int then old(Times())[flow.addr]
                                        else now as int]
    {
      flow.time := if flow.time > now then flow.time else now;
    }
  }

  lemma DistinctInsert(s: seq<Flow>, f: Flow, i: nat)
    requires Distinct(s) && f !in s && i <= |s|
    ensures Distinct(s[..i] + [f] + s[i..])
  {
    var r := s[..i] + [f] + s[i..];
    forall j, k | 0 <= j < k < |r| ensures r[j] != r[k] {
      assert j != i ==> r[j] == s[if j < i then j else j - 1];
      assert k != i ==> r[k] == s[if k < i then k else k - 1];
    }
  }

  method IndexOf(s: seq<Flow>, f: Flow) returns (i: nat)
    requires f in s
    ensures i < |s| && s[i] == f && f !in s[..i]
  {
    i := 0;
    while s[i] != f
      invariant i < |s| && f !in s[..i]
      decreases |s| - i
    {
      i := i + 1;
    }
  }

  lemma CutOut(s: seq<Flow>, f: Flow, i: nat)
    requires Distinct(s) && i < |s| && s[i] == f
    ensures var r := s[..i] + s[i + 1..];
            Distinct(r) && forall g :: g in r <==> g in s && g != f
  {
    var r := s[..i] + s[i + 1..];
    forall g | g in s && g != f ensures g in r {
      var k :| 0 <= k < |s| && s[k] == g;
      assert r[if k < i then k else k - 1] == g;
    }
  }

  lemma WiredRemove(table: map<nat, Flow>, list: seq<Flow>, output: PacketPassInterface, pg: PendingGroup,
                    flow: Flow, i: nat)
    requires Wired(table, list, output, pg) && i < |list| && list[i] == flow
    ensures var r := list[..i] + list[i + 1..];
            Wired(table - {flow.addr}, r, output, pg) && forall f :: f in r <==> f in list && f != flow
  {
    hide Distinct;
    CutOut(list, flow, i);
  }

  lemma DistinctAppend(s: seq<Flow>, f: Flow)
    requires Distinct(s) && f !in s
    ensures Distinct(s + [f])
  {
  }

  lemma IdsInsert(s: seq<Flow>, f: Flow, i: nat)
    requires i <= |s|
    ensures Ids(s[..i] + [f] + s[i..]) == Ids(s)[..i] + [f.addr] + Ids(s)[i..]
    ensures forall g :: g in s[..i] + [f] + s[i..] <==> g in s || g == f
  {
    assert s == s[..i] + s[i..];
  }

  lemma {:induction false} InsertAt(time: map<nat, int>, tree: seq<nat>, a: nat, i: nat)
    requires a in time && forall b :: b in tree ==> b in time
    requires i <= |tree| && forall k :: 0 <= k < i ==> !Before(time, a, tree[k])
    requires i < |tree| ==> Before(time, a, tree[i])
    ensures Insert(time, tree, a) == tree[..i] + [a] + tree[i..]
  {
    if i > 0 {
      var rest := tree[1..];
      assert tree == [tree[0]] + rest;
      InsertAt(time, rest, a, i - 1);
      assert rest[i - 1..] == tree[i..];
      assert tree[..i] == [tree[0]] + rest[..i - 1];
    }
  }

  /** Flows are known by their address, and no two interfaces share one. */
  ghost predicate Wired(table: map<nat, Flow>, list: seq<Flow>, output: PacketPassInterface, pg: PendingGroup) {
    && output.pg == pg && output.id !in table
    && (forall a :: a in table ==> table[a] in list && table[a].addr == a)
    && (forall f :: f in list ==>
          && f.addr in table && table[f.addr] == f
          && f.input.pg == pg && f.input.id == f.addr && f.input.mtu == output.mtu)
    && Distinct(list)
  }

  lemma WiredAppend(table: map<nat, Flow>, list: seq<Flow>, output: PacketPassInterface, pg: PendingGroup, flow: Flow)
    requires Wired(table, list, output, pg) && flow.addr !in table && flow.addr != output.id
    requires flow.input.pg == pg && flow.input.id == flow.addr && flow.input.mtu == output.mtu
    ensures flow !in list && Wired(table[flow.addr := flow], list + [flow], output, pg)
  {
    hide Distinct;
    DistinctAppend(list, flow);
    assert forall f :: f in list + [flow] <==> f in list || f == flow;
  }

  /** All clocks after the loop of increment_sent_flow. */
  ghost function Shifted(times: map<nat, int>, f: nat, s: int): map<nat, int> {
    map a | a in times :: if s > times[a] && a != f then 0 else Wrap(times[a] - s)
  }

  lemma ChargeByParts(c: Config, times: map<nat, int>, tree: seq<nat>, f: nat, amount: int)
    requires c.maxTime.Some? && f in times && (tree != [] ==> tree[0] in times)
    requires forall a :: a in times ==> 0 <= times[a] < TWO64
    ensures amount > Wrap(c.maxTime.value - times[f]) ==>
              var mid := Shifted(times, f, if tree == [] then times[f] else times[tree[0]]);
              f in mid && Charge(c, times, tree, f, amount) == mid[f := Wrap(mid[f] + amount)]
    ensures amount <= Wrap(c.maxTime.value - times[f]) ==>
              Charge(c, times, tree, f, amount) == times[f := Wrap(times[f] + amount)]
  {
    var s := Rebase(c, times, tree, f, amount);
    assert forall a :: a in times && s <= times[a] ==> Wrap(times[a] - s) == times[a] - s;
  }

  lemma HeadIsLeast(time: map<nat, int>, tree: seq<nat>, a: nat)
    requires forall b :: b in tree ==> b in time
    requires Sorted(time, tree) && a in tree
    ensures time[tree[0]] <= time[a]
  {
    var k :| 0 <= k < |tree| && tree[k] == a;
    if k > 0 { assert Before(time, tree[0], tree[k]); }
  }
}
