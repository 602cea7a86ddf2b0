/** PacketPassFairQueue.c on values: the state of a queue with its interfaces and job list,
    what every handler does to it, and the invariant every run keeps. */
module FairQueue {
  import opened Basics
  import opened Pending
  import opened PassInterface

  const TWO64 := 0x1_0000_0000_0000_0000

  /** uint64_t arithmetic. */
  function Wrap(x: int): int {
    x % TWO64
  }

  /** out is the address of the output interface. maxTime is FAIRQUEUE_MAX_TIME; None stands for
      a queue whose clocks are unbounded integers, which never rebases. */
  datatype Config = Config(out: nat, weight: nat, mtu: nat, maxTime: Option<nat>)

  /** What PacketPassFairQueue_Init requires and checks. */
  ghost predicate ValidConfig(c: Config) {
    c.weight > 0 && (c.maxTime.Some? ==> c.mtu + c.weight <= c.maxTime.value < TWO64)
  }

  /** Flows are named by their address. tree is the search tree of queued flows, in order. */
  datatype Queue = Queue(
    time: map<nat, int>,
    tree: seq<nat>,
    sending: Option<nat>,
    sendingLen: int,
    previous: Option<nat>,
    data: map<nat, Packet>,
    input: map<nat, Iface>,
    output: Iface,
    jobs: seq<Job>)

  /** compare_flows(a, b) < 0. */
  predicate Before(time: map<nat, int>, a: nat, b: nat)
    requires a in time && b in time
  {
    time[a] < time[b] || (time[a] == time[b] && a < b)
  }

  ghost predicate Sorted(time: map<nat, int>, tree: seq<nat>)
    requires forall a :: a in tree ==> a in time
  {
    forall i, j :: 0 <= i < j < |tree| ==> Before(time, tree[i], tree[j])
  }

  function Insert(time: map<nat, int>, tree: seq<nat>, a: nat): (r: seq<nat>)
    requires a in time && forall b :: b in tree ==> b in time
    ensures forall b :: b in r <==> b in tree || b == a
  {
    if tree == [] || Before(time, a, tree[0]) then [a] + tree
    else
      assert tree == [tree[0]] + tree[1..];
      [tree[0]] + Insert(time, tree[1..], a)
  }

  /** Every name in use is the name of a flow. */
  ghost predicate Keys(c: Config, q: Queue) {
    && q.data.Keys == q.time.Keys && q.input.Keys == q.time.Keys && c.out !in q.time
    && (forall a :: a in q.tree ==> a in q.time)
    && (q.sending.Some? ==> q.sending.value in q.time)
    && (q.previous.Some? ==> q.previous.value in q.time)
  }

  function CurrentTime(time: map<nat, int>, tree: seq<nat>, sending: Option<nat>, previous: Option<nat>): int
    requires tree != [] ==> tree[0] in time
    requires sending.Some? ==> sending.value in time
    requires previous.Some? ==> previous.value in time
  {
    if sending.Some? then time[sending.value]
    else if tree != [] then
      if previous.Some? && time[previous.value] < time[tree[0]] then time[previous.value] else time[tree[0]]
    else if previous.Some? then time[previous.value]
    else 0
  }

  function Now(c: Config, q: Queue): int
    requires Keys(c, q)
  {
    CurrentTime(q.time, q.tree, q.sending, q.previous)
  }

  /** The amount taken off all clocks when charging f; 0 when its clock does not overflow. */
  function Rebase(c: Config, time: map<nat, int>, tree: seq<nat>, f: nat, amount: int): int
    requires f in time && (tree != [] ==> tree[0] in time)
  {
    if c.maxTime.Some? && amount > Wrap(c.maxTime.value - time[f]) then
      if tree == [] then time[f] else time[tree[0]]
    else 0
  }

  /** increment_sent_flow. The clock of f may wrap below zero and back. */
  function Charge(c: Config, time: map<nat, int>, tree: seq<nat>, f: nat, amount: int): map<nat, int>
    requires f in time && (tree != [] ==> tree[0] in time)
  {
    if c.maxTime.None? then time[f := time[f] + amount]
    else
      var subtract := Rebase(c, time, tree, f, amount);
      map a | a in time ::
        if a == f then Wrap(Wrap(time[f] - subtract) + amount)
        else if subtract > time[a] then 0
        else time[a] - subtract
  }

  function DoSchedule(c: Config, q: Queue): Queue
    requires Keys(c, q) && q.sending.None? && q.previous.None? && q.tree != []
    requires q.output.phase == Idle && |q.data[q.tree[0]]| <= c.mtu
  {
    var f := q.tree[0];
    var port := Send(Port(q.output, q.jobs), c.out, q.data[f]);
    q.(tree := q.tree[1..], output := port.iface, jobs := port.jobs,
       sending := Some(f), sendingLen := |q.data[f]|)
  }

  function ScheduleHandler(c: Config, q: Queue): Queue
    requires Keys(c, q) && q.sending.None?
    requires q.output.phase == Idle && forall a :: a in q.tree ==> |q.data[a]| <= c.mtu
  {
    var q1 := q.(previous := None);
    if q1.tree != [] then DoSchedule(c, q1) else q1
  }

  /** The part of input_handler_send that puts flow a into the tree. */
  function Enqueue(c: Config, q: Queue, a: nat, p: Packet): Queue
    requires Keys(c, q) && a in q.time && q.sending != Some(a) && a !in q.tree
  {
    var q1 := if q.previous == Some(a) then q.(previous := None)
              else q.(time := q.time[a := if q.time[a] > Now(c, q) then q.time[a] else Now(c, q)]);
    q1.(data := q1.data[a := p], tree := Insert(q1.time, q1.tree, a))
  }

  function InputSend(c: Config, q: Queue, a: nat, p: Packet): Queue
    requires Keys(c, q) && a in q.time && q.sending != Some(a) && a !in q.tree
    requires |p| <= c.mtu && forall b :: b in q.tree ==> |q.data[b]| <= c.mtu
    requires q.sending.None? && Schedule !in q.jobs ==> q.previous.None? && q.output.phase == Idle
  {
    var q1 := Enqueue(c, q, a, p);
    if q1.sending.None? && Schedule !in q1.jobs then DoSchedule(c, q1) else q1
  }

  function OutputDone(c: Config, q: Queue): Queue
    requires Keys(c, q) && q.sending.Some? && q.previous.None? && Schedule !in q.jobs
    requires q.sending.value !in q.tree && q.input[q.sending.value].phase == Busy
  {
    var f := q.sending.value;
    var time := Charge(c, q.time, q.tree, f, c.weight + q.sendingLen);
    var port := Finish(Port(q.input[f], Set(q.jobs, Schedule)), f);
    q.(sending := None, previous := Some(f), time := time,
       input := q.input[f := port.iface], jobs := port.jobs)
  }

  /** Clocks stay in range, and nothing queued is behind the flow being sent. */
  ghost predicate Clocks(c: Config, time: map<nat, int>, tree: seq<nat>, sending: Option<nat>)
    requires forall a :: a in tree ==> a in time
    requires sending.Some? ==> sending.value in time
  {
    && Sorted(time, tree)
    && (forall a :: a in time ==> 0 <= time[a] && (c.maxTime.Some? ==> time[a] <= c.maxTime.value))
    && (sending.Some? ==> forall b :: b in tree ==> time[sending.value] <= time[b])
  }

  /** What being queued or sending means for the input interface of a flow. */
  predicate Role(c: Config, i: Iface, data: Packet, engaged: bool) {
    && (i.phase == Busy <==> engaged)
    && (i.phase == OperationPending ==> |i.packet| <= c.mtu)
    && (i.phase == Busy ==> data == i.packet && |data| <= c.mtu)
  }

  ghost predicate Roles(c: Config, tree: seq<nat>, sending: Option<nat>, data: map<nat, Packet>, input: map<nat, Iface>)
    requires data.Keys == input.Keys
  {
    forall a :: a in input ==> Role(c, input[a], data[a], a in tree || sending == Some(a))
  }

  /** The sending and previous slots, the output interface and the schedule job. */
  ghost predicate Slots(c: Config, q: Queue)
    requires Keys(c, q)
  {
    && (q.sending.Some? ==> q.sending.value !in q.tree && q.previous.None?)
    && (q.previous.Some? ==> q.previous.value !in q.tree)
    && (q.sending.Some? <==> q.output.phase != Idle)
    && (q.sending.Some? ==> q.output.packet == q.data[q.sending.value] && q.sendingLen == |q.output.packet|)
  }

  /** Who is responsible for the next send. */
  ghost predicate Duty(q: Queue) {
    && (q.previous.Some? ==> Schedule in q.jobs)
    && (Schedule in q.jobs ==> q.sending.None?)
    && (q.tree != [] ==> q.sending.Some? || Schedule in q.jobs)
  }

  predicate Known(c: Config, input: map<nat, Iface>, j: Job) {
    match j
    case Operation(a) => a in input || a == c.out
    case RequestCancel(a) => a in input || a == c.out
    case Done(a) => a in input || a == c.out
    case Schedule => true
    case Other(_) => true
  }

  /** The pending jobs are the ones the interfaces call for; inputs cannot be cancelled. */
  ghost predicate Ports(c: Config, input: map<nat, Iface>, output: Iface, jobs: seq<Job>) {
    && Distinct(jobs)
    && (forall a :: a in input ==> Linked(input[a], a, jobs) && !input[a].cancelRequested)
    && Linked(output, c.out, jobs)
    && (forall j :: j in jobs ==> Known(c, input, j))
  }

  /** As long as the previous flow has something to say, that is above the schedule job. */
  ghost predicate Lifo(q: Queue) {
    q.previous.Some? && q.previous.value in q.input ==>
      var i := q.input[q.previous.value];
      && (i.phase == OperationPending ==> Operation(q.previous.value) in Over(q.jobs, Schedule))
      && (i.phase == DonePending ==> Done(q.previous.value) in Over(q.jobs, Schedule))
  }

  ghost predicate Inv(c: Config, q: Queue) {
    && Keys(c, q)
    && Clocks(c, q.time, q.tree, q.sending)
    && Roles(c, q.tree, q.sending, q.data, q.input)
    && Ports(c, q.input, q.output, q.jobs)
    && Slots(c, q)
    && Duty(q)
    && Lifo(q)
  }

  datatype Event =
    | Execute                     // the event loop runs the top job
    | UserSend(a: nat, p: Packet) // the user of flow a sends a packet
    | OutputComplete              // the provider behind the output is done
    | AskCancel(a: nat)           // PacketPassFairQueueFlow_RequestCancel
    | NewFlow(a: nat)
    | FreeFlow(a: nat)
    | SetOther(k: nat)            // jobs of unrelated components on the same list
    | UnsetOther(k: nat)

  /** The calling rules for users of the queue and for the provider behind it. */
  predicate Enabled(c: Config, q: Queue, e: Event) {
    match e
    case Execute => q.jobs != []
    case UserSend(a, p) => a in q.input && q.input[a].phase == Idle && |p| <= c.mtu
    case OutputComplete => q.output.phase == Busy
    case AskCancel(a) => q.sending == Some(a)
    case NewFlow(a) => a !in q.time && a != c.out
    case FreeFlow(a) => a in q.time && q.sending != Some(a)
    case SetOther(_) => true
    case UnsetOther(_) => true
  }

  /** BPendingGroup_ExecuteJob. That the handlers may be called is what Inv provides. */
  function RunTop(c: Config, q: Queue): Queue
    requires Inv(c, q) && q.jobs != []
  {
    PopTop(q.jobs, Schedule);
    assert Known(c, q.input, q.jobs[0]);
    var rest := q.(jobs := q.jobs[1..]);
    match q.jobs[0]
    case Operation(a) =>
      if a == c.out then rest.(output := q.output.(phase := Busy))
      else InputSend(c, rest.(input := q.input[a := q.input[a].(phase := Busy)]), a, q.input[a].packet)
    case Done(a) =>
      if a == c.out then OutputDone(c, rest.(output := q.output.(phase := Idle)))
      else rest.(input := q.input[a := q.input[a].(phase := Idle)])
    case RequestCancel(_) => rest
    case Schedule => ScheduleHandler(c, rest)
    case Other(_) => rest
  }

  function Release(q: Queue, a: nat): Queue
    requires a in q.time
  {
    Queue(q.time - {a}, Without(q.tree, a), q.sending, q.sendingLen,
          if q.previous == Some(a) then None else q.previous,
          q.data - {a}, q.input - {a}, q.output,
          Without(Without(Without(q.jobs, Done(a)), RequestCancel(a)), Operation(a)))
  }

  function Step(c: Config, q: Queue, e: Event): Queue
    requires Inv(c, q) && Enabled(c, q, e)
  {
    match e
    case Execute => RunTop(c, q)
    case UserSend(a, p) =>
      var port := Send(Port(q.input[a], q.jobs), a, p);
      q.(input := q.input[a := port.iface], jobs := port.jobs)
    case OutputComplete =>
      var port := Finish(Port(q.output, q.jobs), c.out);
      q.(output := port.iface, jobs := port.jobs)
    case AskCancel(_) =>
      var port := Cancel(Port(q.output, q.jobs), c.out);
      q.(output := port.iface, jobs := port.jobs)
    case NewFlow(a) =>
      q.(time := q.time[a := 0], data := q.data[a := []], input := q.input[a := FRESH])
    case FreeFlow(a) => Release(q, a)
    case SetOther(k) => q.(jobs := Set(q.jobs, Other(k)))
    case UnsetOther(k) => q.(jobs := Without(q.jobs, Other(k)))
  }

  const EMPTY := Queue(map[], [], None, 0, None, map[], map[], FRESH, [])
}
