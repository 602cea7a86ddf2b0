/** Conservation: what users submit on a flow, what is passed to the output, and what is
    acknowledged, over whole runs. */
module FairQueueHistory {
  import opened Basics
  import opened Pending
  import opened PassInterface
  import opened FairQueue
  import opened FairQueueSafety
  import opened FairQueueRuns

  /** Per live flow: the packets submitted on it, the packets of it passed to the output, and the
      number of done calls its user received. */
  datatype History = History(
    submitted: map<nat, seq<Packet>>,
    passed: map<nat, seq<Packet>>,
    dones: map<nat, nat>)

  const NO_HISTORY := History(map[], map[], map[])

  ghost predicate Tracks(q: Queue, h: History) {
    h.submitted.Keys == q.time.Keys && h.passed.Keys == q.time.Keys && h.dones.Keys == q.time.Keys
  }

  function Record(c: Config, q: Queue, h: History, e: Event): History
    requires ValidConfig(c) && Inv(c, q) && Enabled(c, q, e) && Tracks(q, h)
  {
    var q' := Step(c, q, e);
    match e
    case UserSend(a, p) => h.(submitted := h.submitted[a := h.submitted[a] + [p]])
    case NewFlow(a) => History(h.submitted[a := []], h.passed[a := []], h.dones[a := 0])
    case FreeFlow(a) => History(h.submitted - {a}, h.passed - {a}, h.dones - {a})
    case Execute =>
      if q.sending.None? && q'.sending.Some? then
        StepKeepsInv(c, q, e);
        var f := q'.sending.value;
        ExecuteKeepsKeys(c, q);
        h.(passed := h.passed[f := h.passed[f] + [q'.output.packet]])
      else if q.jobs[0].Done? && q.jobs[0].i != c.out then
        TopIsExpected(c, q);
        h.(dones := h.dones[q.jobs[0].i := h.dones[q.jobs[0].i] + 1])
      else h
    case _ => h
  }

  lemma ExecuteKeepsKeys(c: Config, q: Queue)
    requires ValidConfig(c) && Inv(c, q) && q.jobs != []
    ensures RunTop(c, q).time.Keys == q.time.Keys
  {
    TopIsExpected(c, q);
    if q.jobs[0] == Done(c.out) {
      ChargeExact(c, q.time, q.tree, q.sending.value, c.weight + q.sendingLen);
    }
  }

  /** The packet of flow a that was submitted but not yet passed to the output, if any. */
  function Held(q: Queue, a: nat): seq<Packet>
    requires a in q.input && a in q.data
  {
    if q.input[a].phase == OperationPending then [q.input[a].packet]
    else if a in q.tree then [q.data[a]]
    else []
  }

  function Owed(q: Queue, a: nat): nat
    requires a in q.input
  {
    if q.sending == Some(a) || q.input[a].phase == DonePending then 1 else 0
  }

  ghost predicate BooksMatch(q: Queue, h: History, a: nat) {
    && a in q.input && a in q.data && a in h.submitted && a in h.passed && a in h.dones
    && h.submitted[a] == h.passed[a] + Held(q, a)
    && |h.passed[a]| == h.dones[a] + Owed(q, a)
  }

  ghost predicate Balanced(q: Queue, h: History) {
    Tracks(q, h) && forall a :: a in q.time ==> BooksMatch(q, h, a)
  }

  /** Running the operation job of flow a puts its packet into the tree, or on the output at
      once when nothing else is going on. */
  lemma OperationEffect(c: Config, q: Queue, a: nat)
    requires ValidConfig(c) && Inv(c, q) && q.jobs != [] && q.jobs[0] == Operation(a) && a != c.out
    ensures a in q.input && q.input[a].phase == OperationPending && a !in q.tree
    ensures var q' := RunTop(c, q);
            && q'.input == q.input[a := q.input[a].(phase := Busy)]
            && q'.data == q.data[a := q.input[a].packet]
            && (if q.sending.None? && q'.sending.Some?
                then q.tree == [] && q'.tree == [] && q'.sending == Some(a) && q'.output.packet == q.input[a].packet
                else q'.sending == q.sending && forall b :: b in q'.tree <==> b in q.tree || b == a)
  {
    PopOperation(c, q, a);
    EnqueueEffect(c, q.(jobs := q.jobs[1..], input := q.input[a := q.input[a].(phase := Busy)]), a, q.input[a].packet);
  }

  lemma EnqueueEffect(c: Config, q: Queue, a: nat, p: Packet)
    requires Keys(c, q) && a in q.time && q.sending != Some(a) && a !in q.tree
    ensures var e := Enqueue(c, q, a, p);
            && (forall b :: b in e.tree <==> b in q.tree || b == a)
            && e.data == q.data[a := p] && e.input == q.input && e.jobs == q.jobs && e.output == q.output
            && (q.tree == [] ==> e.tree == [a])
  {
  }

  lemma ScheduleEffect(c: Config, q: Queue)
    requires ValidConfig(c) && Inv(c, q) && q.jobs != [] && q.jobs[0] == Schedule
    ensures var q' := RunTop(c, q);
            && q'.input == q.input && q'.data == q.data && q.sending.None?
            && (if q'.sending.Some?
                then q'.sending.value in q.tree && q'.sending.value !in q'.tree &&
                     q'.output.packet == q.data[q'.sending.value] &&
                     forall b :: b in q.tree <==> b in q'.tree || b == q'.sending.value
                else q'.tree == q.tree)
  {
    if q.tree != [] { HeadLeaves(q.time, q.tree); }
  }

  lemma OperationBalances(c: Config, q: Queue, h: History, a: nat, b: nat)
    requires ValidConfig(c) && Inv(c, q) && q.jobs != [] && Balanced(q, h) && b in q.time
    requires q.jobs[0] == Operation(a) && a != c.out
    requires Inv(c, RunTop(c, q)) && b in RunTop(c, q).time
    ensures BooksMatch(RunTop(c, q), Record(c, q, h, Execute), b)
  {
    hide Clocks, Roles, Ports, Lifo, RunTop, Inv;
    assert BooksMatch(q, h, b);
    OperationEffect(c, q, a);
  }

  lemma ScheduleBalances(c: Config, q: Queue, h: History, b: nat)
    requires ValidConfig(c) && Inv(c, q) && q.jobs != [] && Balanced(q, h) && b in q.time
    requires q.jobs[0] == Schedule
    requires Inv(c, RunTop(c, q)) && b in RunTop(c, q).time
    ensures BooksMatch(RunTop(c, q), Record(c, q, h, Execute), b)
  {
    hide Inv, RunTop;
    RoleOf(c, q, b);
    assert BooksMatch(q, h, b);
    ScheduleEffect(c, q);
  }

  lemma OtherJobsBalance(c: Config, q: Queue, h: History, b: nat)
    requires ValidConfig(c) && Inv(c, q) && q.jobs != [] && Balanced(q, h) && b in q.time
    requires q.jobs[0] != Schedule && (q.jobs[0].Operation? ==> q.jobs[0].i == c.out)
    requires Inv(c, RunTop(c, q)) && b in RunTop(c, q).time
    ensures BooksMatch(RunTop(c, q), Record(c, q, h, Execute), b)
  {
    hide Inv, InputSend, ScheduleHandler, Charge, Set, Without;
    assert BooksMatch(q, h, b);
    TopIsExpected(c, q);
    RoleOf(c, q, b);
  }

  lemma ExecuteTracks(c: Config, q: Queue, h: History)
    requires ValidConfig(c) && Inv(c, q) && q.jobs != [] && Tracks(q, h)
    ensures RunTop(c, q).time.Keys == q.time.Keys && Tracks(RunTop(c, q), Record(c, q, h, Execute))
  {
    hide Inv, RunTop;
    KeysOf(c, q);
    RunTopKeepsInv(c, q);
    KeysOf(c, RunTop(c, q));
    ExecuteKeepsKeys(c, q);
    TopIsExpected(c, q);
  }

  /** How one executed job changes the books of flow b. */
  lemma ExecuteBalances(c: Config, q: Queue, h: History)
    requires ValidConfig(c) && Inv(c, q) && q.jobs != [] && Balanced(q, h)
    ensures Inv(c, RunTop(c, q)) && Balanced(RunTop(c, q), Record(c, q, h, Execute))
  {
    RunTopKeepsInv(c, q);
    ExecuteTracks(c, q, h);
    var q', r := RunTop(c, q), Record(c, q, h, Execute);
    forall b | b in q'.time ensures BooksMatch(q', r, b) {
      match q.jobs[0]
      case Schedule => ScheduleBalances(c, q, h, b);
      case Operation(a) =>
        if a == c.out { OtherJobsBalance(c, q, h, b); } else { OperationBalances(c, q, h, a, b); }
      case _ => OtherJobsBalance(c, q, h, b);
    }
  }

  lemma BooksFrame(q: Queue, h: History, q': Queue, h': History, b: nat)
    requires BooksMatch(q, h, b)
    requires b in q'.input && b in q'.data && b in h'.submitted && b in h'.passed && b in h'.dones
    requires q'.input[b] == q.input[b] && q'.data[b] == q.data[b]
    requires h'.submitted[b] == h.submitted[b] && h'.passed[b] == h.passed[b] && h'.dones[b] == h.dones[b]
    requires (b in q'.tree <==> b in q.tree) && q'.sending == q.sending
    ensures BooksMatch(q', h', b)
  {
  }

  lemma FreeFlowBalances(c: Config, q: Queue, h: History, a: nat)
    requires ValidConfig(c) && Inv(c, q) && Enabled(c, q, FreeFlow(a)) && Balanced(q, h)
    ensures Balanced(Release(q, a), Record(c, q, h, FreeFlow(a)))
  {
    WithoutSorted(q.time, q.tree, a);
    var q', r := Release(q, a), Record(c, q, h, FreeFlow(a));
    forall b | b in q'.time ensures BooksMatch(q', r, b) {
      BooksFrame(q, h, q', r, b);
    }
  }

  lemma UserSendBooks(c: Config, q: Queue, h: History, a: nat, p: Packet)
    requires ValidConfig(c) && Inv(c, q) && Enabled(c, q, UserSend(a, p)) && Tracks(q, h) && a in q.time
             && BooksMatch(q, h, a)
    ensures BooksMatch(Step(c, q, UserSend(a, p)), Record(c, q, h, UserSend(a, p)), a)
  {
    hide Inv, RunTop, Set, Without;
    RoleOf(c, q, a);
  }

  lemma UserSendBalances(c: Config, q: Queue, h: History, a: nat, p: Packet)
    requires ValidConfig(c) && Inv(c, q) && Enabled(c, q, UserSend(a, p)) && Balanced(q, h)
    ensures Balanced(Step(c, q, UserSend(a, p)), Record(c, q, h, UserSend(a, p)))
  {
    hide Inv, RunTop, Set, Without, BooksMatch;
    RoleOf(c, q, a);
    var q', r := Step(c, q, UserSend(a, p)), Record(c, q, h, UserSend(a, p));
    forall b | b in q'.time ensures BooksMatch(q', r, b) {
      assert BooksMatch(q, h, b);
      if b == a {
        UserSendBooks(c, q, h, a, p);
      } else {
        BooksHold(q, h, b);
        BooksFrame(q, h, q', r, b);
      }
    }
  }

  lemma BooksHold(q: Queue, h: History, b: nat)
    requires BooksMatch(q, h, b)
    ensures b in q.input && b in q.data && b in h.submitted && b in h.passed && b in h.dones
  {
  }

  lemma NewFlowBalances(c: Config, q: Queue, h: History, a: nat)
    requires ValidConfig(c) && Inv(c, q) && Enabled(c, q, NewFlow(a)) && Balanced(q, h)
    ensures Balanced(Step(c, q, NewFlow(a)), Record(c, q, h, NewFlow(a)))
  {
    var q', r := Step(c, q, NewFlow(a)), Record(c, q, h, NewFlow(a));
    forall b | b in q'.time ensures BooksMatch(q', r, b) {
      if b != a { BooksFrame(q, h, q', r, b); }
    }
  }

  /** Events that touch neither a flow's interface nor the tree. */
  lemma QuietBalances(c: Config, q: Queue, h: History, e: Event)
    requires ValidConfig(c) && Inv(c, q) && Enabled(c, q, e) && Balanced(q, h)
    requires e.OutputComplete? || e.AskCancel? || e.SetOther? || e.UnsetOther?
    ensures Balanced(Step(c, q, e), Record(c, q, h, e))
  {
    hide Inv, RunTop, Set, Without;
    var q' := Step(c, q, e);
    forall b | b in q'.time ensures BooksMatch(q', h, b) {
      BooksFrame(q, h, q', h, b);
    }
  }

  lemma StepBalances(c: Config, q: Queue, h: History, e: Event)
    requires ValidConfig(c) && Inv(c, q) && Enabled(c, q, e) && Balanced(q, h)
    ensures Inv(c, Step(c, q, e)) && Balanced(Step(c, q, e), Record(c, q, h, e))
  {
    StepKeepsInv(c, q, e);
    match e
    case Execute => ExecuteBalances(c, q, h);
    case FreeFlow(a) => FreeFlowBalances(c, q, h, a);
    case UserSend(a, p) => UserSendBalances(c, q, h, a, p);
    case NewFlow(a) => NewFlowBalances(c, q, h, a);
    case _ => QuietBalances(c, q, h, e);
  }

  ghost function RunHistory(c: Config, q: Queue, h: History, es: seq<Event>): History
    requires ValidConfig(c) && Inv(c, q) && Legal(c, q, es) && Balanced(q, h)
    decreases es
  {
    if es == [] then h else
    StepBalances(c, q, h, es[0]);
    RunHistory(c, Step(c, q, es[0]), Record(c, q, h, es[0]), es[1..])
  }

  lemma {:induction false} RunBalances(c: Config, q: Queue, h: History, es: seq<Event>)
    requires ValidConfig(c) && Inv(c, q) && Legal(c, q, es) && Balanced(q, h)
    ensures Inv(c, Run(c, q, es)) && Balanced(Run(c, q, es), RunHistory(c, q, h, es))
    decreases es
  {
    if es != [] {
      StepBalances(c, q, h, es[0]);
      RunBalances(c, Step(c, q, es[0]), Record(c, q, h, es[0]), es[1..]);
    }
  }

  /** On every run, for every live flow: what was passed to the output is what was submitted, in
      order, each packet once, short of at most one packet that the queue still holds; and the
      user has had one done per passed packet, short of at most the latest. Nothing is held when
      the flow's interface is idle. */
  lemma RunConserves(c: Config, es: seq<Event>, a: nat)
    requires ValidConfig(c) && Legal(c, EMPTY, es)
    requires a in Run(c, EMPTY, es).time
    ensures var q := Run(c, EMPTY, es);
            var h := RunHistory(c, EMPTY, NO_HISTORY, es);
            && a in h.submitted && a in h.passed && a in h.dones && a in q.input
            && h.passed[a] <= h.submitted[a]
            && h.dones[a] <= |h.passed[a]| && |h.submitted[a]| <= h.dones[a] + 1
            && (q.input[a].phase == Idle ==> h.passed[a] == h.submitted[a] && h.dones[a] == |h.submitted[a]|)
  {
    EmptyInv(c);
    hide Step, Record, Legal, Enabled, Inv;
    RunBalances(c, EMPTY, NO_HISTORY, es);
    var q := Run(c, EMPTY, es);
    assert BooksMatch(q, RunHistory(c, EMPTY, NO_HISTORY, es), a);
    RoleOf(c, q, a);
  }
}
