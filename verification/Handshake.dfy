/** Runs of one PacketPassInterface beside any number of jobs of other components. */
module Handshake {
  import opened Basics
  import opened Pending
  import opened PassInterface

  /** What became of an accepted packet: not yet decided, handed to the provider, or
      cancelled before the provider saw it. */
  datatype Fate = Waiting(p: Packet) | Delivered(p: Packet) | Withdrawn(p: Packet)

  /** An interface with its history: the fate of every accepted packet, what the provider
      received, how often the sender was told "done", and how often the provider was asked
      to cancel the latest packet. */
  datatype Link = Link(port: Port, fates: seq<Fate>, received: seq<Packet>, told: nat, asked: nat)

  datatype Event =
    | Submit(p: Packet)       // sender: Sender_Send
    | Complete                // provider: Done
    | Abort                   // sender: Sender_RequestCancel
    | Execute                 // the event loop runs the top job
    | SetForeign(j: Job)      // another component sets or unsets one of its jobs
    | UnsetForeign(j: Job)

  /** The calling rules stated by the interface; the assertions inside the job handlers are
      not among them. */
  predicate Enabled(s: Link, id: nat, mtu: nat, e: Event) {
    match e
    case Submit(p) => s.port.iface.phase == Idle && |p| <= mtu
    case Complete => s.port.iface.phase == Busy
    case Abort => s.port.iface.phase != Idle
    case Execute => s.port.jobs != []
    case SetForeign(j) => !Own(j, id)
    case UnsetForeign(j) => !Own(j, id)
  }

  ghost predicate Settled(fates: seq<Fate>) {
    forall k :: 0 <= k < |fates| - 1 ==> !fates[k].Waiting?
  }

  /** The packets that were handed over, in the order they were accepted. */
  function HandedOver(fates: seq<Fate>): seq<Packet> {
    if fates == [] then []
    else HandedOver(fates[..|fates| - 1]) +
         match fates[|fates| - 1] { case Delivered(p) => [p] case _ => [] }
  }

  ghost predicate Inv(s: Link, id: nat) {
    var i := s.port.iface;
    && Distinct(s.port.jobs)
    && Linked(i, id, s.port.jobs)
    && Settled(s.fates)
    && (s.fates != [] ==> (s.fates[|s.fates| - 1].Waiting? <==> i.phase == OperationPending))
    && (i.phase == OperationPending ==> !i.cancelRequested)
    && (i.phase != Idle ==> s.fates != [] && s.fates[|s.fates| - 1].p == i.packet)
    && (i.phase == Busy ==> s.fates[|s.fates| - 1].Delivered?)
    && s.received == HandedOver(s.fates)
    && s.told == |s.fates| - (if i.phase == Idle then 0 else 1)
    && s.asked <= 1
    && (s.asked == 1 ==> s.fates != [] && s.fates[|s.fates| - 1].Delivered?)
    && (RequestCancel(id) in s.port.jobs || !i.cancelRequested ==> s.asked == 0)
    && (i.phase == Busy && i.cancelRequested ==> RequestCancel(id) in s.port.jobs || s.asked == 1)
  }

  /** Replaces the fate of the latest packet. */
  function Decide(s: Link, f: Fate): Link
    requires s.fates != []
  {
    s.(fates := s.fates[|s.fates| - 1 := f])
  }

  /** Running the top job. The requires clauses are the assertions of the three handlers. */
  function RunTop(s: Link, id: nat): Link
    requires s.port.jobs != []
    requires s.port.jobs[0] == Operation(id) ==> s.port.iface.phase == OperationPending && s.fates != []
    requires s.port.jobs[0] == RequestCancel(id) ==> s.port.iface.phase == Busy && s.port.iface.cancelRequested
    requires s.port.jobs[0] == Done(id) ==> s.port.iface.phase == DonePending
  {
    var i := s.port.iface;
    var top, rest := s.port.jobs[0], s.port.jobs[1..];
    if top == Operation(id) then
      Decide(s, Delivered(i.packet)).(port := Port(i.(phase := Busy), rest), received := s.received + [i.packet])
    else if top == RequestCancel(id) then
      s.(port := Port(i, rest), asked := s.asked + 1)
    else if top == Done(id) then
      s.(port := Port(i.(phase := Idle), rest), told := s.told + 1)
    else
      s.(port := Port(i, rest))
  }

  function Step(s: Link, id: nat, mtu: nat, e: Event): Link
    requires Inv(s, id) && Enabled(s, id, mtu, e)
  {
    match e
    case Submit(p) => s.(port := Send(s.port, id, p), fates := s.fates + [Waiting(p)], asked := 0)
    case Complete => s.(port := Finish(s.port, id))
    case Abort =>
      var t := s.(port := Cancel(s.port, id));
      if s.port.iface.phase == OperationPending then Decide(t, Withdrawn(s.port.iface.packet)) else t
    case Execute => RunTop(s, id)
    case SetForeign(j) => s.(port := Port(s.port.iface, Set(s.port.jobs, j)))
    case UnsetForeign(j) => s.(port := Port(s.port.iface, Without(s.port.jobs, j)))
  }

  lemma DecideKeepsHistory(s: Link, f: Fate)
    requires s.fates != [] && s.fates[|s.fates| - 1].Waiting?
    ensures HandedOver(Decide(s, f).fates) == HandedOver(s.fates) + match f { case Delivered(p) => [p] case _ => [] }
  {
    var n := |s.fates| - 1;
    assert Decide(s, f).fates[..n] == s.fates[..n];
  }

  lemma ExecuteKeepsInv(s: Link, id: nat)
    requires Inv(s, id) && s.port.jobs != []
    ensures Inv(RunTop(s, id), id)
  {
    PopTop(s.port.jobs, Schedule);
    if s.port.jobs[0] == Operation(id) {
      DecideKeepsHistory(s, Delivered(s.port.iface.packet));
    }
  }

  lemma AbortKeepsInv(s: Link, id: nat, mtu: nat)
    requires Inv(s, id) && s.port.iface.phase != Idle
    ensures Inv(Step(s, id, mtu, Abort), id)
  {
    hide Set, Without, Distinct;
    CancelLinks(s.port, id);
    if s.port.iface.phase == OperationPending {
      UnsetKeepsOthers(s.port.jobs, Operation(id), Schedule);
      SetPushes(Without(s.port.jobs, Operation(id)), Done(id), Schedule);
      DecideKeepsHistory(s, Withdrawn(s.port.iface.packet));
    }
  }

  lemma SubmitKeepsInv(s: Link, id: nat, mtu: nat, p: Packet)
    requires Inv(s, id) && Enabled(s, id, mtu, Submit(p))
    ensures Inv(Step(s, id, mtu, Submit(p)), id)
  {
    hide Set, Without, Distinct;
    SendLinks(s.port, id, p);
    assert (s.fates + [Waiting(p)])[..|s.fates|] == s.fates;
  }

  lemma CompleteKeepsInv(s: Link, id: nat, mtu: nat)
    requires Inv(s, id) && Enabled(s, id, mtu, Complete)
    ensures Inv(Step(s, id, mtu, Complete), id)
  {
    hide Set, Without, Distinct, HandedOver;
    FinishLinks(s.port, id);
  }

  lemma ForeignKeepsInv(s: Link, id: nat, mtu: nat, e: Event)
    requires Inv(s, id) && Enabled(s, id, mtu, e) && (e.SetForeign? || e.UnsetForeign?)
    ensures Inv(Step(s, id, mtu, e), id)
  {
    hide Set, Without, Distinct, HandedOver;
    SetPushes(s.port.jobs, e.j, Schedule);
    UnsetKeepsOthers(s.port.jobs, e.j, Schedule);
  }

  lemma StepKeepsInv(s: Link, id: nat, mtu: nat, e: Event)
    requires Inv(s, id) && Enabled(s, id, mtu, e)
    ensures Inv(Step(s, id, mtu, e), id)
  {
    hide Inv, Linked, HandedOver, Set, Without, Send, Finish, Cancel;
    match e
    case Submit(p) => SubmitKeepsInv(s, id, mtu, p);
    case Complete => CompleteKeepsInv(s, id, mtu);
    case Abort => AbortKeepsInv(s, id, mtu);
    case Execute => ExecuteKeepsInv(s, id);
    case _ => ForeignKeepsInv(s, id, mtu, e);
  }

  /** Nobody breaks the calling rules along es. */
  ghost predicate Legal(s: Link, id: nat, mtu: nat, es: seq<Event>)
    requires Inv(s, id)
    decreases es
  {
    es == [] || (Enabled(s, id, mtu, es[0]) &&
                 (StepKeepsInv(s, id, mtu, es[0]); Legal(Step(s, id, mtu, es[0]), id, mtu, es[1..])))
  }

  ghost function Run(s: Link, id: nat, mtu: nat, es: seq<Event>): Link
    requires Inv(s, id) && Legal(s, id, mtu, es)
    decreases es
  {
    if es == [] then s else
    StepKeepsInv(s, id, mtu, es[0]);
    Run(Step(s, id, mtu, es[0]), id, mtu, es[1..])
  }

  const START := Link(Port(FRESH, []), [], [], 0, 0)

  lemma {:induction false} RunKeepsInv(s: Link, id: nat, mtu: nat, es: seq<Event>)
    requires Inv(s, id) && Legal(s, id, mtu, es)
    ensures Inv(Run(s, id, mtu, es), id)
    decreases es
  {
    if es != [] {
      StepKeepsInv(s, id, mtu, es[0]);
      RunKeepsInv(Step(s, id, mtu, es[0]), id, mtu, es[1..]);
    }
  }

  lemma SettledStep(s: Link, id: nat, mtu: nat, e: Event, k: nat)
    requires Inv(s, id) && Enabled(s, id, mtu, e)
    requires k < |s.fates| && !s.fates[k].Waiting?
    ensures var t := Step(s, id, mtu, e); k < |t.fates| && t.fates[k] == s.fates[k]
  {
    hide Set, Without, HandedOver, Distinct;
  }

  lemma {:induction false} SettledForever(s: Link, id: nat, mtu: nat, es: seq<Event>, k: nat)
    requires Inv(s, id) && Legal(s, id, mtu, es)
    requires k < |s.fates| && !s.fates[k].Waiting?
    ensures var t := Run(s, id, mtu, es); k < |t.fates| && t.fates[k] == s.fates[k]
    decreases es
  {
    hide Inv, Step, Enabled;
    if es != [] {
      StepKeepsInv(s, id, mtu, es[0]);
      SettledStep(s, id, mtu, es[0], k);
      SettledForever(Step(s, id, mtu, es[0]), id, mtu, es[1..], k);
    }
  }

  /** On every run from a fresh interface: the phase determines the pending jobs, so the three
      handlers never meet a state their assertions exclude; the provider received exactly the
      packets not withdrawn, in order; every accepted packet but the one in progress was
      answered by exactly one "done"; and the provider is asked to cancel a packet at most
      once, only a packet it holds, and for certain if the sender requested it: while it holds the
      packet the request is pending or was delivered. */
  lemma RunIsCorrect(id: nat, mtu: nat, es: seq<Event>)
    requires Legal(START, id, mtu, es)
    ensures var t := Run(START, id, mtu, es);
            && Linked(t.port.iface, id, t.port.jobs)
            && t.received == HandedOver(t.fates)
            && t.told + (if t.port.iface.phase == Idle then 0 else 1) == |t.fates|
            && t.asked <= 1
            && (t.asked == 1 ==> t.port.iface.cancelRequested && t.fates != [] && t.fates[|t.fates| - 1].Delivered?)
            && (t.port.iface.phase == Busy && t.port.iface.cancelRequested ==>
                  (t.asked == 1 <==> RequestCancel(id) !in t.port.jobs))
  {
    RunKeepsInv(START, id, mtu, es);
  }

  /** A first cancellation while the provider holds the packet puts the job that asks the provider above
      every other, so it is asked before anything else runs, unless it is done first. */
  lemma AbortAsksProvider(s: Link, id: nat, mtu: nat)
    requires Inv(s, id) && s.port.iface.phase == Busy && !s.port.iface.cancelRequested
    ensures var t := Step(s, id, mtu, Abort);
            && Inv(t, id) && RequestCancel(id) in t.port.jobs && Over(t.port.jobs, RequestCancel(id)) == {}
            && t.port.jobs != [] && t.asked == 0 && Step(t, id, mtu, Execute).asked == 1
  {
    hide Inv, Set, Without, HandedOver;
    AbortKeepsInv(s, id, mtu);
    LinkOf(s, id);
    CancelLinks(s.port, id);
    var t := Step(s, id, mtu, Abort);
    LinkOf(t, id);
    assert t.port.jobs[0] == RequestCancel(id);
  }

  lemma LinkOf(s: Link, id: nat)
    requires Inv(s, id)
    ensures Distinct(s.port.jobs) && Linked(s.port.iface, id, s.port.jobs)
    ensures RequestCancel(id) in s.port.jobs || !s.port.iface.cancelRequested ==> s.asked == 0
  {
  }

  /** A cancellation that comes before the operation job has run keeps the packet from the
      provider for good, whatever happens later, and still produces a "done". */
  lemma WithdrawnNeverReceived(s: Link, id: nat, mtu: nat, es: seq<Event>)
    requires Inv(s, id) && s.port.iface.phase == OperationPending
    requires (AbortKeepsInv(s, id, mtu); Legal(Step(s, id, mtu, Abort), id, mtu, es))
    ensures
            var u := Step(s, id, mtu, Abort);
            var t := Run(u, id, mtu, es);
            && u.received == s.received && u.port.iface.phase == DonePending && Done(id) in u.port.jobs
            && |s.fates| <= |t.fates| && t.fates[|s.fates| - 1] == Withdrawn(s.port.iface.packet)
            && t.received == HandedOver(t.fates)
  {
    AbortKeepsInv(s, id, mtu);
    CancelLinks(s.port, id);
    RunKeepsInv(Step(s, id, mtu, Abort), id, mtu, es);
    SettledForever(Step(s, id, mtu, Abort), id, mtu, es, |s.fates| - 1);
  }
}
