/** PacketPassInterface.h and PacketPassInterface.c: a packet handshake between a sender and a
    provider, driven by three jobs, with optional cancellation. */
module PassInterface {
  import opened Basics
  import opened Pending

  /** PPI_STATE_NONE, PPI_STATE_OPERATION_PENDING, PPI_STATE_BUSY, PPI_STATE_DONE_PENDING. */
  datatype Phase = Idle | OperationPending | Busy | DonePending

  datatype Iface = Iface(phase: Phase, cancelRequested: bool, packet: Packet)

  /** One interface together with the job list it schedules on. */
  datatype Port = Port(iface: Iface, jobs: seq<Job>)

  const FRESH := Iface(Idle, false, [])

  function Send(s: Port, id: nat, p: Packet): Port
    requires s.iface.phase == Idle
  {
    Port(Iface(OperationPending, false, p), Set(s.jobs, Operation(id)))
  }

  function Finish(s: Port, id: nat): Port
    requires s.iface.phase == Busy
  {
    Port(s.iface.(phase := DonePending), Set(Without(s.jobs, RequestCancel(id)), Done(id)))
  }

  function Cancel(s: Port, id: nat): Port
    requires s.iface.phase != Idle
  {
    var i := s.iface;
    if i.cancelRequested then s
    else if i.phase == OperationPending then
      Port(i.(cancelRequested := true, phase := DonePending), Set(Without(s.jobs, Operation(id)), Done(id)))
    else if i.phase == Busy then
      Port(i.(cancelRequested := true), Set(s.jobs, RequestCancel(id)))
    else
      Port(i.(cancelRequested := true), s.jobs)
  }

  /** The job belongs to the interface at address i. */
  predicate Own(j: Job, i: nat) {
    j == Operation(i) || j == RequestCancel(i) || j == Done(i)
  }

  /** What the phase says about the three jobs of interface id. */
  ghost predicate Linked(i: Iface, id: nat, jobs: seq<Job>) {
    && (Operation(id) in jobs <==> i.phase == OperationPending)
    && (Done(id) in jobs <==> i.phase == DonePending)
    && (RequestCancel(id) in jobs ==> i.phase == Busy && i.cancelRequested)
  }

  lemma SendLinks(s: Port, id: nat, p: Packet)
    requires Distinct(s.jobs) && Linked(s.iface, id, s.jobs) && s.iface.phase == Idle
    ensures var t := Send(s, id, p); Distinct(t.jobs) && Linked(t.iface, id, t.jobs)
    ensures forall j :: j != Operation(id) ==> (j in Send(s, id, p).jobs <==> j in s.jobs)
  {
    SetPushes(s.jobs, Operation(id), Schedule);
  }

  lemma FinishLinks(s: Port, id: nat)
    requires Distinct(s.jobs) && Linked(s.iface, id, s.jobs) && s.iface.phase == Busy
    ensures var t := Finish(s, id); Distinct(t.jobs) && Linked(t.iface, id, t.jobs)
    ensures forall j :: j != RequestCancel(id) && j != Done(id) ==> (j in Finish(s, id).jobs <==> j in s.jobs)
  {
    UnsetKeepsOthers(s.jobs, RequestCancel(id), Schedule);
    SetPushes(Without(s.jobs, RequestCancel(id)), Done(id), Schedule);
  }

  lemma CancelLinks(s: Port, id: nat)
    requires Distinct(s.jobs) && Linked(s.iface, id, s.jobs) && s.iface.phase != Idle
    ensures var t := Cancel(s, id); Distinct(t.jobs) && Linked(t.iface, id, t.jobs)
    ensures forall j :: j != Operation(id) && j != RequestCancel(id) && j != Done(id) ==>
              (j in Cancel(s, id).jobs <==> j in s.jobs)
    ensures Cancel(s, id).iface.cancelRequested && Cancel(s, id).iface.packet == s.iface.packet
    ensures !s.iface.cancelRequested && s.iface.phase == Busy ==>
              && Cancel(s, id).iface.phase == Busy
              && RequestCancel(id) in Cancel(s, id).jobs && Over(Cancel(s, id).jobs, RequestCancel(id)) == {}
    ensures !s.iface.cancelRequested && s.iface.phase == OperationPending ==>
              && Cancel(s, id).iface.phase == DonePending && Operation(id) !in Cancel(s, id).jobs
              && Done(id) in Cancel(s, id).jobs && Over(Cancel(s, id).jobs, Done(id)) == {}
    ensures s.iface.cancelRequested || s.iface.phase == DonePending ==>
              Cancel(s, id).iface.phase == s.iface.phase && Cancel(s, id).jobs == s.jobs
  {
    if s.iface.cancelRequested {
    } else if s.iface.phase == OperationPending {
      UnsetKeepsOthers(s.jobs, Operation(id), Schedule);
      SetPushes(Without(s.jobs, Operation(id)), Done(id), Schedule);
    } else if s.iface.phase == Busy {
      SetPushes(s.jobs, RequestCancel(id), Schedule);
    }
  }

  /** The interface object. */
  class PacketPassInterface {
    const id: nat
    const mtu: nat
    const canCancel: bool
    const pg: PendingGroup
    var phase: Phase
    var cancelRequested: bool
    var packet: Packet

    ghost function State(): Iface
      reads this
    {
      Iface(phase, cancelRequested, packet)
    }

    ghost function View(): Port
      reads this, pg
    {
      Port(State(), pg.jobs)
    }

    constructor (id: nat, mtu: nat, canCancel: bool, pg: PendingGroup)
      ensures this.id == id && this.mtu == mtu && this.canCancel == canCancel && this.pg == pg
      ensures State() == FRESH
    {
      this.id, this.mtu, this.canCancel, this.pg := id, mtu, canCancel, pg;
      phase, cancelRequested, packet := Idle, false, [];
    }

    method SenderSend(p: Packet)
      requires |p| <= mtu && phase == Idle
      modifies this, pg
      ensures View() == Send(old(View()), id, p)
    {
      packet := p;
      pg.SetJob(Operation(id));
      phase := OperationPending;
      cancelRequested := false;
    }

    method ProviderDone()
      requires phase == Busy
      modifies this, pg
      ensures View() == Finish(old(View()), id)
    {
      pg.UnsetJob(RequestCancel(id));
      pg.SetJob(Done(id));
      phase := DonePending;
    }

    method SenderRequestCancel()
      requires phase != Idle && canCancel
      modifies this, pg
      ensures View() == Cancel(old(View()), id)
    {
      if cancelRequested {
        return;
      }
      cancelRequested := true;
      if phase == OperationPending {
        pg.UnsetJob(Operation(id));
        pg.SetJob(Done(id));
        phase := DonePending;
      } else if phase == Busy {
        pg.SetJob(RequestCancel(id));
      }
    }

    /** The operation job; the caller hands the packet to the provider. */
    method JobOperation() returns (p: Packet)
      requires phase == OperationPending
      modifies this
      ensures View() == old(View()).(iface := old(View()).iface.(phase := Busy)) && p == packet
    {
      phase := Busy;
      p := packet;
    }

    /** The done job; the caller runs the sender's done handler. */
    method JobDone()
      requires phase == DonePending
      modifies this
      ensures View() == old(View()).(iface := old(View()).iface.(phase := Idle))
    {
      phase := Idle;
    }
  }
}
