/** PacketRecvInterface, StreamPassInterface and StreamRecvInterface: one side lends a region of
    memory, the other reports how much of it was used. The three files hold the same state machine;
    a packet interface allows an empty report, the stream interfaces do not. */
module Transfer {
  import opened Basics
  import opened Pending
  import opened PassInterface

  /** data is the address of the region, len its length. For a PacketRecvInterface len is its MTU. */
  datatype Lend = Lend(phase: Phase, data: nat, len: nat, doneLen: nat)

  datatype LendPort = LendPort(lend: Lend, jobs: seq<Job>)

  const NOTHING_LENT := Lend(Idle, 0, 0, 0)

  /** Receiver_Recv and Sender_Send. */
  function Offer(i: Lend, data: nat, len: nat): Lend
    requires i.phase == Idle
  {
    i.(phase := OperationPending, data := data, len := len)
  }

  /** The provider's Done. */
  function Report(i: Lend, n: nat): Lend
    requires i.phase == Busy && n <= i.len
  {
    i.(phase := DonePending, doneLen := n)
  }

  /** The operation job. */
  function Accept(i: Lend): Lend
    requires i.phase == OperationPending
  {
    i.(phase := Busy)
  }

  /** The done job. */
  function Settle(i: Lend): Lend
    requires i.phase == DonePending
  {
    i.(phase := Idle)
  }

  /** The job list after an interface was offered a region, or not. */
  function Armed(jobs: seq<Job>, offered: bool, id: nat): seq<Job> {
    if offered then Set(jobs, Operation(id)) else jobs
  }

  class LendInterface {
    const id: nat
    /** The MTU of a packet interface; a stream interface has none. */
    const mtu: Option<nat>
    const pg: PendingGroup
    var phase: Phase
    var data: nat
    var len: nat
    var doneLen: nat

    ghost function State(): Lend
      reads this
    {
      Lend(phase, data, len, doneLen)
    }

    ghost function View(): LendPort
      reads this, pg
    {
      LendPort(State(), pg.jobs)
    }

    /** The least length that may be offered or reported. */
    function Least(): nat {
      if mtu.Some? then 0 else 1
    }

    constructor (id: nat, mtu: Option<nat>, pg: PendingGroup)
      ensures this.id == id && this.mtu == mtu && this.pg == pg && State() == NOTHING_LENT
    {
      this.id, this.mtu, this.pg := id, mtu, pg;
      phase, data, len, doneLen := Idle, 0, 0, 0;
    }

    method Start(data: nat, len: nat)
      requires Least() <= len && (mtu.Some? ==> len <= mtu.value) && phase == Idle
      modifies this, pg
      ensures View() == LendPort(Offer(old(State()), data, len), Set(old(pg.jobs), Operation(id)))
    {
      this.data, this.len := data, len;
      pg.SetJob(Operation(id));
      phase := OperationPending;
    }

    method Finished(n: nat)
      requires phase == Busy && Least() <= n <= len
      modifies this, pg
      ensures View() == LendPort(Report(old(State()), n), Set(old(pg.jobs), Done(id)))
    {
      doneLen := n;
      pg.SetJob(Done(id));
      phase := DonePending;
    }

    /** The caller hands the region to the provider. */
    method JobOperation()
      requires phase == OperationPending
      modifies this
      ensures View() == LendPort(Accept(old(State())), pg.jobs)
    {
      phase := Busy;
    }

    /** The caller runs the done handler with the length. */
    method JobDone() returns (n: nat)
      requires phase == DonePending
      modifies this
      ensures View() == LendPort(Settle(old(State())), pg.jobs) && n == doneLen
    {
      phase := Idle;
      n := doneLen;
    }
  }
}
