/** Interfaces without cancellation on one job list, which other components share: which of their jobs
    are pending follows from their phases, through every call and every turn of the event loop. */
module EventLoop {
  import opened PassInterface
  import opened Pending
  import opened Transfer

  /** b gives the phase of every interface by its address. */
  ghost predicate Agrees(b: map<nat, Phase>, jobs: seq<Job>) {
    && Distinct(jobs)
    && forall k :: k in b ==>
         && (Operation(k) in jobs <==> b[k] == OperationPending)
         && (Done(k) in jobs <==> b[k] == DonePending)
  }

  /** The job belongs to one of the interfaces. */
  predicate Held(b: map<nat, Phase>, j: Job) {
    (j.Operation? || j.Done?) && j.i in b
  }

  /** The top job may run, and once it is taken off its interface calls for no job. */
  lemma TakenOff(b: map<nat, Phase>, jobs: seq<Job>, phase: Phase)
    requires Agrees(b, jobs) && jobs != [] && Held(b, jobs[0]) && (phase == Idle || phase == Busy)
    ensures b[jobs[0].i] == if jobs[0].Operation? then OperationPending else DonePending
    ensures Agrees(b[jobs[0].i := phase], jobs[1..])
  {
    hide Distinct;
    PopTop(jobs, Schedule);
    assert jobs[0] in jobs;
  }

  /** A region is offered, or not. */
  lemma ArmedAgrees(b: map<nat, Phase>, jobs: seq<Job>, offered: bool, k: nat)
    requires Agrees(b, jobs) && k in b && (offered ==> b[k] == Idle)
    ensures Agrees(if offered then b[k := OperationPending] else b, Armed(jobs, offered, k))
  {
    hide Distinct, Set;
    SetPushes(jobs, Operation(k), Schedule);
  }

  /** A region is given back. */
  lemma ReportAgrees(b: map<nat, Phase>, jobs: seq<Job>, k: nat)
    requires Agrees(b, jobs) && k in b && b[k] == Busy
    ensures Agrees(b[k := DonePending], Set(jobs, Done(k)))
  {
    hide Distinct, Set;
    SetPushes(jobs, Done(k), Schedule);
  }

  /** A list without any job of the interfaces suits idle ones. */
  lemma IdleAgrees(b: map<nat, Phase>, jobs: seq<Job>)
    requires Distinct(jobs) && (forall k :: k in b ==> b[k] == Idle) && forall j :: j in jobs ==> !Held(b, j)
    ensures Agrees(b, jobs)
  {
    hide Distinct;
    assert forall k :: k in b ==> Held(b, Operation(k)) && Held(b, Done(k));
  }

  /** One turn: Execute runs the top job; a call is one of those the component's users and providers
      make; jobs of other components come and go. */
  datatype Turn<E> = Execute | Call(e: E) | SetForeign(j: Job) | UnsetForeign(j: Job)

  /** The list after a turn that does not concern the component, or before its own job is run. */
  function Rest<E>(jobs: seq<Job>, turn: Turn<E>): seq<Job>
    requires turn.Execute? ==> jobs != []
  {
    match turn
    case Execute => jobs[1..]
    case Call(_) => jobs
    case SetForeign(j) => Set(jobs, j)
    case UnsetForeign(j) => Without(jobs, j)
  }

  lemma RestOf<E>(jobs: seq<Job>, turn: Turn<E>)
    requires turn.Execute? ==> jobs != []
    ensures turn.Execute? ==> Rest(jobs, turn) == jobs[1..]
    ensures turn.Call? ==> Rest(jobs, turn) == jobs
  {
  }

  lemma ForeignAgrees<E>(b: map<nat, Phase>, jobs: seq<Job>, turn: Turn<E>)
    requires Agrees(b, jobs) && !turn.Call?
    requires turn.Execute? ==> jobs != [] && !Held(b, jobs[0])
    requires turn.SetForeign? || turn.UnsetForeign? ==> !Held(b, turn.j)
    ensures Agrees(b, Rest(jobs, turn))
  {
    hide Distinct, Set, Without;
    assert forall k :: k in b ==> Held(b, Operation(k)) && Held(b, Done(k));
    match turn
    case Execute => PopTop(jobs, Schedule);
    case SetForeign(j) => SetPushes(jobs, j, Schedule);
    case UnsetForeign(j) => UnsetKeepsOthers(jobs, j, Schedule);
    case _ =>
  }
}
