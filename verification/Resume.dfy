/**
  Durable HITL continuation.  `resume_after_hitl_by_id` suspends at every store call, at the
  injection of approved tool results and at the model stream; between two suspension points
  anything may happen.  A runtime is therefore a record with a phase, and a world is one store,
  any number of runtimes and the log of injected effects, advanced by arbitrary events.
*/
module Resume {
  import opened Basics
  import opened Store

  const LEASE_TTL: int := 30
  const PREVIEW: Token := 3
  const DIAGNOSTIC: Token := 4

  /** One call: the waiting source and the identifiers generated for its continuation. */
  datatype Job = Job(
    source: RunKey,
    claim: Token,
    continuation: RunId,
    admission: Token,
    host: Token,
    idempotency: Token,
    hasResults: bool)
  {
    function Target(): RunKey { RunKey(source.session, continuation) }
  }

  /** A host-managed injection: the host admitted the continuation itself, under the idempotency
      key `receipt`, and the runtime was built with its lease. */
  function HostJob(source: RunKey, claim: Token, lease: Lease, receipt: Token): Job {
    Job(source, claim, lease.key.run, lease.admission, lease.host, receipt, true)
  }

  /** Why evidence is being persisted and the admission finalized. */
  datatype Cause =
    | BeforeEffect
    | Indeterminate
    | InjectionFailure
    | StreamFailure(cancelled: bool, identified: bool)
    | Produced(status: RunStatus)

  datatype Phase =
    | Idle
    | Claiming(job: Job)
    | Acquiring(job: Job)
    | Releasing(job: Job)
    | CrossingFence(job: Job, lease: Lease)
    | Aborting(job: Job, lease: Lease)
    | CheckingLease(job: Job, lease: Lease)
    | Injecting(job: Job, lease: Lease)
    | Streaming(job: Job, lease: Lease)
    | Persisting(job: Job, lease: Lease, cause: Cause)
    | Loading(job: Job, lease: Lease, cause: Cause)
    | Finalizing(job: Job, lease: Lease, cause: Cause, terminal: Projection)
    | HostCrossing(job: Job, lease: Lease)
    | HostInjecting(job: Job, lease: Lease)
  {
    predicate Busy() { !Idle? }
  }

  datatype Outcome =
    | Pending
    | ReturnedResult | InjectionError | StreamError | StartError
    | AlreadyAdmitted | ClaimRefused | AdmissionRefused | LeaseLost | PhaseUnknown
    | Stuck
    | HostInjected | HostRefused

  /** What a call has done so far, in order. */
  datatype Note =
    | Claimed | Refused | Released | AdmissionTaken
    | StartFailed | AbortConfirmed | EffectSeen | FenceCrossed
    | InjectedResults | InjectionFailed
    | Committed | Unrecorded | AdmissionFinalized

  /** `lease` and `runId` are the runtime's admission lease and the continuation run id carried
      by its session metadata. */
  datatype Runtime = Runtime(phase: Phase, lease: Option<Lease>, runId: Option<RunId>, last: Outcome, trail: seq<Note>)

  /** A store call may be refused, lost on the way, or applied with its reply lost. */
  datatype Fault = NoFault | Dropped | ReplyLost

  datatype Completion = Finished(status: RunStatus) | Broken(cancelled: bool, identified: bool)

  datatype Poll = Poll(
    now: int,
    fault: Fault,
    leaseLive: bool,
    injectionOk: bool,
    completion: Completion,
    digest: Token,
    intact: bool)

  // ---------------------------------------------------------------- one suspension point

  function TargetOutcome(cause: Cause): Projection {
    match cause
    case Produced(status) => Projection(status, Some(PREVIEW), None)
    case StreamFailure(cancelled, _) =>
      Projection(if cancelled then Cancelled else Failed, Some(PREVIEW), Some(DIAGNOSTIC))
    case _ => Projection(Failed, Some(PREVIEW), Some(DIAGNOSTIC))
  }

  function SourceOutcome(cause: Cause): Projection {
    match cause
    case Produced(_) => Projection(Completed, Some(PREVIEW), None)
    case StreamFailure(cancelled, _) =>
      if cancelled then Projection(Cancelled, Some(PREVIEW), None)
      else Projection(Failed, Some(PREVIEW), Some(DIAGNOSTIC))
    case _ => Projection(Failed, Some(PREVIEW), Some(DIAGNOSTIC))
  }

  function EvidenceFor(job: Job, cause: Cause, p: Poll): Commit {
    Commit(job.Target(), TargetOutcome(cause), Some(job.source.run),
           Some(Related(job.source.run, Waiting, SourceOutcome(cause), Some(job.claim))), p.digest, p.intact)
  }

  function RequestFor(job: Job, now: int): Acquire {
    Acquire(job.Target(), Some(job.source.run), job.admission, job.host, now + LEASE_TTL,
            job.idempotency, job.source.run, Some(job.source.run), Some(job.claim))
  }

  /** The store call a phase is waiting for, if any. */
  function PendingOp(phase: Phase, p: Poll): Option<Op> {
    match phase
    case Claiming(job) => Some(OpClaim(job.source, job.claim))
    case Acquiring(job) => Some(OpAcquire(RequestFor(job, p.now), p.now))
    case Releasing(job) => Some(OpRelease(job.source, job.claim))
    case CrossingFence(job, lease) => Some(OpStart(lease, job.source.run, job.claim, p.now))
    case HostCrossing(job, lease) => Some(OpStart(lease, job.source.run, job.claim, p.now))
    case Aborting(job, lease) => Some(OpAbort(lease, job.source.run, job.claim, PREVIEW, p.now))
    case Persisting(job, lease, cause) =>
      if cause.StreamFailure? && !cause.identified then None
      else Some(OpCommit(Some(lease), EvidenceFor(job, cause, p), p.now))
    case Loading(job, _, _) => Some(OpLoad(job.Target()))
    case Finalizing(_, lease, _, terminal) => Some(OpFinalize(lease, terminal, p.now))
    case _ => None
  }

  function Return(rt: Runtime, outcome: Outcome, note: seq<Note>): Runtime {
    rt.(phase := Idle, last := outcome, trail := rt.trail + note)
  }

  function Move(rt: Runtime, phase: Phase, note: seq<Note>): Runtime {
    rt.(phase := phase, trail := rt.trail + note)
  }

  /** Drops the lease and the continuation's identity before returning. */
  function ReturnClean(rt: Runtime, outcome: Outcome, note: seq<Note>): Runtime {
    Return(rt, outcome, note).(lease := None, runId := None)
  }

  function OutcomeOf(cause: Cause): Outcome {
    match cause
    case BeforeEffect => StartError
    case Indeterminate => StartError
    case InjectionFailure => InjectionError
    case StreamFailure(_, _) => StreamError
    case Produced(_) => ReturnedResult
  }

  /** How the call goes on once the awaited step has answered. */
  function Advance(rt: Runtime, reply: Reply, p: Poll): Runtime {
    match rt.phase
    case Idle => rt
    case Claiming(job) =>
      if reply.Done? then Move(rt, Acquiring(job), [Claimed]) else Return(rt, ClaimRefused, [])
    case Acquiring(job) =>
      if reply.Leased? then Move(rt, CrossingFence(job, reply.lease), [AdmissionTaken])
      else Move(rt, Releasing(job), [Refused])
    case Releasing(job) => Return(rt, AdmissionRefused, [Released])
    case CrossingFence(job, lease) =>
      if reply.Done? then Move(rt, CheckingLease(job, lease), [FenceCrossed])
      else Move(rt, Aborting(job, lease), [StartFailed])
    case Aborting(job, lease) =>
      if reply == Aborted(AbortedBeforeEffect) then Move(rt, Loading(job, lease, BeforeEffect), [AbortConfirmed])
      else if reply == Aborted(EffectStarted) then
        Move(rt, Persisting(job, lease, Indeterminate), [EffectSeen])
          .(lease := Some(lease), runId := Some(job.continuation))
      else Return(rt, PhaseUnknown, [])
    case CheckingLease(job, lease) =>
      if !p.leaseLive then Return(rt, LeaseLost, [])
      else Move(rt, if job.hasResults then Injecting(job, lease) else Streaming(job, lease), []).(lease := Some(lease))
    case Injecting(job, lease) =>
      if p.injectionOk then Move(rt, Streaming(job, lease), [InjectedResults])
      else Move(rt, Persisting(job, lease, InjectionFailure), [InjectionFailed]).(runId := Some(job.continuation))
    case Streaming(job, lease) =>
      var cause := if p.completion.Finished? then Produced(p.completion.status)
                   else StreamFailure(p.completion.cancelled, p.completion.identified);
      Move(rt, Persisting(job, lease, cause), []).(runId := Some(job.continuation))
    case Persisting(job, lease, cause) =>
      if cause.StreamFailure? && !cause.identified then Move(rt, Loading(job, lease, cause), [Unrecorded])
      else if reply.Done? then Move(rt, Loading(job, lease, cause), [Committed])
      else Return(rt, Stuck, [])
    case Loading(job, lease, cause) =>
      if reply.Loaded? && reply.run.status.Terminal()
      then Move(rt, Finalizing(job, lease, cause, Projection(reply.run.status, reply.run.preview, reply.run.error)), [])
      else Return(rt, Stuck, [])
    case Finalizing(job, lease, cause, _) =>
      if !reply.Done? then Return(rt, Stuck, [])
      else if cause.BeforeEffect? then Return(rt, StartError, [AdmissionFinalized])
      else ReturnClean(rt, OutcomeOf(cause), [AdmissionFinalized])
    case HostCrossing(job, lease) =>
      if reply.Done? then Move(rt, HostInjecting(job, lease), [FenceCrossed])
      else Return(rt, HostRefused, [StartFailed])
    case HostInjecting(_, _) =>
      Return(rt, HostInjected, [if p.injectionOk then InjectedResults else InjectionFailed])
  }

  /** A store call under a fault: `ReplyLost` applies the operation and answers with an error. */
  function Called(st: State, op: Op, fault: Fault): (State, Reply) {
    match fault
    case NoFault => Apply(st, op)
    case Dropped => (st, Err)
    case ReplyLost => (Apply(st, op).0, Err)
  }

  /** The store and phase reached by one poll of a call. */
  function Polled(st: State, rt: Runtime, p: Poll): (State, Runtime) {
    match PendingOp(rt.phase, p)
    case Some(op) => var (next, reply) := Called(st, op, p.fault); (next, Advance(rt, reply, p))
    case None => (st, Advance(rt, Done, p))
  }

  // ---------------------------------------------------------------- the world

  /** One injection of approved tool results, complete or cut short by a crash.  `owned`: the claim
      was still `Started` under the injecting lease; `concluded`: the source run had already reached
      a terminal status. */
  datatype Effect = Effect(source: RunKey, claim: Token, owned: bool, concluded: bool)

  datatype World = World(store: State, runtimes: map<nat, Runtime>, effects: seq<Effect>)

  datatype Event =
    | Build(id: nat, lease: Option<Lease>)
    | Begin(id: nat, job: Job)
    | HostBegin(id: nat, source: RunKey, claim: Token, receipt: Token)
    | Tick(id: nat, poll: Poll)
    | Crash(id: nat)
    | Elsewhere(op: Op)

  predicate Holds(st: State, lease: Lease) {
    lease.key.session in st.admissions && st.admissions[lease.key.session].SameOwner(lease)
  }

  function EffectOf(st: State, job: Job, lease: Lease): Effect {
    Effect(job.source, job.claim,
           Holds(st, lease) && job.source in st.claims && st.claims[job.source] == Claim(job.claim, Started),
           job.source in st.runs && st.runs[job.source].status.Terminal())
  }

  /** What the injection under way, if any, may have done when it ends. */
  function EffectsOf(st: State, phase: Phase): seq<Effect> {
    match phase
    case Injecting(job, lease) => [EffectOf(st, job, lease)]
    case HostInjecting(job, lease) => [EffectOf(st, job, lease)]
    case _ => []
  }

  function Ticked(w: World, id: nat, p: Poll): World
    requires id in w.runtimes
  {
    var rt := w.runtimes[id];
    var (st, next) := Polled(w.store, rt, p);
    World(st, w.runtimes[id := next], w.effects + EffectsOf(w.store, rt.phase))
  }

  /** The process of a runtime dies: tools of an injection it was in may already have run. */
  function Crashed(w: World, id: nat): World
    requires id in w.runtimes
  {
    World(w.store, w.runtimes - {id}, w.effects + EffectsOf(w.store, w.runtimes[id].phase))
  }

  function Step(w: World, e: Event): World {
    match e
    case Build(id, lease) =>
      if id in w.runtimes then w else w.(runtimes := w.runtimes[id := Runtime(Idle, lease, None, Pending, [])])
    case Begin(id, job) =>
      if id !in w.runtimes || !w.runtimes[id].phase.Idle? || w.runtimes[id].lease.Some? then w
      else w.(runtimes := w.runtimes[id := w.runtimes[id].(phase := Claiming(job), last := Pending, trail := [])])
    case HostBegin(id, source, claim, receipt) =>
      if id !in w.runtimes || !w.runtimes[id].phase.Idle? || w.runtimes[id].lease.None? then w
      else
        var lease := w.runtimes[id].lease.value;
        if lease.key.session != source.session then w
        else
          var phase := HostCrossing(HostJob(source, claim, lease, receipt), lease);
          w.(runtimes := w.runtimes[id := w.runtimes[id].(phase := phase, last := Pending, trail := [])])
    case Tick(id, p) => if id in w.runtimes then Ticked(w, id, p) else w
    case Crash(id) => if id in w.runtimes then Crashed(w, id) else w
    case Elsewhere(op) => w.(store := Apply(w.store, op).0)
  }

  function Steps(w: World, es: seq<Event>): World
    decreases |es|
  {
    if es == [] then w else Steps(Step(w, es[0]), es[1..])
  }
}
