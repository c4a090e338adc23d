/**
  The owned runtime object.  `ResumeAfterHitlById` is the sequential code of one call; at each
  suspension point other clients may run any operations on the store and the call may fail or
  lose its reply.  It is proved to follow the phases of `Resume` exactly, so every theorem about
  histories speaks about this code; and it always returns.
*/
module AgentRuntimes {
  import opened Basics
  import opened Store
  import opened InMemoryStore
  import opened Resume

  // ---------------------------------------------------------------- one call as a whole

  /** The most suspension points a call can still meet. */
  function Remaining(phase: Phase): nat {
    match phase
    case Idle => 0
    case Claiming(_) => 9
    case Acquiring(_) => 8
    case Releasing(_) => 1
    case CrossingFence(_, _) => 7
    case Aborting(_, _) => 4
    case CheckingLease(_, _) => 6
    case Injecting(_, _) => 5
    case Streaming(_, _) => 4
    case Persisting(_, _, _) => 3
    case Loading(_, _, _) => 2
    case Finalizing(_, _, _, _) => 1
    case HostCrossing(_, _) => 2
    case HostInjecting(_, _) => 1
  }

  /** What the environment does at the n-th suspension point: operations of others, then the answer. */
  datatype Environment = Environment(others: nat -> seq<Op>, poll: nat -> Poll)

  function Drive(st: State, rt: Runtime, env: Environment, n: nat): (State, Runtime)
    decreases Remaining(rt.phase)
  {
    if rt.phase.Idle? then (st, rt)
    else var (next, rt') := Polled(After(st, env.others(n)), rt, env.poll(n)); Drive(next, rt', env, n + 1)
  }

  lemma DriveStep(st: State, rt: Runtime, env: Environment, n: nat)
    requires !rt.phase.Idle?
    ensures
      var (next, rt') := Polled(After(st, env.others(n)), rt, env.poll(n));
      Drive(st, rt, env, n) == Drive(next, rt', env, n + 1)
  {
  }

  /** The first `k` suspension points of a call. */
  function DriveFor(st: State, rt: Runtime, env: Environment, n: nat, k: nat): (State, Runtime)
    decreases k
  {
    if k == 0 || rt.phase.Idle? then (st, rt)
    else var (next, rt') := Polled(After(st, env.others(n)), rt, env.poll(n)); DriveFor(next, rt', env, n + 1, k - 1)
  }

  lemma {:induction false} DrivenByThen(st: State, rt: Runtime, env: Environment, n: nat, k: nat)
    requires Remaining(rt.phase) <= k
    ensures DriveFor(st, rt, env, n, k) == Drive(st, rt, env, n) && Drive(st, rt, env, n).1.phase.Idle?
    decreases k
  {
    if !rt.phase.Idle? {
      var (next, rt') := Polled(After(st, env.others(n)), rt, env.poll(n));
      DrivenByThen(next, rt', env, n + 1, k - 1);
    }
  }

  /** Whatever the environment does, a call has returned after nine suspension points. */
  lemma EveryCallReturns(st: State, rt: Runtime, env: Environment, n: nat)
    ensures DriveFor(st, rt, env, n, 9).1.phase.Idle? && DriveFor(st, rt, env, n, 9) == Drive(st, rt, env, n)
  {
    DrivenByThen(st, rt, env, n, 9);
  }

  /** Sends one operation to the store object. */
  method Send(store: InMemorySessionStore, op: Op) returns (reply: Reply)
    modifies store
    ensures (store.View(), reply) == Apply(old(store.View()), op)
  {
    match op
    case OpClaim(key, claim) => reply := store.ClaimHitlResume(key, claim);
    case OpRelease(key, claim) => reply := store.ReleaseHitlResumeClaim(key, claim);
    case OpAcquire(q, now) => reply := store.AcquireRunAdmission(q, now);
    case OpHeartbeat(lease, expires, now) => reply := store.HeartbeatRunAdmission(lease, expires, now);
    case OpStart(lease, source, claim, now) => reply := store.StartHitlResumeEffect(lease, source, claim, now);
    case OpAbort(lease, source, claim, note, now) =>
      reply := store.AbortAdmittedHitlResume(lease, source, claim, note, now);
    case OpCommit(fence, c, now) => reply := store.CommitRunEvidence(fence, c, now);
    case OpUpdateStatus(lease, status, preview, now) =>
      reply := store.UpdateRunStatusFenced(lease, status, preview, now);
    case OpFinalize(lease, terminal, now) => reply := store.FinalizeRunAdmission(lease, terminal, now);
    case OpReleaseAdmission(lease, now) => reply := store.ReleaseRunAdmission(lease, now);
    case OpReconcile(order, now) => reply := store.ReconcileExpiredRunAdmissions(order, now);
    case OpLoad(key) => reply := store.LoadRun(key);
    case OpCheckpoint(fence, key, status, stored, intact, now) =>
      reply := store.CommitCheckpoint(fence, key, status, stored, intact, now);
    case OpMark(key, claim) => reply := store.MarkHitlResumeStarted(key, claim);
    case OpSaveSession(session, record) => reply := store.SaveSession(session, record);
    case OpAppendRun(key, run) => reply := store.AppendRunRecord(key, run);
    case OpSetStatus(key, status, preview) => reply := store.UpdateRunStatus(key, status, preview);
  }

  /** Other clients use the store while a call is suspended. */
  method Interfere(store: InMemorySessionStore, ops: seq<Op>)
    modifies store
    ensures store.View() == After(old(store.View()), ops)
  {
    var i := 0;
    while i < |ops|
      invariant 0 <= i <= |ops|
      invariant After(old(store.View()), ops) == After(store.View(), ops[i..])
    {
      assert ops[i..][1..] == ops[i + 1..];
      var _ := Send(store, ops[i]);
      i := i + 1;
    }
  }

  /** Sends one operation over a connection that may lose it, or its reply. */
  method Answered(store: InMemorySessionStore, op: Op, fault: Fault) returns (reply: Reply)
    modifies store
    ensures (store.View(), reply) == Called(old(store.View()), op, fault)
  {
    reply := Err;
    if fault != Dropped {
      var answer := Send(store, op);
      if fault == NoFault { reply := answer; }
    }
  }

  class AgentRuntime {
    var admissionLease: Option<Lease>
    var durableRunId: Option<RunId>
    /** How many suspension points the current call has met. */
    var met: nat
    /** The phase the sequential code stands in. */
    ghost var shadow: Runtime

    constructor (lease: Option<Lease>)
      ensures admissionLease == lease && durableRunId == None
    {
      admissionLease, durableRunId, met := lease, None, 0;
      shadow := Runtime(Idle, lease, None, Pending, []);
    }

    /** The sequential code and its phase agree on what the runtime holds. */
    ghost predicate InStep()
      reads this
    {
      shadow.lease == admissionLease && shadow.runId == durableRunId
    }

    /** Awaits one store operation. */
    method Call(store: InMemorySessionStore, op: Op, env: Environment) returns (reply: Reply)
      requires PendingOp(shadow.phase, env.poll(met)) == Some(op) && !shadow.phase.Idle?
      modifies store, this`met, this`shadow
      ensures shadow == Advance(old(shadow), reply, env.poll(old(met))) && met == old(met) + 1
      ensures Drive(old(store.View()), old(shadow), env, old(met)) == Drive(store.View(), shadow, env, met)
    {
      Interfere(store, env.others(met));
      var poll := env.poll(met);
      reply := Answered(store, op, poll.fault);
      DriveStep(old(store.View()), shadow, env, met);
      shadow := Advance(shadow, reply, poll);
      met := met + 1;
    }

    /** Awaits something other than the store: the lease check, the injection or the stream. */
    method Suspend(store: InMemorySessionStore, env: Environment) returns (poll: Poll)
      requires PendingOp(shadow.phase, env.poll(met)) == None && !shadow.phase.Idle?
      modifies store, this`met, this`shadow
      ensures poll == env.poll(old(met)) && shadow == Advance(old(shadow), Done, poll) && met == old(met) + 1
      ensures Drive(old(store.View()), old(shadow), env, old(met)) == Drive(store.View(), shadow, env, met)
    {
      Interfere(store, env.others(met));
      poll := env.poll(met);
      shadow := Advance(shadow, Done, poll);
      met := met + 1;
    }

    /** Loads the continuation's terminal projection and releases its admission with it. */
    method LoadAndFinalize(store: InMemorySessionStore, job: Job, lease: Lease, cause: Cause, env: Environment)
        returns (outcome: Outcome)
      requires shadow.phase == Loading(job, lease, cause) && InStep()
      modifies store, this
      ensures shadow.phase.Idle? && shadow.last == outcome && InStep() && met <= old(met) + 2
      ensures (store.View(), shadow) == Drive(old(store.View()), old(shadow), env, old(met))
    {
      var reply := Call(store, OpLoad(job.Target()), env);
      if !reply.Loaded? || !reply.run.status.Terminal() { return Stuck; }
      var terminal := Projection(reply.run.status, reply.run.preview, reply.run.error);
      reply := Call(store, OpFinalize(lease, terminal, env.poll(met).now), env);
      if !reply.Done? { return Stuck; }
      if !cause.BeforeEffect? {
        admissionLease := None;
        durableRunId := None;
      }
      return OutcomeOf(cause);
    }

    /** Commits continuation evidence together with the source's terminal status, then finalizes. */
    method PersistAndFinalize(store: InMemorySessionStore, job: Job, lease: Lease, cause: Cause, env: Environment)
        returns (outcome: Outcome)
      requires shadow.phase == Persisting(job, lease, cause) && InStep()
      modifies store, this
      ensures shadow.phase.Idle? && shadow.last == outcome && InStep() && met <= old(met) + 3
      ensures (store.View(), shadow) == Drive(old(store.View()), old(shadow), env, old(met))
    {
      if cause.StreamFailure? && !cause.identified {
        var _ := Suspend(store, env);
      } else {
        var poll := env.poll(met);
        var reply := Call(store, OpCommit(Some(lease), EvidenceFor(job, cause, poll), poll.now), env);
        if !reply.Done? { return Stuck; }
      }
      outcome := LoadAndFinalize(store, job, lease, cause, env);
    }

    /** A start that answered with an error may still have crossed the fence. */
    method RecoverFailedStart(store: InMemorySessionStore, job: Job, lease: Lease, env: Environment)
        returns (outcome: Outcome)
      requires shadow.phase == Aborting(job, lease) && InStep()
      modifies store, this
      ensures shadow.phase.Idle? && shadow.last == outcome && InStep() && met <= old(met) + 4
      ensures (store.View(), shadow) == Drive(old(store.View()), old(shadow), env, old(met))
    {
      var reply := Call(store, OpAbort(lease, job.source.run, job.claim, PREVIEW, env.poll(met).now), env);
      if reply == Aborted(AbortedBeforeEffect) {
        outcome := LoadAndFinalize(store, job, lease, BeforeEffect, env);
      } else if reply == Aborted(EffectStarted) {
        admissionLease := Some(lease);
        durableRunId := Some(job.continuation);
        outcome := PersistAndFinalize(store, job, lease, Indeterminate, env);
      } else {
        outcome := PhaseUnknown;
      }
    }

    /** Runs the model stream and persists how it ended. */
    method StreamAndPersist(store: InMemorySessionStore, job: Job, lease: Lease, env: Environment)
        returns (outcome: Outcome)
      requires shadow.phase == Streaming(job, lease) && InStep()
      modifies store, this
      ensures shadow.phase.Idle? && shadow.last == outcome && InStep() && met <= old(met) + 4
      ensures (store.View(), shadow) == Drive(old(store.View()), old(shadow), env, old(met))
    {
      var poll := Suspend(store, env);
      durableRunId := Some(job.continuation);
      var cause :=
        if poll.completion.Finished? then Produced(poll.completion.status)
        else StreamFailure(poll.completion.cancelled, poll.completion.identified);
      outcome := PersistAndFinalize(store, job, lease, cause, env);
    }

    /** Past the fence: inject approved results, stream, persist. */
    method InjectAndStream(store: InMemorySessionStore, job: Job, lease: Lease, env: Environment)
        returns (outcome: Outcome)
      requires shadow.phase == CheckingLease(job, lease) && InStep()
      modifies store, this
      ensures shadow.phase.Idle? && shadow.last == outcome && InStep() && met <= old(met) + 6
      ensures (store.View(), shadow) == Drive(old(store.View()), old(shadow), env, old(met))
    {
      var poll := Suspend(store, env);
      if !poll.leaseLive { return LeaseLost; }
      admissionLease := Some(lease);
      if job.hasResults {
        poll := Suspend(store, env);
        if !poll.injectionOk {
          durableRunId := Some(job.continuation);
          outcome := PersistAndFinalize(store, job, lease, InjectionFailure, env);
          return;
        }
      }
      outcome := StreamAndPersist(store, job, lease, env);
    }

    /** Admits the continuation under the claim, crosses the fence and goes on from there. */
    method AdmitAndContinue(store: InMemorySessionStore, job: Job, env: Environment) returns (outcome: Outcome)
      requires shadow.phase == Acquiring(job) && InStep()
      modifies store, this
      ensures shadow.phase.Idle? && shadow.last == outcome && InStep() && met <= old(met) + 8
      ensures (store.View(), shadow) == Drive(old(store.View()), old(shadow), env, old(met))
    {
      var now := env.poll(met).now;
      var reply := Call(store, OpAcquire(RequestFor(job, now), now), env);
      if !reply.Leased? {
        reply := Call(store, OpRelease(job.source, job.claim), env);
        return AdmissionRefused;
      }
      var lease := reply.lease;
      reply := Call(store, OpStart(lease, job.source.run, job.claim, env.poll(met).now), env);
      if reply.Done? {
        outcome := InjectAndStream(store, job, lease, env);
      } else {
        outcome := RecoverFailedStart(store, job, lease, env);
      }
    }

    /** One durable continuation, from claim to return. */
    method ResumeAfterHitlById(store: InMemorySessionStore, job: Job, env: Environment) returns (outcome: Outcome)
      modifies store, this
      ensures old(admissionLease).Some? ==>
        outcome == AlreadyAdmitted && store.View() == old(store.View())
        && admissionLease == old(admissionLease) && durableRunId == old(durableRunId)
      ensures old(admissionLease).None? ==>
        var started := Runtime(Claiming(job), None, old(durableRunId), Pending, []);
        var (st, rt) := Drive(old(store.View()), started, env, 0);
        store.View() == st && outcome == rt.last && admissionLease == rt.lease && durableRunId == rt.runId && met <= 9
    {
      if admissionLease.Some? { return AlreadyAdmitted; }
      met := 0;
      shadow := Runtime(Claiming(job), None, durableRunId, Pending, []);
      var reply := Call(store, OpClaim(job.source, job.claim), env);
      if !reply.Done? { return ClaimRefused; }
      outcome := AdmitAndContinue(store, job, env);
    }
  }
}
