/**
  One call from its claim to its answer when nobody interferes: which tables it leaves behind, for
  every way its injection and its stream can end.
*/
module ResumeCalm {
  import opened Basics
  import opened Store
  import opened StoreSafety
  import opened Resume
  import opened ResumeFindings
  import opened AgentRuntimes

  /** The source can be taken up, and nothing of the job is recorded yet. */
  predicate Free(st: State, job: Job) {
    && Ready(st, job.source) && job.claim != BLANK && job.idempotency !in st.receipts
    && job.Target() !in st.runs && job.Target() !in st.sealed
  }

  /** Nobody else uses the store, no call or reply is lost, the heartbeat keeps the lease alive, and all
      is over before the thirty seconds of the admission. */
  ghost predicate Calm(env: Environment) {
    forall n: nat :: Undisturbed(env, n)
  }

  ghost predicate Undisturbed(env: Environment, n: nat) {
    && env.others(n) == [] && env.poll(n).fault == NoFault && env.poll(n).now < env.poll(1).now + 30
    && env.poll(n).leaseLive && env.poll(n).intact
  }

  /** Past the fence, with everything in the call's hands. */
  predicate Held(st: State, job: Job, lease: Lease) {
    && lease.key == job.Target() && job.source.session in st.admissions && st.admissions[job.source.session] == lease
    && job.source in st.claims && st.claims[job.source] == Claim(job.claim, Started)
    && IsWaiting(st, job.source) && job.source.session in st.sessions
    && job.Target() in st.runs && st.runs[job.Target()] == Run(Queued, Some(job.source.run), None, None, false)
    && job.Target() !in st.sealed
  }

  // ---------------------------------------------------------------- how it ends

  predicate Shows(st: State, k: RunKey, p: Projection) {
    k in st.runs && st.runs[k].status == p.status && st.runs[k].preview == p.preview && st.runs[k].error == p.error
  }

  /** Both runs have their outcome, the evidence is sealed, and nothing is held any more. */
  predicate Finishes(st: State, rt: Runtime, job: Job, last: Outcome, source: Projection, target: Projection,
                     digest: Token)
  {
    && rt.phase.Idle? && rt.last == last && rt.lease == None && rt.runId == None
    && Shows(st, job.source, source) && Shows(st, job.Target(), target)
    && job.Target() in st.sealed && st.sealed[job.Target()] == digest
    && job.source !in st.claims && job.source.session !in st.admissions
  }

  /** The call gives up with its lease on the runtime and everything still in its hands. */
  predicate Halts(st: State, rt: Runtime, job: Job) {
    && rt.phase.Idle? && rt.last == Stuck && rt.lease.Some? && rt.runId == Some(job.continuation)
    && Held(st, job, rt.lease.value)
  }

  /** The call gives up after its commit: the source is completed, the continuation waits or runs on,
      under a lease that nobody will return. */
  predicate Lingers(st: State, rt: Runtime, job: Job, status: RunStatus) {
    && rt.phase.Idle? && rt.last == Stuck && rt.lease.Some? && rt.runId == Some(job.continuation)
    && job.source.session in st.admissions && st.admissions[job.source.session] == rt.lease.value
    && Shows(st, job.source, Projection(Completed, Some(PREVIEW), None))
    && Shows(st, job.Target(), Projection(status, Some(PREVIEW), None))
    && job.source !in st.claims && job.Target() in st.sealed
  }

  const FAILURE: Projection := Projection(Failed, Some(PREVIEW), Some(DIAGNOSTIC))

  /** What the end of the stream makes of a call. */
  predicate StreamEnds(st: State, rt: Runtime, job: Job, completion: Completion, digest: Token) {
    match completion
    case Finished(status) =>
      var result := Projection(status, Some(PREVIEW), None);
      // a failed continuation must carry a diagnostic, and a stream result brings none
      if status == Failed then Halts(st, rt, job)
      else if status == Completed || status == Cancelled then
        Finishes(st, rt, job, ReturnedResult, Projection(Completed, Some(PREVIEW), None), result, digest)
      else Lingers(st, rt, job, status)
    case Broken(cancelled, identified) =>
      if !identified then Halts(st, rt, job)
      else if cancelled then
        Finishes(st, rt, job, StreamError, Projection(Cancelled, Some(PREVIEW), None),
                 Projection(Cancelled, Some(PREVIEW), Some(DIAGNOSTIC)), digest)
      else Finishes(st, rt, job, StreamError, FAILURE, FAILURE, digest)
  }

  // ---------------------------------------------------------------- step by step

  lemma OneStep(st: State, rt: Runtime, env: Environment, n: nat)
    requires Calm(env) && !rt.phase.Idle?
    ensures
      var (next, rt') := Polled(st, rt, env.poll(n));
      Drive(st, rt, env, n) == Drive(next, rt', env, n + 1)
    ensures Undisturbed(env, n)
  {
    assert Undisturbed(env, n);
    DriveStep(st, rt, env, n);
  }

  lemma ClaimIsTaken(st: State, job: Job)
    requires Free(st, job)
    ensures ClaimResume(st, job.source, job.claim)
      == (st.(claims := st.claims[job.source := Claim(job.claim, Preflight)]), Done)
  {
  }

  lemma AdmissionIsGranted(st: State, job: Job, now: int)
    requires Free(st, job)
    ensures
      var claimed := st.(claims := st.claims[job.source := Claim(job.claim, Preflight)]);
      var (next, reply) := AcquireAdmission(claimed, RequestFor(job, now), now);
      && reply.Leased? && reply.lease.expires == now + 30
      && next.claims == claimed.claims[job.source := Claim(job.claim, Admitted)]
      && Held(next.(claims := next.claims[job.source := Claim(job.claim, Started)]), job, reply.lease)
  {
    var claimed := st.(claims := st.claims[job.source := Claim(job.claim, Preflight)]);
    assert Admissible(claimed, RequestFor(job, now)) by { assert IsWaiting(claimed, job.source); }
  }

  lemma FenceOpens(st: State, job: Job, lease: Lease, now: int)
    requires Held(st.(claims := st.claims[job.source := Claim(job.claim, Started)]), job, lease) && now < lease.expires
    requires job.source in st.claims && st.claims[job.source] == Claim(job.claim, Admitted)
    ensures StartEffect(st, lease, job.source.run, job.claim, now)
      == (st.(claims := st.claims[job.source := Claim(job.claim, Started)]), Done)
  {
    assert IsWaiting(st.(claims := st.claims[job.source := Claim(job.claim, Started)]), job.source);
    assert BoundToWaitingSource(st, lease, job.source.run, now);
  }

  lemma ClaimsFirst(st: State, job: Job, runId: Option<RunId>, env: Environment)
    requires Free(st, job) && Calm(env)
    ensures
      var claimed := st.(claims := st.claims[job.source := Claim(job.claim, Preflight)]);
      Drive(st, Runtime(Claiming(job), None, runId, Pending, []), env, 0)
      == Drive(claimed, Runtime(Acquiring(job), None, runId, Pending, [Claimed]), env, 1)
  {
    OneStep(st, Runtime(Claiming(job), None, runId, Pending, []), env, 0);
    ClaimIsTaken(st, job);
    assert [] + [Claimed] == [Claimed];
  }

  /** Claim, admission and fence lead to a store that is the call's. */
  lemma CrossesFence(st: State, job: Job, runId: Option<RunId>, env: Environment) returns (next: State, lease: Lease)
    requires Free(st, job) && Calm(env)
    ensures Held(next, job, lease) && lease.expires == env.poll(1).now + 30
    ensures
      var call := Runtime(Claiming(job), None, runId, Pending, []);
      var crossed := Runtime(CheckingLease(job, lease), None, runId, Pending, [Claimed, AdmissionTaken, FenceCrossed]);
      Drive(st, call, env, 0) == Drive(next, crossed, env, 3)
  {
    ClaimsFirst(st, job, runId, env);
    var claimed := st.(claims := st.claims[job.source := Claim(job.claim, Preflight)]);
    OneStep(claimed, Runtime(Acquiring(job), None, runId, Pending, [Claimed]), env, 1);
    AdmissionIsGranted(st, job, env.poll(1).now);
    var (admitted, reply) := AcquireAdmission(claimed, RequestFor(job, env.poll(1).now), env.poll(1).now);
    lease := reply.lease;
    assert [Claimed] + [AdmissionTaken] == [Claimed, AdmissionTaken];
    next := PassesFence(admitted, job, lease, runId, env);
  }

  lemma PassesFence(st: State, job: Job, lease: Lease, runId: Option<RunId>, env: Environment) returns (next: State)
    requires Held(st.(claims := st.claims[job.source := Claim(job.claim, Started)]), job, lease) && Calm(env)
    requires job.source in st.claims && st.claims[job.source] == Claim(job.claim, Admitted)
             && lease.expires == env.poll(1).now + 30
    ensures Held(next, job, lease)
    ensures
      var crossing := Runtime(CrossingFence(job, lease), None, runId, Pending, [Claimed, AdmissionTaken]);
      var crossed := Runtime(CheckingLease(job, lease), None, runId, Pending, [Claimed, AdmissionTaken, FenceCrossed]);
      Drive(st, crossing, env, 2) == Drive(next, crossed, env, 3)
  {
    OneStep(st, Runtime(CrossingFence(job, lease), None, runId, Pending, [Claimed, AdmissionTaken]), env, 2);
    FenceOpens(st, job, lease, env.poll(2).now);
    next := st.(claims := st.claims[job.source := Claim(job.claim, Started)]);
    assert [Claimed, AdmissionTaken] + [FenceCrossed] == [Claimed, AdmissionTaken, FenceCrossed];
  }

  /** The outcomes that are refused: a failed run without a diagnostic. */
  predicate Refused(cause: Cause) { cause == Produced(Failed) }

  lemma CommitGoesThrough(st: State, job: Job, lease: Lease, cause: Cause, p: Poll)
    requires Held(st, job, lease) && p.intact && p.now < lease.expires && job.claim != BLANK
    ensures
      var (next, reply) := CommitEvidence(st, Some(lease), EvidenceFor(job, cause, p), p.now);
      if Refused(cause) then next == st && reply == Err
      else
        && reply == Done && next.admissions == st.admissions
        && Shows(next, job.source, SourceOutcome(cause)) && Shows(next, job.Target(), TargetOutcome(cause))
        && job.source !in next.claims && job.Target() in next.sealed && next.sealed[job.Target()] == p.digest
  {
  }

  /** From the commit on. */
  lemma PersistsAndReturns(st: State, rt: Runtime, job: Job, lease: Lease, cause: Cause, env: Environment, n: nat)
    requires Held(st, job, lease) && lease.expires == env.poll(1).now + 30 && job.claim != BLANK && Calm(env)
    requires rt.phase == Persisting(job, lease, cause) && rt.lease == Some(lease) && rt.runId == Some(job.continuation)
    requires cause.InjectionFailure? || cause.Produced? || (cause.StreamFailure? && cause.identified)
    ensures
      var (end, rt') := Drive(st, rt, env, n);
      if Refused(cause) then Halts(end, rt', job)
      else if TargetOutcome(cause).status.Terminal() then
        Finishes(end, rt', job, OutcomeOf(cause), SourceOutcome(cause), TargetOutcome(cause), env.poll(n).digest)
      else Lingers(end, rt', job, TargetOutcome(cause).status)
  {
    OneStep(st, rt, env, n);
    CommitGoesThrough(st, job, lease, cause, env.poll(n));
    if !Refused(cause) {
      var st1 := Polled(st, rt, env.poll(n)).0;
      var rt1 := Move(rt, Loading(job, lease, cause), [Committed]);
      LoadsAndReturns(st1, rt1, env, n + 1);
    }
  }

  lemma LoadsAndReturns(st: State, rt: Runtime, env: Environment, n: nat)
    requires Calm(env) && rt.phase.Loading? && !rt.phase.cause.BeforeEffect?
    requires rt.phase.job.Target() in st.runs && rt.phase.lease.key == rt.phase.job.Target()
    requires Fresh(st, rt.phase.lease, env.poll(1).now + 29)
    ensures
      var (end, rt') := Drive(st, rt, env, n);
      if st.runs[rt.phase.job.Target()].status.Terminal() then
        && rt' == ReturnClean(rt, OutcomeOf(rt.phase.cause), [AdmissionFinalized])
        && end == st.(admissions := st.admissions - {rt.phase.lease.key.session})
      else rt' == Return(rt, Stuck, []) && end == st
  {
    OneStep(st, rt, env, n);
    var (st1, rt1) := Polled(st, rt, env.poll(n));
    if !rt1.phase.Idle? { OneStep(st1, rt1, env, n + 1); }
    assert Undisturbed(env, n + 1);
    LoadThenFinalize(st, rt, env.poll(n), env.poll(n + 1));
  }

  lemma StreamsAndReturns(st: State, rt: Runtime, job: Job, lease: Lease, env: Environment, n: nat)
    requires Held(st, job, lease) && lease.expires == env.poll(1).now + 30 && job.claim != BLANK && Calm(env)
    requires rt.phase == Streaming(job, lease) && rt.lease == Some(lease)
    ensures
      var (end, rt') := Drive(st, rt, env, n);
      StreamEnds(end, rt', job, env.poll(n).completion, env.poll(n + 1).digest)
  {
    OneStep(st, rt, env, n);
    var (st1, rt1) := Polled(st, rt, env.poll(n));
    var cause := rt1.phase.cause;
    if cause.StreamFailure? && !cause.identified {
      OneStep(st1, rt1, env, n + 1);
      var rt2 := Polled(st1, rt1, env.poll(n + 1)).1;
      LoadsAndReturns(st1, rt2, env, n + 2);
    } else {
      PersistsAndReturns(st1, rt1, job, lease, cause, env, n + 1);
    }
  }

  lemma InjectsAndReturns(st: State, rt: Runtime, job: Job, lease: Lease, env: Environment)
    requires Held(st, job, lease) && lease.expires == env.poll(1).now + 30 && job.claim != BLANK && Calm(env)
    requires rt.phase == CheckingLease(job, lease)
    ensures
      var (end, rt') := Drive(st, rt, env, 3);
      if job.hasResults && !env.poll(4).injectionOk then
        Finishes(end, rt', job, InjectionError, FAILURE, FAILURE, env.poll(5).digest)
      else
        var n := if job.hasResults then 5 else 4;
        StreamEnds(end, rt', job, env.poll(n).completion, env.poll(n + 1).digest)
  {
    OneStep(st, rt, env, 3);
    var rt1 := Polled(st, rt, env.poll(3)).1;
    if job.hasResults {
      OneStep(st, rt1, env, 4);
      var rt2 := Polled(st, rt1, env.poll(4)).1;
      if env.poll(4).injectionOk { StreamsAndReturns(st, rt2, job, lease, env, 5); }
      else { PersistsAndReturns(st, rt2, job, lease, InjectionFailure, env, 5); }
    } else {
      StreamsAndReturns(st, rt1, job, lease, env, 4);
    }
  }

  /** A call that is left alone takes the source up and ends as its injection and its stream do.  A
      broken injection fails source and continuation; a stream result completes the source and is
      returned, unless the continuation failed without a diagnostic, which nothing records, or is not
      over, which leaves its lease behind; a stream error fails or cancels both, unless the
      continuation could not be identified. */
  lemma CalmCall(st: State, job: Job, runId: Option<RunId>, env: Environment)
    requires Free(st, job) && Calm(env)
    ensures
      var (end, rt) := Drive(st, Runtime(Claiming(job), None, runId, Pending, []), env, 0);
      if job.hasResults && !env.poll(4).injectionOk then
        Finishes(end, rt, job, InjectionError, FAILURE, FAILURE, env.poll(5).digest)
      else
        var n := if job.hasResults then 5 else 4;
        StreamEnds(end, rt, job, env.poll(n).completion, env.poll(n + 1).digest)
  {
    var next, lease := CrossesFence(st, job, runId, env);
    var crossed := Runtime(CheckingLease(job, lease), None, runId, Pending, [Claimed, AdmissionTaken, FenceCrossed]);
    InjectsAndReturns(next, crossed, job, lease, env);
  }

  // ---------------------------------------------------------------- a call that is refused

  /** A refused admission leads to one attempt to give the claim back, whatever happens in between; unless
      that attempt is lost, a claim that has got no further is gone. */
  lemma RefusalGivesClaimBack(st: State, rt: Runtime, p: Poll, later: State, q: Poll)
    requires rt.phase.Acquiring? && !Called(st, PendingOp(rt.phase, p).value, p.fault).1.Leased?
    ensures
      var rt1 := Polled(st, rt, p).1;
      var (end, rt2) := Polled(later, rt1, q);
      var job := rt.phase.job;
      && rt2.phase.Idle? && rt2.last == AdmissionRefused && rt2.lease == rt.lease && rt2.runId == rt.runId
      && (q.fault != Dropped && job.source in later.claims
          && later.claims[job.source] == Claim(job.claim, Preflight) ==>
            end == later.(claims := later.claims - {job.source}))
      && (job.source in later.claims && later.claims[job.source] != Claim(job.claim, Preflight) ==> end == later)
  {
  }
}
