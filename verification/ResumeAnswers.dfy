/**
  What a call answers, and what it leaves in the tables, told from what happened to it: the replies
  it heard and how its lease, its injection and its stream ended.
*/
module ResumeAnswers {
  import opened Basics
  import opened Store
  import opened Resume
  import opened ResumeSafety
  import opened StoreSafety
  import opened AgentRuntimes

  // ---------------------------------------------------------------- what can happen to a call

  datatype Happening =
    | ClaimDenied | AdmissionDenied
    | FenceFailed       // the fence answered with an error
    | AbortUnclear      // and the abort did not tell whether an effect had run
    | LeaseGone         // the heartbeat had lost the lease right after the fence
    | InjectionBroke | StreamBroke | StreamFinished
    | CommitRefused | NotTerminalYet | FinalizeRefused

  /** What happens at one suspension point that hears this reply. */
  function Now(phase: Phase, reply: Reply, p: Poll): set<Happening> {
    match phase
    case Claiming(_) => if reply.Done? then {} else {ClaimDenied}
    case Acquiring(_) => if reply.Leased? then {} else {AdmissionDenied}
    case CrossingFence(_, _) => if reply.Done? then {} else {FenceFailed}
    case Aborting(_, _) => if reply.Aborted? then {} else {AbortUnclear}
    case CheckingLease(_, _) => if p.leaseLive then {} else {LeaseGone}
    case Injecting(_, _) => if p.injectionOk then {} else {InjectionBroke}
    case Streaming(_, _) => if p.completion.Finished? then {StreamFinished} else {StreamBroke}
    case Persisting(_, _, cause) => if reply.Done? || Unrecording(cause) then {} else {CommitRefused}
    case Loading(_, _, _) => if reply.Loaded? && reply.run.status.Terminal() then {} else {NotTerminalYet}
    case Finalizing(_, _, _, _) => if reply.Done? then {} else {FinalizeRefused}
    case _ => {}
  }

  /** The reply that a poll hears. */
  function Heard(st: State, rt: Runtime, p: Poll): Reply {
    match PendingOp(rt.phase, p)
    case Some(op) => Called(st, op, p.fault).1
    case None => Done
  }

  /** Everything that happens to a call until it returns. */
  function Met(st: State, rt: Runtime, env: Environment, n: nat): set<Happening>
    decreases Remaining(rt.phase)
  {
    if rt.phase.Idle? then {}
    else
      var here := After(st, env.others(n));
      var (next, rt') := Polled(here, rt, env.poll(n));
      Now(rt.phase, Heard(here, rt, env.poll(n)), env.poll(n)) + Met(next, rt', env, n + 1)
  }

  /** What must have happened for a call to stand in this phase. */
  function Behind(phase: Phase): set<Happening> {
    match phase
    case Releasing(_) => {AdmissionDenied}
    case Aborting(_, _) => {FenceFailed}
    case Persisting(_, _, cause) => BehindCause(cause)
    case Loading(_, _, cause) => BehindCause(cause)
    case Finalizing(_, _, cause, _) => BehindCause(cause)
    case _ => {}
  }

  function BehindCause(cause: Cause): set<Happening> {
    match cause
    case BeforeEffect => {FenceFailed}
    case Indeterminate => {FenceFailed}
    case InjectionFailure => {InjectionBroke}
    case StreamFailure(_, _) => {StreamBroke}
    case Produced(_) => {StreamFinished}
  }

  /** The phase of a call that owns its continuation. */
  predicate Own(phase: Phase) { phase.Busy() && !phase.HostCrossing? && !phase.HostInjecting? }

  predicate GotStuck(met: set<Happening>) { CommitRefused in met || NotTerminalYet in met || FinalizeRefused in met }

  /** The answer says what happened. */
  predicate Explains(last: Outcome, met: set<Happening>) {
    && (last == ClaimRefused <==> ClaimDenied in met)
    && (last == AdmissionRefused <==> AdmissionDenied in met)
    && (last == PhaseUnknown <==> AbortUnclear in met)
    && (last == LeaseLost <==> LeaseGone in met)
    && (last == Stuck <==> GotStuck(met))
    && (last == StartError <==> FenceFailed in met && AbortUnclear !in met && !GotStuck(met))
    && (last == InjectionError <==> InjectionBroke in met && !GotStuck(met))
    && (last == StreamError <==> StreamBroke in met && !GotStuck(met))
    && (last == ReturnedResult <==> StreamFinished in met && !GotStuck(met))
  }

  lemma OneMove(rt: Runtime, reply: Reply, p: Poll)
    requires Own(rt.phase) && Own(Advance(rt, reply, p).phase)
    ensures Behind(Advance(rt, reply, p).phase) == Behind(rt.phase) + Now(rt.phase, reply, p)
  {
  }

  lemma LastMove(rt: Runtime, reply: Reply, p: Poll)
    requires Own(rt.phase) && !Own(Advance(rt, reply, p).phase)
    ensures Advance(rt, reply, p).phase.Idle?
    ensures Explains(Advance(rt, reply, p).last, Behind(rt.phase) + Now(rt.phase, reply, p))
  {
    assert reply.Aborted? ==> reply.outcome == AbortedBeforeEffect || reply.outcome == EffectStarted;
  }

  lemma PollHears(st: State, rt: Runtime, p: Poll)
    ensures Polled(st, rt, p).1 == Advance(rt, Heard(st, rt, p), p)
  {
  }

  lemma {:induction false} DriveIsExplained(st: State, rt: Runtime, env: Environment, n: nat)
    requires Own(rt.phase)
    ensures Explains(Drive(st, rt, env, n).1.last, Behind(rt.phase) + Met(st, rt, env, n))
    decreases Remaining(rt.phase)
  {
    var here, p := After(st, env.others(n)), env.poll(n);
    var (next, rt') := Polled(here, rt, p);
    var reply := Heard(here, rt, p);
    PollHears(here, rt, p);
    if Own(rt'.phase) {
      OneMove(rt, reply, p);
      DriveIsExplained(next, rt', env, n + 1);
      SameUnion(Behind(rt.phase), Now(rt.phase, reply, p), Met(next, rt', env, n + 1));
    } else {
      LastMove(rt, reply, p);
      assert Met(next, rt', env, n + 1) == {};
      SameUnion(Behind(rt.phase), Now(rt.phase, reply, p), {});
    }
  }

  lemma SameUnion(a: set<Happening>, b: set<Happening>, c: set<Happening>)
    ensures a + b + c == a + (b + c) && a + b + {} == a + b
  {
  }

  /** Whatever the environment does: a call answers with a refusal exactly when its claim, its
      admission, its abort or its lease failed it, gets stuck exactly when its commit, its target or
      its admission did, and otherwise returns the result, the injection error, the stream error or
      the start error exactly when the stream finished, the injection broke, the stream broke or the
      fence failed. */
  lemma AnswersAreExact(st: State, job: Job, runId: Option<RunId>, env: Environment)
    ensures
      var call := Runtime(Claiming(job), None, runId, Pending, []);
      Explains(Drive(st, call, env, 0).1.last, Met(st, call, env, 0))
  {
    var call := Runtime(Claiming(job), None, runId, Pending, []);
    DriveIsExplained(st, call, env, 0);
    assert {} + Met(st, call, env, 0) == Met(st, call, env, 0);
  }

  /** A host-managed injection is refused exactly when the store did not open the fence or its answer did
      not arrive; otherwise it runs, however long others take in between, and ends as it ends. It changes
      no table by itself and leaves the host's lease and run id on the runtime. */
  lemma HostAnswers(st: State, rt: Runtime, p: Poll, later: State, q: Poll)
    requires rt.phase.HostCrossing?
    ensures
      var HostCrossing(job, lease) := rt.phase;
      var rt1 := Polled(st, rt, p).1;
      var (end, rt2) := Polled(later, rt1, q);
      && rt1.lease == rt2.lease == rt.lease && rt1.runId == rt2.runId == rt.runId
      && (if p.fault == NoFault && StartEffect(st, lease, job.source.run, job.claim, p.now).1 == Done then
            && rt1.phase == HostInjecting(job, lease)
            && rt2.phase.Idle? && rt2.last == HostInjected && end == later
            && rt2.trail == rt.trail + [FenceCrossed, if q.injectionOk then InjectedResults else InjectionFailed]
          else rt1.phase.Idle? && rt1.last == HostRefused && rt1.trail == rt.trail + [StartFailed])
  {
    assert forall a: Note, b: Note :: rt.trail + [a] + [b] == rt.trail + [a, b];
  }

  // ---------------------------------------------------------------- what a call leaves on its runtime

  /** The call knows that its fence was crossed. */
  predicate Started(rt: Runtime) { FenceCrossed in rt.trail || EffectSeen in rt.trail }

  /** Nothing has been started yet, as far as the call knows. */
  predicate Early(phase: Phase) {
    || phase.Claiming? || phase.Acquiring? || phase.Releasing? || phase.CrossingFence? || phase.Aborting?
    || ((phase.Loading? || phase.Finalizing?) && phase.cause.BeforeEffect?)
  }

  /** The runtime holds what it held before, unless something was started. */
  predicate Kept(rt: Runtime, lease: Option<Lease>, runId: Option<RunId>) {
    Started(rt) || (rt.lease == lease && rt.runId == runId && (rt.phase.Idle? || Early(rt.phase)))
  }

  lemma KeptByMove(rt: Runtime, reply: Reply, p: Poll, lease: Option<Lease>, runId: Option<RunId>)
    requires Own(rt.phase) && Kept(rt, lease, runId)
    ensures
      var next := Advance(rt, reply, p);
      Kept(next, lease, runId) && (Own(next.phase) || next.phase.Idle?)
  {
    assert rt.trail <= Advance(rt, reply, p).trail;
  }

  lemma {:induction false} DriveKeeps(st: State, rt: Runtime, env: Environment, n: nat, lease: Option<Lease>,
        runId: Option<RunId>)
    requires Own(rt.phase) && Kept(rt, lease, runId)
    ensures Kept(Drive(st, rt, env, n).1, lease, runId)
    decreases Remaining(rt.phase)
  {
    DriveStep(st, rt, env, n);
    var here, p := After(st, env.others(n)), env.poll(n);
    var (next, rt') := Polled(here, rt, p);
    PollHears(here, rt, p);
    KeptByMove(rt, Heard(here, rt, p), p, lease, runId);
    if Own(rt'.phase) { DriveKeeps(next, rt', env, n + 1, lease, runId); }
  }

  /** Whatever the environment does: a call that never learns that its fence was crossed leaves the
      runtime as it found it, without a lease and with the run id of the session. */
  lemma UnstartedKeepsRuntime(st: State, job: Job, runId: Option<RunId>, env: Environment)
    ensures
      var rt := Drive(st, Runtime(Claiming(job), None, runId, Pending, []), env, 0).1;
      FenceCrossed in rt.trail || EffectSeen in rt.trail || (rt.lease == None && rt.runId == runId)
  {
    DriveKeeps(st, Runtime(Claiming(job), None, runId, Pending, []), env, 0, None, runId);
  }

  // ---------------------------------------------------------------- what a call leaves in the tables

  /** The run ended with this status; a failure carries the diagnostic, a completion none. */
  predicate EndedAs(st: State, k: RunKey, status: RunStatus) {
    && k in st.runs && st.runs[k].status == status && st.runs[k].preview == Some(PREVIEW)
    && (status == Failed ==> st.runs[k].error == Some(DIAGNOSTIC))
    && (status == Completed ==> st.runs[k].error == None)
  }

  /** The commit that a call makes next is accepted. */
  predicate Commits(st: State, rt: Runtime, p: Poll) {
    && rt.phase.Persisting? && PendingOp(rt.phase, p).Some?
    && Apply(st, PendingOp(rt.phase, p).value).1 == Done
  }

  function Committed(st: State, rt: Runtime, p: Poll): State
    requires PendingOp(rt.phase, p).Some?
  {
    Apply(st, PendingOp(rt.phase, p).value).0
  }

  lemma CommitWrites(st: State, job: Job, lease: Lease, c: Commit, p: Poll)
    requires Firm(st, job, lease) && c.key == job.Target() && c.related.Some? && c.related.value.run == job.source.run
    requires CommitEvidence(st, Some(lease), c, p.now).1 == Done
    ensures
      var next := CommitEvidence(st, Some(lease), c, p.now).0;
      && job.Target() in next.runs && job.source in next.runs
      && next.runs[job.Target()].status == c.outcome.status && next.runs[job.Target()].preview == c.outcome.preview
      && next.runs[job.Target()].error == c.outcome.error
      && next.runs[job.source].status == c.related.value.terminal.status
      && next.runs[job.source].preview == c.related.value.terminal.preview
      && next.runs[job.source].error == c.related.value.terminal.error
  {
  }

  /** The source and the continuation end as the stream did: a result completes the source whatever the
      continuation's own status, a cancelled stream cancels both, any other failure fails both. */
  lemma StreamDecidesStatuses(st: State, rt: Runtime, p: Poll, q: Poll)
    requires rt.phase.Streaming? && Firm(st, rt.phase.job, rt.phase.lease)
    requires Commits(st, Polled(st, rt, p).1, q)
    ensures
      var next := Committed(st, Polled(st, rt, p).1, q);
      var source, target := rt.phase.job.source, rt.phase.job.Target();
      match p.completion
      case Finished(status) =>
        EndedAs(next, source, Completed) && target in next.runs && next.runs[target].status == status
      case Broken(true, _) => EndedAs(next, source, Cancelled) && EndedAs(next, target, Cancelled)
      case Broken(false, _) => EndedAs(next, source, Failed) && EndedAs(next, target, Failed)
  {
    var rt1 := Polled(st, rt, p).1;
    CommitWrites(st, rt.phase.job, rt.phase.lease, EvidenceFor(rt.phase.job, rt1.phase.cause, q), q);
  }

  /** A broken injection fails both. */
  lemma BrokenInjectionFailsBoth(st: State, rt: Runtime, p: Poll, q: Poll)
    requires rt.phase.Injecting? && Firm(st, rt.phase.job, rt.phase.lease) && !p.injectionOk
    requires Commits(st, Polled(st, rt, p).1, q)
    ensures
      var next := Committed(st, Polled(st, rt, p).1, q);
      EndedAs(next, rt.phase.job.source, Failed) && EndedAs(next, rt.phase.job.Target(), Failed)
  {
    var rt1 := Polled(st, rt, p).1;
    CommitWrites(st, rt.phase.job, rt.phase.lease, EvidenceFor(rt.phase.job, rt1.phase.cause, q), q);
  }

  /** So does a fence that failed although it had been crossed. */
  lemma UncertainStartFailsBoth(st: State, rt: Runtime, p: Poll, q: Poll)
    requires rt.phase.Aborting? && Grip(st, rt.phase.job, rt.phase.lease)
    requires Heard(st, rt, p) == Aborted(EffectStarted)
    requires Commits(st, Polled(st, rt, p).1, q)
    ensures
      var next := Committed(st, Polled(st, rt, p).1, q);
      EndedAs(next, rt.phase.job.source, Failed) && EndedAs(next, rt.phase.job.Target(), Failed)
  {
    var rt1 := Polled(st, rt, p).1;
    AbortSettles(st, rt.phase.job, rt.phase.lease, p.now);
    CommitWrites(st, rt.phase.job, rt.phase.lease, EvidenceFor(rt.phase.job, rt1.phase.cause, q), q);
  }

  /** What a granted request put into the tables: the continuation of the source, queued, under the
      lease it hands out, which runs for thirty seconds, and the claim moved to admitted. */
  lemma GrantedAdmission(st: State, job: Job, now: int)
    requires Unborn(st, job) && AcquireAdmission(st, RequestFor(job, now), now).1.Leased?
    ensures
      var (next, reply) := AcquireAdmission(st, RequestFor(job, now), now);
      var lease := reply.lease;
      && lease.key == job.Target() && lease.admission == job.admission && lease.host == job.host
      && lease.expires == now + 30 && next.admissions[job.source.session] == lease
      && next.runs[job.Target()] == Run(Queued, Some(job.source.run), None, None, false)
      && job.source in next.claims && next.claims[job.source] == Claim(job.claim, Admitted)
      && job.source in next.runs && next.runs[job.source].status == Waiting
      && next.sessions[job.source.session].active == Some(job.continuation)
  {
    if job.source.session in st.admissions { EvictKeeps(st, job.source.session, job.source); }
  }
}
