/**
  Where a plausible promise about continuations does not hold, the history that breaks it, and
  what holds instead.
*/
module ResumeFindings {
  import opened Basics
  import opened Store
  import opened StoreSafety
  import opened Resume
  import opened ResumeSafety
  import opened ResumeHistory

  // ---------------------------------------------------------------- commits and conclusions

  /** A call that is finalizing after a commit has a concluded source, now and after the step. */
  lemma CommittedCallHasConcludedSource(w: World, id: nat, p: Poll)
    requires Orderly(w) && id in w.runtimes
    requires w.runtimes[id].phase.Loading? || w.runtimes[id].phase.Finalizing?
    requires Committing(w.runtimes[id].phase.cause)
    ensures Concluded(w.store, w.runtimes[id].phase.job.source)
    ensures Concluded(Ticked(w, id, p).store, w.runtimes[id].phase.job.source)
  {
    ApplyKeeps(w.store, PendingOp(w.runtimes[id].phase, p).value, w.runtimes[id].phase.job.source);
  }

  /** A stream failure that left nothing to commit never gives an admission away: the call gets stuck
      while it holds its lease, and finalizes only once the source has concluded, without effect. */
  lemma UnrecordedFailureChangesNothing(w: World, id: nat, p: Poll)
    requires Orderly(w) && id in w.runtimes
    requires w.runtimes[id].phase.Loading? || w.runtimes[id].phase.Finalizing?
    requires Unrecording(w.runtimes[id].phase.cause)
    ensures Ticked(w, id, p).store == w.store
    ensures w.runtimes[id].phase.Finalizing? || Ticked(w, id, p).runtimes[id].phase.Finalizing? ==>
      Concluded(w.store, w.runtimes[id].phase.job.source)
    ensures w.runtimes[id].phase.Loading? && Holds(w.store, w.runtimes[id].phase.lease) ==>
      Ticked(w, id, p).runtimes[id].last == Stuck
  {
    assert PhaseInv(w.store, w.runtimes[id].phase);
  }

  /** The fenced commit is all or nothing: when it is applied, the continuation's outcome is
      recorded and sealed, the source has its terminal status and the claim is consumed. */
  lemma CommitIsAtomic(st: State, fence: Option<Lease>, c: Commit, now: int)
    requires c.related.Some? && c.key !in st.sealed
    ensures
      var (next, reply) := CommitEvidence(st, fence, c, now);
      var source := RunKey(c.key.session, c.related.value.run);
      if reply.Done? then
        && IsTerminalIn(next, source) && source !in next.claims
        && next.runs[source].status == c.related.value.terminal.status
        && c.key in next.runs && next.runs[c.key].status == c.outcome.status && c.key in next.sealed
        && source in st.claims && st.claims[source].state == Started
        && (fence.Some? ==> Fresh(st, fence.value, now) && fence.value.key == c.key)
      else next == st
  {
  }

  predicate HasStatus(st: State, k: RunKey, status: RunStatus) { k in st.runs && st.runs[k].status == status }

  predicate IsTerminalIn(st: State, k: RunKey) { k in st.runs && st.runs[k].status.Terminal() }

  // ---------------------------------------------------------------- a continuation that waits again

  /** Three undisturbed polls of a call. */
  function ThreePolls(st: State, rt: Runtime, p: Poll, q: Poll, r: Poll): (State, Runtime) {
    var (st1, rt1) := Polled(st, rt, p);
    var (st2, rt2) := Polled(st1, rt1, q);
    Polled(st2, rt2, r)
  }

  /** Every failure is terminal; a stream that finished is as terminal as its own status. */
  predicate EndsTerminal(cause: Cause) { cause.Produced? ==> cause.status.Terminal() }

  lemma CommitRecords(st: State, job: Job, lease: Lease, cause: Cause, p: Poll)
    requires Firm(st, job, lease) && CommitEvidence(st, Some(lease), EvidenceFor(job, cause, p), p.now).1.Done?
    ensures
      var next := CommitEvidence(st, Some(lease), EvidenceFor(job, cause, p), p.now).0;
      && job.Target() in next.runs && next.runs[job.Target()].status == TargetOutcome(cause).status
      && next.admissions == st.admissions && Holds(st, lease)
  {
  }

  lemma LoadThenFinalize(st: State, rt: Runtime, q: Poll, r: Poll)
    requires rt.phase.Loading? && !rt.phase.cause.BeforeEffect? && q.fault == NoFault && r.fault == NoFault
    requires rt.phase.job.Target() in st.runs && rt.phase.lease.key == rt.phase.job.Target()
             && Fresh(st, rt.phase.lease, r.now)
    ensures
      var (st1, rt1) := Polled(st, rt, q);
      var (st2, rt2) := Polled(st1, rt1, r);
      if st.runs[rt.phase.job.Target()].status.Terminal() then
        rt2 == ReturnClean(rt, OutcomeOf(rt.phase.cause), [AdmissionFinalized])
        && st2 == st.(admissions := st.admissions - {rt.phase.lease.key.session})
      else rt2 == Return(rt, Stuck, []) && st2 == st
  {
    var (st1, rt1) := Polled(st, rt, q);
    assert st1 == st && rt.trail + [] == rt.trail;
  }

  /** A call whose commit was accepted, left alone by faults and by its lease, returns its outcome with
      nothing left on the runtime if and only if the stream did not suspend again.  If it did, the
      evidence is sealed and the source concluded, but the call gets stuck: lease and continuation id
      stay on the runtime and the admission stays held. */
  lemma FinalizesUnlessSuspended(st: State, rt: Runtime, p: Poll, q: Poll, r: Poll)
    requires rt.phase.Persisting? && Committing(rt.phase.cause) && Firm(st, rt.phase.job, rt.phase.lease)
    requires p.fault == NoFault && q.fault == NoFault && r.fault == NoFault && Fresh(st, rt.phase.lease, r.now)
    requires CommitEvidence(st, Some(rt.phase.lease), EvidenceFor(rt.phase.job, rt.phase.cause, p), p.now).1.Done?
    ensures
      var Persisting(job, lease, cause) := rt.phase;
      var (end, rt') := ThreePolls(st, rt, p, q, r);
      && rt'.phase.Idle? && Concluded(end, job.source)
      && (rt'.last == OutcomeOf(cause) <==> EndsTerminal(cause))
      && (if EndsTerminal(cause) then rt'.lease.None? && rt'.runId.None? && lease.key.session !in end.admissions
          else rt'.last == Stuck && rt'.lease == rt.lease && rt'.runId == rt.runId && Holds(end, lease)
               && HasStatus(end, job.Target(), cause.status))
  {
    var Persisting(job, lease, cause) := rt.phase;
    CommitRecords(st, job, lease, cause, p);
    CommitConcludes(st, job, lease, cause, p);
    var (st1, rt1) := Polled(st, rt, p);
    assert rt1 == Move(rt, Loading(job, lease, cause), [Committed]);
    LoadThenFinalize(st1, rt1, q, r);
  }

  /** And once its lease expires, reconciliation cancels that waiting continuation, so the
      approvals it is waiting for can no longer be claimed. */
  lemma SuspendedAgainIsCancelled(st: State, job: Job, lease: Lease, now: int, claim: Token)
    requires Fits(job, lease) && Holds(st, lease) && st.admissions[job.source.session].ExpiredAt(now)
    requires Concluded(st, job.source)
    requires IsWaiting(st, job.Target()) && st.runs[job.Target()].restoreFrom == Some(job.source.run)
    ensures
      var next := Reconcile(st, [job.source.session], now).0;
      && job.Target() in next.runs && next.runs[job.Target()].status == Cancelled
      && job.source.session !in next.admissions
      && ClaimResume(next, job.Target(), claim).1 == Err
  {
    OneEviction(st, job.source.session, now);
  }

  // ---------------------------------------------------------------- a lease lost past the fence

  /** The lease is checked once, right after the fence.  In any history, if it then lapses and
      another client reconciles it before the results are injected, they are injected all the
      same: the claim is gone and the source has been cancelled with an indeterminate effect. */
  lemma InjectionCanOutliveItsLease(w: World, id: nat, now: int, p: Poll)
    requires Orderly(w) && id in w.runtimes && w.runtimes[id].phase.Injecting?
    requires Holds(w.store, w.runtimes[id].phase.lease)
    requires w.store.admissions[w.runtimes[id].phase.lease.key.session].ExpiredAt(now)
    ensures
      var source := w.runtimes[id].phase.job.source;
      var reconcile := Elsewhere(OpReconcile([source.session], now));
      var end := Step(Step(w, reconcile), Tick(id, p));
      && Plausible(w, reconcile)
      && end.effects == w.effects + [Effect(source, w.runtimes[id].phase.job.claim, false, true)]
      && source in end.store.runs && end.store.runs[source].status == Cancelled && end.store.runs[source].indeterminate
  {
    var Injecting(job, lease) := w.runtimes[id].phase;
    var s := job.source.session;
    assert PhaseInv(w.store, w.runtimes[id].phase);
    OneEviction(w.store, s, now);
    ElsewhereOrderly(w, OpReconcile([s], now));
  }

  lemma OneEviction(st: State, s: SessionId, now: int)
    requires s in st.admissions && st.admissions[s].ExpiredAt(now)
    ensures EvictExpired(st, [s], now) == Evict(st, s)
  {
    assert [s][1..] == [];
    if Evict(st, s).Some? { assert EvictExpired(Evict(st, s).value, [], now) == Evict(st, s); }
  }

  // ---------------------------------------------------------------- such a history exists

  /** A store in which `job.source` can be taken up by the very first claim. */
  predicate Untouched(st: State, job: Job) {
    && st.claims == map[] && Ready(st, job.source) && job.source in st.sealed
    && job.Target() !in st.runs && job.Target() !in st.sealed && job.idempotency !in st.receipts
    && job.claim != BLANK && job.hasResults
  }

  const CALM: Poll := Poll(0, NoFault, true, true, Finished(Completed), 0, true)

  function Solo(st: State, phase: Phase, lease: Option<Lease>, trail: seq<Note>): World {
    World(st, map[0 := Runtime(phase, lease, None, Pending, trail)], [])
  }

  function ClaimedStore(st: State, job: Job): State { st.(claims := map[job.source := Claim(job.claim, Preflight)]) }

  function LeaseFor(st: State, job: Job): Lease {
    Lease(job.Target(), job.admission, job.host, NextGeneration(st, job.source.session), LEASE_TTL)
  }

  function AdmittedStore(st: State, job: Job): State {
    AcquireAdmission(ClaimedStore(st, job), RequestFor(job, 0), 0).0
  }

  function StartedStore(st: State, job: Job): State {
    StartEffect(AdmittedStore(st, job), LeaseFor(st, job), job.source.run, job.claim, 0).0
  }

  lemma FirstClaim(st: State, job: Job)
    requires Untouched(st, job)
    ensures ClaimResume(st, job.source, job.claim) == (ClaimedStore(st, job), Done)
  {
  }

  lemma FirstAdmission(st: State, job: Job)
    requires Untouched(st, job)
    ensures AcquireAdmission(ClaimedStore(st, job), RequestFor(job, 0), 0).1 == Leased(LeaseFor(st, job))
    ensures var next := AdmittedStore(st, job);
      && job.source.session in next.admissions && next.admissions[job.source.session] == LeaseFor(st, job)
      && next.runs == st.runs[job.Target() := Run(Queued, Some(job.source.run), None, None, false)]
      && next.claims == map[job.source := Claim(job.claim, Admitted)]
  {
    var c, q := ClaimedStore(st, job), RequestFor(job, 0);
    assert Admissible(c, q) by { assert IsWaiting(c, job.source); }
    assert map[job.source := Claim(job.claim, Preflight)][job.source := Claim(job.claim, Admitted)]
        == map[job.source := Claim(job.claim, Admitted)];
  }

  lemma FirstStart(st: State, job: Job)
    requires Untouched(st, job)
    ensures StartEffect(AdmittedStore(st, job), LeaseFor(st, job), job.source.run, job.claim, 0).1 == Done
    ensures StartedStore(st, job).admissions == AdmittedStore(st, job).admissions
  {
    FirstAdmission(st, job);
    assert BoundToWaitingSource(AdmittedStore(st, job), LeaseFor(st, job), job.source.run, 0);
  }

  /** The steps from an empty world to the moment before injection. */
  function ToInjection(job: Job): seq<Event> {
    [Build(0, None), Begin(0, job), Tick(0, CALM), Tick(0, CALM), Tick(0, CALM), Tick(0, CALM)]
  }

  lemma SoloTick(st: State, rt: Runtime, p: Poll)
    ensures Step(World(st, map[0 := rt], []), Tick(0, p))
         == World(Polled(st, rt, p).0, map[0 := Polled(st, rt, p).1], EffectsOf(st, rt.phase))
  {
    var next := Polled(st, rt, p).1;
    assert map[0 := rt][0 := next] == map[0 := next];
    assert [] + EffectsOf(st, rt.phase) == EffectsOf(st, rt.phase);
  }

  lemma BeginStep(st: State, job: Job)
    ensures Step(Step(World(st, map[], []), Build(0, None)), Begin(0, job)) == Solo(st, Claiming(job), None, [])
  {
    var w := Step(World(st, map[], []), Build(0, None));
    assert w.runtimes == map[0 := Runtime(Idle, None, None, Pending, [])];
    assert w.runtimes[0 := Runtime(Claiming(job), None, None, Pending, [])]
      == map[0 := Runtime(Claiming(job), None, None, Pending, [])];
  }

  lemma ClaimStep(st: State, job: Job)
    requires Untouched(st, job)
    ensures Step(Solo(st, Claiming(job), None, []), Tick(0, CALM))
      == Solo(ClaimedStore(st, job), Acquiring(job), None, [Claimed])
  {
    FirstClaim(st, job);
    SoloTick(st, Runtime(Claiming(job), None, None, Pending, []), CALM);
    assert [] + [Claimed] == [Claimed];
  }

  lemma AdmissionStep(st: State, job: Job)
    requires Untouched(st, job)
    ensures Step(Solo(ClaimedStore(st, job), Acquiring(job), None, [Claimed]), Tick(0, CALM))
         == Solo(AdmittedStore(st, job), CrossingFence(job, LeaseFor(st, job)), None, [Claimed, AdmissionTaken])
  {
    FirstAdmission(st, job);
    SoloTick(ClaimedStore(st, job), Runtime(Acquiring(job), None, None, Pending, [Claimed]), CALM);
    assert [Claimed] + [AdmissionTaken] == [Claimed, AdmissionTaken];
  }

  lemma FenceStep(st: State, job: Job)
    requires Untouched(st, job)
    ensures Step(Solo(AdmittedStore(st, job), CrossingFence(job, LeaseFor(st, job)), None, [Claimed, AdmissionTaken]),
                 Tick(0, CALM))
         == Solo(StartedStore(st, job), CheckingLease(job, LeaseFor(st, job)), None,
             [Claimed, AdmissionTaken, FenceCrossed])
  {
    FirstStart(st, job);
    SoloTick(AdmittedStore(st, job),
        Runtime(CrossingFence(job, LeaseFor(st, job)), None, None, Pending, [Claimed, AdmissionTaken]), CALM);
    assert [Claimed, AdmissionTaken] + [FenceCrossed] == [Claimed, AdmissionTaken, FenceCrossed];
  }

  lemma CheckStep(st: State, job: Job, lease: Lease)
    requires job.hasResults
    ensures Step(Solo(st, CheckingLease(job, lease), None, [Claimed, AdmissionTaken, FenceCrossed]), Tick(0, CALM))
         == Solo(st, Injecting(job, lease), Some(lease), [Claimed, AdmissionTaken, FenceCrossed])
  {
    SoloTick(st, Runtime(CheckingLease(job, lease), None, None, Pending, [Claimed, AdmissionTaken, FenceCrossed]),
        CALM);
    assert [Claimed, AdmissionTaken, FenceCrossed] + [] == [Claimed, AdmissionTaken, FenceCrossed];
  }

  lemma Prepend(w: World, e: Event, es: seq<Event>)
    requires Plausible(w, e) && PlausibleHistory(Step(w, e), es)
    ensures PlausibleHistory(w, [e] + es) && Steps(w, [e] + es) == Steps(Step(w, e), es)
  {
    assert ([e] + es)[1..] == es;
  }

  /** A history that continues from `to` can be started at `from` with the given steps in front. */
  ghost predicate Leads(from: World, steps: seq<Event>, to: World) {
    forall rest :: PlausibleHistory(to, rest) ==>
      PlausibleHistory(from, steps + rest) && Steps(from, steps + rest) == Steps(to, rest)
  }

  lemma LeadsFurther(from: World, e: Event, steps: seq<Event>, to: World)
    requires Plausible(from, e) && Leads(Step(from, e), steps, to)
    ensures Leads(from, [e] + steps, to)
  {
    forall rest | PlausibleHistory(to, rest)
      ensures PlausibleHistory(from, [e] + steps + rest) && Steps(from, [e] + steps + rest) == Steps(to, rest)
    {
      Prepend(from, e, steps + rest);
      assert [e] + steps + rest == [e] + (steps + rest);
    }
  }

  function InjectionPoint(st: State, job: Job): World {
    Solo(StartedStore(st, job), Injecting(job, LeaseFor(st, job)), Some(LeaseFor(st, job)),
        [Claimed, AdmissionTaken, FenceCrossed])
  }

  lemma LeadsNowhere(w: World)
    ensures Leads(w, [], w)
  {
    forall rest: seq<Event> ensures [] + rest == rest {}
  }

  lemma FenceLeads(st: State, job: Job)
    requires Untouched(st, job)
    ensures Leads(Solo(AdmittedStore(st, job), CrossingFence(job, LeaseFor(st, job)), None, [Claimed, AdmissionTaken]),
                  [Tick(0, CALM), Tick(0, CALM)], InjectionPoint(st, job))
  {
    var lease := LeaseFor(st, job);
    LeadsNowhere(InjectionPoint(st, job));
    CheckStep(StartedStore(st, job), job, lease);
    LeadsFurther(Solo(StartedStore(st, job), CheckingLease(job, lease), None, [Claimed, AdmissionTaken, FenceCrossed]),
                 Tick(0, CALM), [], InjectionPoint(st, job));
    assert [Tick(0, CALM)] + [] == [Tick(0, CALM)];
    FenceStep(st, job);
    LeadsFurther(Solo(AdmittedStore(st, job), CrossingFence(job, lease), None, [Claimed, AdmissionTaken]),
                 Tick(0, CALM), [Tick(0, CALM)], InjectionPoint(st, job));
    assert [Tick(0, CALM)] + [Tick(0, CALM)] == [Tick(0, CALM), Tick(0, CALM)];
  }

  lemma ClaimLeads(st: State, job: Job)
    requires Untouched(st, job)
    ensures Leads(Solo(st, Claiming(job), None, []),
                  [Tick(0, CALM), Tick(0, CALM), Tick(0, CALM), Tick(0, CALM)], InjectionPoint(st, job))
  {
    var t := Tick(0, CALM);
    FenceLeads(st, job);
    AdmissionStep(st, job);
    LeadsFurther(Solo(ClaimedStore(st, job), Acquiring(job), None, [Claimed]), t, [t, t], InjectionPoint(st, job));
    assert [t] + [t, t] == [t, t, t];
    ClaimStep(st, job);
    LeadsFurther(Solo(st, Claiming(job), None, []), t, [t, t, t], InjectionPoint(st, job));
    assert [t] + [t, t, t] == [t, t, t, t];
  }

  lemma ReachesInjection(st: State, job: Job)
    requires Untouched(st, job)
    ensures Leads(World(st, map[], []), ToInjection(job), InjectionPoint(st, job))
  {
    var t := Tick(0, CALM);
    var w := World(st, map[], []);
    ClaimLeads(st, job);
    BeginStep(st, job);
    LeadsFurther(Step(w, Build(0, None)), Begin(0, job), [t, t, t, t], InjectionPoint(st, job));
    assert [Begin(0, job)] + [t, t, t, t] == [Begin(0, job), t, t, t, t];
    LeadsFurther(w, Build(0, None), [Begin(0, job), t, t, t, t], InjectionPoint(st, job));
    assert [Build(0, None)] + [Begin(0, job), t, t, t, t] == ToInjection(job);
  }

  lemma InjectionPointIsOrderly(st: State, job: Job)
    requires Untouched(st, job)
    ensures Orderly(World(st, map[], [])) && Orderly(InjectionPoint(st, job))
    ensures Holds(StartedStore(st, job), LeaseFor(st, job))
    ensures StartedStore(st, job).admissions[job.source.session].ExpiredAt(LEASE_TTL)
  {
    StartsOrderly(st);
    ReachesInjection(st, job);
    assert PlausibleHistory(InjectionPoint(st, job), []);
    EffectsAreOwnedOrConcluded(World(st, map[], []), ToInjection(job) + []);
    FirstAdmission(st, job);
    FirstStart(st, job);
  }

  /** The lease lapses, someone reconciles it, and the results are injected all the same. */
  function Lapse(job: Job): seq<Event> {
    [Elsewhere(OpReconcile([job.source.session], LEASE_TTL))] + ([Tick(0, CALM)] + [])
  }

  lemma LapseOutlived(st: State, job: Job)
    requires Untouched(st, job)
    ensures
      var at := InjectionPoint(st, job);
      && PlausibleHistory(at, Lapse(job))
      && Steps(at, Lapse(job)).effects == [Effect(job.source, job.claim, false, true)]
      && job.source in Steps(at, Lapse(job)).store.runs
      && Steps(at, Lapse(job)).store.runs[job.source].status == Cancelled
  {
    var at := InjectionPoint(st, job);
    var reconcile := Elsewhere(OpReconcile([job.source.session], LEASE_TTL));
    InjectionPointIsOrderly(st, job);
    InjectionCanOutliveItsLease(at, 0, LEASE_TTL, CALM);
    var next := Step(at, reconcile);
    Prepend(next, Tick(0, CALM), []);
    Prepend(at, reconcile, [Tick(0, CALM)] + []);
    assert [] + [Effect(job.source, job.claim, false, true)] == [Effect(job.source, job.claim, false, true)];
  }

  /** From every store whose waiting, sealed run nobody has claimed yet there is a history, with unique
      identifiers throughout, that ends with results injected into a run already cancelled. */
  lemma LeaseCanBeOutlived(st: State, job: Job)
    requires Untouched(st, job)
    ensures
      var w := World(st, map[], []);
      var es := ToInjection(job) + Lapse(job);
      && Orderly(w) && PlausibleHistory(w, es)
      && Steps(w, es).effects == [Effect(job.source, job.claim, false, true)]
      && job.source in Steps(w, es).store.runs && Steps(w, es).store.runs[job.source].status == Cancelled
  {
    InjectionPointIsOrderly(st, job);
    LapseOutlived(st, job);
    ReachesInjection(st, job);
  }
}
