/**
  The life cycle of one call, on every path and under every fault: when a claim may be released,
  when an admission may be finalized, and what the runtime still holds on return.
*/
module ResumeCalls {
  import opened Basics
  import opened Store
  import opened StoreSafety
  import opened Resume
  import opened ResumeSafety
  import opened ResumeHistory

  // ---------------------------------------------------------------- trails

  /** What a call must have done, in order, to stand in a given phase. */
  function Expected(phase: Phase): seq<Note> {
    match phase
    case Idle => []
    case Claiming(_) => []
    case Acquiring(_) => [Claimed]
    case Releasing(_) => [Claimed, Refused]
    case CrossingFence(_, _) => [Claimed, AdmissionTaken]
    case Aborting(_, _) => [Claimed, AdmissionTaken, StartFailed]
    case CheckingLease(_, _) => [Claimed, AdmissionTaken, FenceCrossed]
    case Injecting(_, _) => [Claimed, AdmissionTaken, FenceCrossed]
    case Streaming(job, _) => PastFence(job)
    case Persisting(job, _, cause) => BeforePersist(job, cause)
    case Loading(job, _, cause) => BeforePersist(job, cause) + [Persisted(cause)]
    case Finalizing(job, _, cause, _) => BeforePersist(job, cause) + [Persisted(cause)]
    case HostCrossing(_, _) => []
    case HostInjecting(_, _) => [FenceCrossed]
  }

  function PastFence(job: Job): seq<Note> {
    [Claimed, AdmissionTaken, FenceCrossed] + (if job.hasResults then [InjectedResults] else [])
  }

  function BeforePersist(job: Job, cause: Cause): seq<Note> {
    match cause
    case BeforeEffect => [Claimed, AdmissionTaken, StartFailed]
    case Indeterminate => [Claimed, AdmissionTaken, StartFailed, EffectSeen]
    case InjectionFailure => [Claimed, AdmissionTaken, FenceCrossed, InjectionFailed]
    case _ => PastFence(job)
  }

  function Persisted(cause: Cause): Note {
    if cause.BeforeEffect? then AbortConfirmed
    else if cause.StreamFailure? && !cause.identified then Unrecorded
    else Committed
  }

  predicate EndsWith(t: seq<Note>, n: Note) { t != [] && t[|t| - 1] == n }

  /** What must have happened before a note may be made. */
  predicate Allowed(before: seq<Note>, note: Note) {
    && Released !in before && AdmissionFinalized !in before
    && match note
       // A release is asked for only when the request for admission brought no lease.
       case Released => EndsWith(before, Refused) && AdmissionTaken !in before
       // The fence is crossed right after an admission, never after an abort.
       case FenceCrossed => before == [] || EndsWith(before, AdmissionTaken)
       // Results are injected only right after the fence was crossed.
       case InjectedResults => EndsWith(before, FenceCrossed)
       case InjectionFailed => EndsWith(before, FenceCrossed)
       // An abort is confirmed only while no effect can have run.
       case AbortConfirmed => EndsWith(before, StartFailed) && FenceCrossed !in before
       // An admission is finalized only right after an abort before effect or a fenced commit, or
       // after a stream failure that left nothing to record.
       case AdmissionFinalized =>
         EndsWith(before, AbortConfirmed) || EndsWith(before, Committed) || EndsWith(before, Unrecorded)
       case _ => AbortConfirmed !in before
  }

  predicate Lawful(t: seq<Note>) {
    forall i :: 0 <= i < |t| ==> Allowed(t[..i], t[i])
  }

  lemma LawfulSnoc(t: seq<Note>, note: Note)
    requires Lawful(t) && Allowed(t, note)
    ensures Lawful(t + [note])
  {
    var u := t + [note];
    forall i | 0 <= i < |u| ensures Allowed(u[..i], u[i]) {
      assert u[..i] == t[..i];
      assert i == |t| ==> t[..i] == t;
    }
  }

  /** Nothing of a finished call is left behind, except by a call that got stuck after its lease
      was installed. */
  predicate CleanOnReturn(rt: Runtime) {
    && (rt.lease.None? ==> rt.runId.None?)
    && (rt.last == ReturnedResult || rt.last == InjectionError || rt.last == StreamError || rt.last == StartError
        || rt.last == ClaimRefused || rt.last == AdmissionRefused || rt.last == LeaseLost || rt.last == PhaseUnknown
        ==> rt.lease.None? && rt.runId.None?)
  }

  /** The lease and identity a call carries while it is under way. */
  predicate Carries(rt: Runtime) {
    match rt.phase
    case Idle => CleanOnReturn(rt)
    case Injecting(job, lease) => job.hasResults && rt.lease == Some(lease) && rt.runId.None?
    case Streaming(_, lease) => rt.lease == Some(lease) && rt.runId.None?
    case Persisting(job, lease, cause) =>
      !cause.BeforeEffect? && rt.lease == Some(lease) && rt.runId == Some(job.continuation)
    case Loading(job, lease, cause) =>
      if cause.BeforeEffect? then rt.lease.None? && rt.runId.None?
      else rt.lease == Some(lease) && rt.runId == Some(job.continuation)
    case Finalizing(job, lease, cause, _) =>
      if cause.BeforeEffect? then rt.lease.None? && rt.runId.None?
      else rt.lease == Some(lease) && rt.runId == Some(job.continuation)
    case HostCrossing(_, _) => rt.lease.Some?
    case HostInjecting(_, _) => rt.lease.Some?
    case _ => rt.lease.None? && rt.runId.None?
  }

  predicate Regular(rt: Runtime) {
    && (!rt.phase.Idle? ==> rt.trail == Expected(rt.phase))
    && Lawful(rt.trail)
    && Carries(rt)
  }

  /** The note, if any, that one poll adds to the trail. */
  function NoteOf(rt: Runtime, reply: Reply, p: Poll): seq<Note> {
    var next := Advance(rt, reply, p).trail;
    if |next| == |rt.trail| + 1 then [next[|rt.trail|]] else []
  }

  lemma AdvanceNotes(rt: Runtime, reply: Reply, p: Poll)
    ensures Advance(rt, reply, p).trail == rt.trail + NoteOf(rt, reply, p)
  {
  }

  lemma AllowedBeforeFence(rt: Runtime, reply: Reply, p: Poll)
    requires rt.phase.Claiming? || rt.phase.Acquiring? || rt.phase.Releasing? || rt.phase.CrossingFence?
             || rt.phase.Aborting?
             || rt.phase.HostCrossing? || rt.phase.HostInjecting?
    requires rt.trail == Expected(rt.phase) && NoteOf(rt, reply, p) != []
    ensures Allowed(rt.trail, NoteOf(rt, reply, p)[0])
  {
  }

  lemma AllowedPastFence(rt: Runtime, reply: Reply, p: Poll)
    requires rt.phase.CheckingLease? || rt.phase.Injecting? || rt.phase.Streaming? || rt.phase.Persisting?
    requires rt.trail == Expected(rt.phase) && Carries(rt) && NoteOf(rt, reply, p) != []
    ensures Allowed(rt.trail, NoteOf(rt, reply, p)[0])
  {
  }

  lemma AllowedToFinalize(rt: Runtime, reply: Reply, p: Poll)
    requires rt.phase.Loading? || rt.phase.Finalizing?
    requires rt.trail == Expected(rt.phase) && NoteOf(rt, reply, p) != []
    ensures Allowed(rt.trail, NoteOf(rt, reply, p)[0])
  {
    assert rt.trail[|rt.trail| - 1] == Persisted(rt.phase.cause);
  }

  lemma AdvanceExpected(rt: Runtime, reply: Reply, p: Poll)
    requires rt.trail == Expected(rt.phase) && Carries(rt)
    ensures !Advance(rt, reply, p).phase.Idle? ==> Advance(rt, reply, p).trail == Expected(Advance(rt, reply, p).phase)
  {
    assert rt.trail + [] == rt.trail;
    if rt.phase.Injecting? {
      assert Expected(rt.phase) + [InjectedResults] == [Claimed, AdmissionTaken, FenceCrossed, InjectedResults];
    }
  }

  lemma AdvanceCarries(rt: Runtime, reply: Reply, p: Poll)
    requires Carries(rt)
    ensures Carries(Advance(rt, reply, p))
  {
  }

  lemma NoteAllowed(rt: Runtime, reply: Reply, p: Poll)
    requires !rt.phase.Idle? && rt.trail == Expected(rt.phase) && Carries(rt) && NoteOf(rt, reply, p) != []
    ensures Allowed(rt.trail, NoteOf(rt, reply, p)[0])
  {
    if rt.phase.Loading? || rt.phase.Finalizing? {
      AllowedToFinalize(rt, reply, p);
    } else if rt.phase.CheckingLease? || rt.phase.Injecting? || rt.phase.Streaming? || rt.phase.Persisting? {
      AllowedPastFence(rt, reply, p);
    } else {
      AllowedBeforeFence(rt, reply, p);
    }
  }

  lemma TrailGrows(t: seq<Note>, notes: seq<Note>, u: seq<Note>)
    requires Lawful(t) && u == t + notes && |notes| <= 1 && (notes != [] ==> Allowed(t, notes[0]))
    ensures Lawful(u)
  {
    if notes != [] {
      LawfulSnoc(t, notes[0]);
      assert notes == [notes[0]];
    } else {
      assert u == t;
    }
  }

  lemma AdvanceRegular(rt: Runtime, reply: Reply, p: Poll)
    requires Regular(rt)
    ensures Regular(Advance(rt, reply, p))
  {
    AdvanceCarries(rt, reply, p);
    if !rt.phase.Idle? {
      AdvanceExpected(rt, reply, p);
      AdvanceNotes(rt, reply, p);
      var notes := NoteOf(rt, reply, p);
      if notes != [] { NoteAllowed(rt, reply, p); }
      TrailGrows(rt.trail, notes, Advance(rt, reply, p).trail);
    }
  }

  ghost predicate AllRegular(w: World) {
    forall id :: id in w.runtimes ==> Regular(w.runtimes[id])
  }

  /** Over every history whatsoever, each call obeys the trail laws and each returned call has
      dropped its lease and continuation id unless it got stuck. */
  lemma {:induction false} CallsAreRegular(w: World, es: seq<Event>)
    requires AllRegular(w)
    ensures AllRegular(Steps(w, es))
    decreases |es|
  {
    if es != [] {
      var e := es[0];
      if e.Tick? && e.id in w.runtimes {
        var rt := w.runtimes[e.id];
        match PendingOp(rt.phase, e.poll) {
          case Some(op) => AdvanceRegular(rt, Called(w.store, op, e.poll.fault).1, e.poll);
          case None => AdvanceRegular(rt, Done, e.poll);
        }
      }
      CallsAreRegular(Step(w, e), es[1..]);
    }
  }

  // ---------------------------------------------------------------- what the store did

  /** A release takes a claim away only while no continuation has been admitted. */
  predicate ReleasesUnadmitted(a: State, b: State, job: Job) {
    a == b
    || (&& job.Target() !in b.runs && Unleased(b, job.Target())
        && job.source in a.claims && a.claims[job.source] == Claim(job.claim, Preflight)
        && b == a.(claims := a.claims - {job.source}))
  }

  lemma ReleaseStep(st: State, rt: Runtime, p: Poll)
    requires rt.phase.Releasing? && Unadmitted(st, rt.phase.job)
    ensures ReleasesUnadmitted(st, Polled(st, rt, p).0, rt.phase.job)
  {
  }

  /** A trail says what a call heard; these say what became of the tables.  Whatever the admission
      request did and however its reply was lost, a release takes a claim away only while no
      continuation has been admitted, and otherwise changes nothing. */
  lemma ReleaseMeansUnadmitted(w: World, es: seq<Event>, id: nat, p: Poll)
    requires Orderly(w) && EffectsAnswered(w) && PlausibleHistory(w, es)
    requires id in Steps(w, es).runtimes && Steps(w, es).runtimes[id].phase.Releasing?
    ensures var at := Steps(w, es); ReleasesUnadmitted(at.store, Ticked(at, id, p).store, at.runtimes[id].phase.job)
  {
    EffectsAreOwnedOrConcluded(w, es);
    var at := Steps(w, es);
    assert PhaseInv(at.store, at.runtimes[id].phase);
    ReleaseStep(at.store, at.runtimes[id], p);
  }

  predicate Answers(outcome: Outcome) {
    outcome == ReturnedResult || outcome == InjectionError || outcome == StreamError
  }

  /** After an abort the call's claim is gone, in every other case its source has concluded. */
  predicate Earned(st: State, job: Job, cause: Cause) {
    if cause.BeforeEffect? then ClaimGone(st, job) else Concluded(st, job.source)
  }

  lemma FinalizeLeavesClaims(st: State, lease: Lease, terminal: Projection, now: int)
    ensures Finalize(st, lease, terminal, now).0.claims == st.claims
  {
  }

  lemma FinalizeStep(st: State, rt: Runtime, p: Poll)
    requires PhaseInv(st, rt.phase) && rt.phase.Finalizing?
    ensures Earned(st, rt.phase.job, rt.phase.cause) && Earned(Polled(st, rt, p).0, rt.phase.job, rt.phase.cause)
  {
    var Finalizing(job, lease, cause, terminal) := rt.phase;
    if cause.BeforeEffect? {
      FinalizeLeavesClaims(st, lease, terminal, p.now);
    } else {
      ApplyKeeps(st, OpFinalize(lease, terminal, p.now), job.source);
    }
  }

  /** A call finalizes its admission only when nothing of its own is left open. */
  lemma FinalizationIsEarned(w: World, es: seq<Event>, id: nat, p: Poll)
    requires Orderly(w) && EffectsAnswered(w) && PlausibleHistory(w, es)
    requires id in Steps(w, es).runtimes && Steps(w, es).runtimes[id].phase.Finalizing?
    ensures
      var at := Steps(w, es);
      var phase := at.runtimes[id].phase;
      Earned(at.store, phase.job, phase.cause) && Earned(Ticked(at, id, p).store, phase.job, phase.cause)
  {
    EffectsAreOwnedOrConcluded(w, es);
    var at := Steps(w, es);
    assert PhaseInv(at.store, at.runtimes[id].phase);
    FinalizeStep(at.store, at.runtimes[id], p);
  }

  lemma AnswersOnlyFinalizing(st: State, rt: Runtime, p: Poll)
    requires rt.phase.Busy() && Polled(st, rt, p).1.phase.Idle? && Answers(Polled(st, rt, p).1.last)
    ensures rt.phase.Finalizing? && !rt.phase.cause.BeforeEffect?
  {
  }

  /** The step on which a call returns a result, an injection error or a stream error leaves a
      concluded source behind and nothing on the runtime. */
  lemma AnswerMeansConcluded(w: World, es: seq<Event>, id: nat, p: Poll)
    requires Orderly(w) && EffectsAnswered(w) && PlausibleHistory(w, es)
    requires id in Steps(w, es).runtimes && Steps(w, es).runtimes[id].phase.Busy()
    requires Ticked(Steps(w, es), id, p).runtimes[id].phase.Idle?
             && Answers(Ticked(Steps(w, es), id, p).runtimes[id].last)
    ensures
      var at := Steps(w, es);
      var next := Ticked(at, id, p);
      && Concluded(next.store, at.runtimes[id].phase.job.source)
      && next.runtimes[id].lease.None? && next.runtimes[id].runId.None?
  {
    var at := Steps(w, es);
    AnswersOnlyFinalizing(at.store, at.runtimes[id], p);
    FinalizationIsEarned(w, es, id, p);
  }
}
