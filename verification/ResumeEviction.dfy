/**
  What decides, over a whole history, whether results are injected under the call's own claim: the
  eviction of the session's expired admission between the effect fence and the end of the injection.
*/
module ResumeEviction {
  import opened Basics
  import opened Store
  import opened Resume
  import opened ResumeSafety
  import opened ResumeHistory

  // ---------------------------------------------------------------- one operation

  /** The operation takes the session's admission away because its lease has expired: it reconciles
      that session, or it admits another run there. */
  predicate Evicts(st: State, op: Op, s: SessionId) {
    && s in st.admissions
    && match op
       case OpReconcile(order, now) =>
         s in order && st.admissions[s].ExpiredAt(now) && EvictExpired(st, order, now).Some?
       case OpAcquire(q, now) =>
         && q.key.session == s && st.admissions[s].ExpiredAt(now)
         && q.idempotency !in st.receipts && AcquireAdmission(st, q, now).1.Leased?
       case _ => false
  }

  lemma EvictTouches(st: State, s: SessionId)
    requires s in st.admissions && Evict(st, s).Some?
    ensures Evict(st, s).value.admissions == st.admissions - {s}
  {
  }

  lemma {:induction false} ReconcileEmpties(st: State, order: seq<SessionId>, now: int, s: SessionId)
    requires EvictExpired(st, order, now).Some? && s in st.admissions
    ensures
      var next := EvictExpired(st, order, now).value;
      if s in order && st.admissions[s].ExpiredAt(now) then s !in next.admissions
      else s in next.admissions && next.admissions[s] == st.admissions[s]
    decreases |order|
  {
    if order == [] {
    } else if order[0] in st.admissions && st.admissions[order[0]].ExpiredAt(now) {
      var mid := Evict(st, order[0]).value;
      EvictTouches(st, order[0]);
      if order[0] == s {
        EvictExpiredAddsNothing(mid, order[1..], now);
      } else {
        ReconcileEmpties(mid, order[1..], now, s);
      }
    } else {
      ReconcileEmpties(st, order[1..], now, s);
    }
  }

  lemma AcquireTakes(st: State, q: Acquire, now: int, lease: Lease)
    requires Holds(st, lease) && q.admission != lease.admission
    ensures Holds(AcquireAdmission(st, q, now).0, lease) <==> !Evicts(st, OpAcquire(q, now), lease.key.session)
  {
    if q.key.session in st.admissions && Evict(st, q.key.session).Some? { EvictTouches(st, q.key.session); }
  }

  lemma LeasedOpsKeepSlot(st: State, op: Op, lease: Lease)
    requires Holds(st, lease)
    requires op.OpStart? || op.OpAbort? || op.OpUpdateStatus? || op.OpCommit?
    ensures Holds(Apply(st, op).0, lease)
  {
  }

  lemma SlotOpsKeepSlot(st: State, op: Op, job: Job, lease: Lease)
    requires Holds(st, lease) && Fits(job, lease) && Foreign(op, job)
    requires op.OpHeartbeat? || op.OpFinalize? || op.OpReleaseAdmission?
    ensures Holds(Apply(st, op).0, lease)
  {
  }

  lemma OtherOpsKeepSlot(st: State, op: Op, lease: Lease)
    requires Holds(st, lease)
    requires op.OpClaim? || op.OpRelease? || op.OpLoad? || op.OpMark? || op.OpSaveSession? || op.OpAppendRun?
             || op.OpSetStatus?
    ensures Holds(Apply(st, op).0, lease)
  {
  }

  /** A foreign operation takes a held lease away if and only if it evicts it. */
  lemma LostExactlyByEviction(st: State, op: Op, job: Job, lease: Lease)
    requires Holds(st, lease) && Fits(job, lease) && Foreign(op, job)
    ensures Holds(Apply(st, op).0, lease) <==> !Evicts(st, op, lease.key.session)
  {
    if op.OpReconcile? {
      if EvictExpired(st, op.order, op.now).Some? { ReconcileEmpties(st, op.order, op.now, lease.key.session); }
    } else if op.OpAcquire? {
      AcquireTakes(st, op.request, op.now, lease);
    } else if op.OpCheckpoint? {
      CheckpointTouches(st, op.fence, op.key, op.status, op.stored, op.intact, op.now);
    } else if op.OpHeartbeat? || op.OpFinalize? || op.OpReleaseAdmission? {
      SlotOpsKeepSlot(st, op, job, lease);
    } else if op.OpStart? || op.OpAbort? || op.OpUpdateStatus? || op.OpCommit? {
      LeasedOpsKeepSlot(st, op, lease);
    } else {
      OtherOpsKeepSlot(st, op, lease);
    }
  }

  // ---------------------------------------------------------------- one event

  /** The store operation that an event applies, if any. */
  function AppliedOp(w: World, e: Event): Option<Op> {
    match e
    case Tick(id, p) => if id in w.runtimes && p.fault != Dropped then PendingOp(w.runtimes[id].phase, p) else None
    case Elsewhere(op) => Some(op)
    case _ => None
  }

  predicate EvictsBy(w: World, e: Event, s: SessionId) {
    AppliedOp(w, e).Some? && Evicts(w.store, AppliedOp(w, e).value, s)
  }

  lemma EventApplies(w: World, e: Event)
    ensures Step(w, e).store == if AppliedOp(w, e).Some? then Apply(w.store, AppliedOp(w, e).value).0 else w.store
  {
  }

  /** Past the fence, with the injection still to come or under way. */
  predicate Crossed(phase: Phase) { phase.CheckingLease? || phase.Injecting? || phase.HostInjecting? }

  ghost predicate IsCrossed(w: World, id: nat, job: Job, lease: Lease) {
    && id in w.runtimes && Crossed(w.runtimes[id].phase)
    && w.runtimes[id].phase.job == job && w.runtimes[id].phase.lease == lease
  }

  lemma CrossedStays(w: World, e: Event, id: nat, job: Job, lease: Lease)
    requires IsCrossed(w, id, job, lease) && id in Step(w, e).runtimes && Crossed(Step(w, e).runtimes[id].phase)
    ensures IsCrossed(Step(w, e), id, job, lease)
  {
  }

  /** No event between fence and injection comes from the call itself, unless it is without a store call. */
  lemma AppliedIsForeign(w: World, e: Event, id: nat, job: Job, lease: Lease)
    requires Orderly(w) && Plausible(w, e) && IsCrossed(w, id, job, lease) && AppliedOp(w, e).Some?
    ensures Foreign(AppliedOp(w, e).value, job)
  {
    if e.Tick? {
      assert e.id != id;
      assert Disjoint(w.runtimes[id].phase, w.runtimes[e.id].phase);
      PendingIsForeign(w.store, w.runtimes[e.id].phase, e.poll, job);
    }
  }

  lemma StepHolds(w: World, e: Event, id: nat, job: Job, lease: Lease)
    requires Orderly(w) && Plausible(w, e) && IsCrossed(w, id, job, lease)
    ensures Holds(Step(w, e).store, lease) <==> Holds(w.store, lease) && !EvictsBy(w, e, lease.key.session)
  {
    EventApplies(w, e);
    assert PhaseInv(w.store, w.runtimes[id].phase);
    if AppliedOp(w, e).Some? {
      AppliedIsForeign(w, e, id, job, lease);
      if Holds(w.store, lease) {
        LostExactlyByEviction(w.store, AppliedOp(w, e).value, job, lease);
      } else {
        GrantsNothing(w.store, AppliedOp(w, e).value, lease);
      }
    }
  }

  // ---------------------------------------------------------------- the stretch between fence and injection

  /** All along the history the runtime stays between its fence and the end of its injection. */
  ghost predicate StaysCrossed(w: World, es: seq<Event>, id: nat)
    decreases |es|
  {
    && id in w.runtimes && Crossed(w.runtimes[id].phase)
    && (es != [] ==> StaysCrossed(Step(w, es[0]), es[1..], id))
  }

  ghost predicate EvictedDuring(w: World, es: seq<Event>, s: SessionId)
    decreases |es|
  {
    es != [] && (EvictsBy(w, es[0], s) || EvictedDuring(Step(w, es[0]), es[1..], s))
  }

  lemma {:induction false} HeldUnlessEvicted(w: World, es: seq<Event>, id: nat, job: Job, lease: Lease)
    requires Orderly(w) && PlausibleHistory(w, es) && StaysCrossed(w, es, id) && IsCrossed(w, id, job, lease)
    ensures Orderly(Steps(w, es)) && IsCrossed(Steps(w, es), id, job, lease)
    ensures Holds(Steps(w, es).store, lease) <==> Holds(w.store, lease) && !EvictedDuring(w, es, lease.key.session)
    decreases |es|
  {
    if es != [] {
      StepOrderly(w, es[0]);
      StepHolds(w, es[0], id, job, lease);
      CrossedStays(w, es[0], id, job, lease);
      HeldUnlessEvicted(Step(w, es[0]), es[1..], id, job, lease);
    }
  }

  /** The step that crosses the fence is taken with a live lease. */
  lemma CrossingHolds(w: World, id: nat, p: Poll)
    requires id in w.runtimes && !Crossed(w.runtimes[id].phase) && Crossed(Ticked(w, id, p).runtimes[id].phase)
    ensures Holds(Ticked(w, id, p).store, Ticked(w, id, p).runtimes[id].phase.lease)
  {
  }

  ghost predicate Injects(w: World, id: nat) {
    id in w.runtimes && (w.runtimes[id].phase.Injecting? || w.runtimes[id].phase.HostInjecting?)
  }

  lemma OwnedWhileHeld(st: State, phase: Phase)
    requires PhaseInv(st, phase) && (phase.Injecting? || phase.HostInjecting?)
    ensures EffectsOf(st, phase) == [EffectOf(st, phase.job, phase.lease)]
    ensures EffectOf(st, phase.job, phase.lease).owned <==> Holds(st, phase.lease)
  {
  }

  /** From the step that crosses the fence to the step or crash that ends the injection: the
      injection is not the call's own if and only if an eviction of the session's expired admission
      lies in between. */
  lemma UnownedExactlyWhenEvicted(w: World, id: nat, p: Poll, es: seq<Event>)
    requires Orderly(w) && id in w.runtimes && !Crossed(w.runtimes[id].phase)
    requires PlausibleHistory(Ticked(w, id, p), es) && StaysCrossed(Ticked(w, id, p), es, id)
    requires Injects(Steps(Ticked(w, id, p), es), id)
    ensures
      var at := Ticked(w, id, p);
      var end := Steps(at, es);
      var phase := end.runtimes[id].phase;
      && |EffectsOf(end.store, phase)| == 1
      && (!EffectsOf(end.store, phase)[0].owned <==> EvictedDuring(at, es, phase.lease.key.session))
  {
    var at := Ticked(w, id, p);
    var phase := at.runtimes[id].phase;
    StepOrderly(w, Tick(id, p));
    CrossingHolds(w, id, p);
    HeldUnlessEvicted(at, es, id, phase.job, phase.lease);
    var end := Steps(at, es);
    OwnedWhileHeld(end.store, end.runtimes[id].phase);
  }
}
