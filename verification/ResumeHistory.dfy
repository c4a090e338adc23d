/**
  The theorems about whole histories of durable continuations: approved results of one waiting
  run are injected at most once, under the injecting call's own started claim or after the source
  has concluded fail-closed, and every call releases, finalizes and returns as promised.
*/
module ResumeHistory {
  import opened Basics
  import opened Store
  import opened StoreSafety
  import opened Resume
  import opened ResumeSafety

  // ---------------------------------------------------------------- plausible histories

  /** Two calls under way use different identifiers. */
  predicate Disjoint(a: Phase, b: Phase) { a.Busy() && b.Busy() ==> Apart(a.job, b.job) }

  ghost predicate DisjointFromOthers(w: World, id: nat, phase: Phase) {
    forall other :: other in w.runtimes && other != id ==>
      Disjoint(w.runtimes[other].phase, phase) && Disjoint(phase, w.runtimes[other].phase)
  }

  /** What a host brings along: a recorded, sealed source, and a continuation that has committed
      nothing and, while its lease is current, is recorded and not itself waiting.  That the lease,
      the source and the claim belong together is left to the store. */
  ghost predicate HostReady(st: State, job: Job, lease: Lease) {
    && job.source in st.runs && job.source in st.sealed && job.Target() !in st.sealed
    && (Holds(st, lease) ==> job.Target() in st.runs && !IsWaiting(st, job.Target()) && job.Target() !in st.claims)
  }

  /** Generated identifiers are unique and not guessed by anyone else, nobody overwrites the source
      of a call under way without a fence, and a call is made for a recorded source whose evidence
      is sealed.  Nothing else is assumed of a history. */
  ghost predicate Plausible(w: World, e: Event) {
    match e
    case Begin(id, job) =>
      && job.source in w.store.runs && job.source in w.store.sealed
      && job.Target() !in w.store.runs && job.Target() !in w.store.sealed && job.idempotency !in w.store.receipts
      && job.Target() !in w.store.claims && Unleased(w.store, job.Target())
      && DisjointFromOthers(w, id, Claiming(job))
    case HostBegin(id, source, claim, receipt) =>
      id in w.runtimes && w.runtimes[id].lease.Some? && w.runtimes[id].lease.value.key.session == source.session ==>
        var lease := w.runtimes[id].lease.value;
        var job := HostJob(source, claim, lease, receipt);
        HostReady(w.store, job, lease) && DisjointFromOthers(w, id, HostCrossing(job, lease))
    case Elsewhere(op) =>
      forall id :: id in w.runtimes && w.runtimes[id].phase.Busy() ==> Foreign(op, w.runtimes[id].phase.job)
    case _ => true
  }

  ghost predicate PlausibleHistory(w: World, es: seq<Event>)
    decreases |es|
  {
    es == [] || (Plausible(w, es[0]) && PlausibleHistory(Step(w, es[0]), es[1..]))
  }

  ghost predicate Orderly(w: World) {
    && (forall k :: Sound(w.store, k))
    && (forall id :: id in w.runtimes ==> PhaseInv(w.store, w.runtimes[id].phase))
    && (forall a, b :: a in w.runtimes && b in w.runtimes && a != b ==>
      Disjoint(w.runtimes[a].phase, w.runtimes[b].phase))
  }

  /** Histories may start from any store without claims. */
  lemma StartsOrderly(st: State)
    requires st.claims == map[]
    ensures Orderly(World(st, map[], [])) && AllInSession(World(st, map[], []))
  {
  }

  lemma SoundAfter(st: State, op: Op)
    requires forall k :: Sound(st, k)
    ensures forall k :: Sound(Apply(st, op).0, k)
  {
    forall k ensures Sound(Apply(st, op).0, k) {
      if Overwrites(op, k) { OverwriteKeeps(st, op, k); } else { ApplyKeeps(st, op, k); }
    }
  }

  /** The call awaited by one runtime is foreign to every other. */
  lemma PendingIsForeign(st: State, phase: Phase, p: Poll, job: Job)
    requires PhaseInv(st, phase) && PendingOp(phase, p).Some? && Apart(job, phase.job)
    ensures Foreign(PendingOp(phase, p).value, job)
  {
  }

  lemma AdvanceKeepsIdentity(rt: Runtime, reply: Reply, p: Poll)
    ensures
      var next := Advance(rt, reply, p).phase;
      next.Busy() ==> rt.phase.Busy() && next.job == rt.phase.job
  {
  }

  /** The call awaited by one runtime leaves the others as they stand. */
  lemma OthersKeepPhase(w: World, id: nat, p: Poll, other: nat)
    requires Orderly(w) && id in w.runtimes && PendingOp(w.runtimes[id].phase, p).Some? && other in w.runtimes
             && other != id
    ensures PhaseInv(Apply(w.store, PendingOp(w.runtimes[id].phase, p).value).0, w.runtimes[other].phase)
  {
    var rt, phase := w.runtimes[id], w.runtimes[other].phase;
    if phase.Busy() { PendingIsForeign(w.store, rt.phase, p, phase.job); }
    ForeignKeepsPhase(w.store, PendingOp(rt.phase, p).value, phase);
  }

  lemma TickOrderly(w: World, id: nat, p: Poll)
    requires Orderly(w) && id in w.runtimes
    ensures Orderly(Ticked(w, id, p))
  {
    var rt := w.runtimes[id];
    var next := Ticked(w, id, p);
    OwnStep(w.store, rt, p);
    assert next.store == Polled(w.store, rt, p).0 && next.runtimes[id] == Polled(w.store, rt, p).1;
    match PendingOp(rt.phase, p) {
      case None => AdvanceKeepsIdentity(rt, Done, p);
      case Some(op) =>
        AdvanceKeepsIdentity(rt, Called(w.store, op, p.fault).1, p);
        SoundAfter(w.store, op);
        forall other | other in w.runtimes && other != id
          ensures PhaseInv(next.store, w.runtimes[other].phase)
        {
          OthersKeepPhase(w, id, p, other);
        }
    }
  }

  lemma ElsewhereOrderly(w: World, op: Op)
    requires Orderly(w) && Plausible(w, Elsewhere(op))
    ensures Orderly(Step(w, Elsewhere(op)))
  {
    SoundAfter(w.store, op);
    forall id | id in w.runtimes ensures PhaseInv(Apply(w.store, op).0, w.runtimes[id].phase) {
      ForeignKeepsPhase(w.store, op, w.runtimes[id].phase);
    }
  }

  lemma StepOrderly(w: World, e: Event)
    requires Orderly(w) && Plausible(w, e)
    ensures Orderly(Step(w, e))
  {
    match e
    case Tick(id, p) => if id in w.runtimes { TickOrderly(w, id, p); }
    case Elsewhere(op) => ElsewhereOrderly(w, op);
    case _ =>
  }

  // ---------------------------------------------------------------- ownership of effects

  /** Every injection, SDK-owned or host-managed, complete or cut short by a crash, is under the call's
      own started claim and lease, or after the source has concluded: one or the other, never both
      and never neither. */
  ghost predicate EffectsAnswered(w: World) {
    forall i :: 0 <= i < |w.effects| ==> (w.effects[i].owned <==> !w.effects[i].concluded)
  }

  lemma EndAnswered(st: State, phase: Phase)
    requires PhaseInv(st, phase)
    ensures forall e :: e in EffectsOf(st, phase) ==> (e.owned <==> !e.concluded)
  {
  }

  lemma StepAnswered(w: World, e: Event)
    requires Orderly(w) && EffectsAnswered(w)
    ensures EffectsAnswered(Step(w, e))
  {
    if (e.Tick? || e.Crash?) && e.id in w.runtimes {
      EndAnswered(w.store, w.runtimes[e.id].phase);
      var more := EffectsOf(w.store, w.runtimes[e.id].phase);
      assert Step(w, e).effects == w.effects + more;
      assert forall i :: 0 <= i < |more| ==> more[i] in more;
    } else {
      assert Step(w, e).effects == w.effects;
    }
  }

  lemma {:induction false} EffectsAreOwnedOrConcluded(w: World, es: seq<Event>)
    requires Orderly(w) && EffectsAnswered(w) && PlausibleHistory(w, es)
    ensures Orderly(Steps(w, es)) && EffectsAnswered(Steps(w, es))
    decreases |es|
  {
    if es != [] {
      StepOrderly(w, es[0]);
      StepAnswered(w, es[0]);
      EffectsAreOwnedOrConcluded(Step(w, es[0]), es[1..]);
    }
  }

  // ---------------------------------------------------------------- at most one injection

  /** The runtime has crossed the effect fence of `k` and has not injected yet. */
  predicate AboutToInject(phase: Phase, k: RunKey) {
    (phase.CheckingLease? || phase.Injecting? || phase.HostInjecting?) && phase.job.source == k
  }

  function InjectionsInto(effects: seq<Effect>, k: RunKey): nat {
    if effects == [] then 0
    else InjectionsInto(effects[..|effects| - 1], k) + (if effects[|effects| - 1].source == k then 1 else 0)
  }

  ghost predicate OnlyAbout(w: World, k: RunKey, one: nat) {
    forall id :: id in w.runtimes && id != one ==> !AboutToInject(w.runtimes[id].phase, k)
  }

  ghost predicate NoneAbout(w: World, k: RunKey) {
    forall id :: id in w.runtimes ==> !AboutToInject(w.runtimes[id].phase, k)
  }

  /** Nobody has crossed the fence of `k`; or it is fenced, with its one injection spent or due. */
  ghost predicate Exclusive(w: World, k: RunKey) {
    && k in w.store.runs && k in w.store.sealed && Sound(w.store, k)
    && (|| (NoneAbout(w, k) && InjectionsInto(w.effects, k) == 0)
        || (Fenced(w.store, k) && NoneAbout(w, k) && InjectionsInto(w.effects, k) == 1)
        || (Fenced(w.store, k) && InjectionsInto(w.effects, k) == 0 && exists id :: OnlyAbout(w, k, id)))
  }

  // The only thing exclusivity needs of identifiers: idempotency keys are shared by all sessions of
  // a store, so a key of a call under way must not be used for another session.

  predicate Requesting(phase: Phase) { phase.Claiming? || phase.Acquiring? }

  /** The request, if it uses this job's idempotency key, is about this job's session. */
  predicate SameSession(op: Op, job: Job) {
    op.OpAcquire? && op.request.idempotency == job.idempotency ==> op.request.key.session == job.source.session
  }

  predicate ReceiptInSession(st: State, job: Job) {
    job.idempotency in st.receipts ==> st.receipts[job.idempotency].1.key.session == job.source.session
  }

  predicate KeysAgree(a: Phase, b: Phase) {
    Requesting(a) && Requesting(b) && a.job.idempotency == b.job.idempotency ==>
      a.job.source.session == b.job.source.session
  }

  ghost predicate Keyed(w: World, e: Event) {
    match e
    case Begin(id, job) =>
      && ReceiptInSession(w.store, job)
      && (forall other :: other in w.runtimes && other != id ==>
            KeysAgree(w.runtimes[other].phase, Claiming(job)) && KeysAgree(Claiming(job), w.runtimes[other].phase))
    case Elsewhere(op) =>
      forall id :: id in w.runtimes && Requesting(w.runtimes[id].phase) ==> SameSession(op, w.runtimes[id].phase.job)
    case _ => true
  }

  ghost predicate KeyedHistory(w: World, es: seq<Event>)
    decreases |es|
  {
    es == [] || (Keyed(w, es[0]) && KeyedHistory(Step(w, es[0]), es[1..]))
  }

  /** A call's lease is, and its receipt would be, one of its own session. */
  predicate InSession(st: State, phase: Phase) {
    && (Requesting(phase) ==> ReceiptInSession(st, phase.job))
    && (phase.CrossingFence? || phase.HostCrossing? ==> phase.lease.key.session == phase.job.source.session)
  }

  ghost predicate AllInSession(w: World) {
    && (forall id :: id in w.runtimes ==> InSession(w.store, w.runtimes[id].phase))
    && (forall a, b :: a in w.runtimes && b in w.runtimes ==> KeysAgree(w.runtimes[a].phase, w.runtimes[b].phase))
  }

  lemma ReceiptsStay(st: State, op: Op)
    requires !op.OpAcquire?
    ensures Apply(st, op).0.receipts == st.receipts
  {
    if op.OpReconcile? {
      if EvictExpired(st, op.order, op.now).Some? { EvictExpiredAddsNothing(st, op.order, op.now); }
    } else if op.OpCheckpoint? {
      CheckpointTouches(st, op.fence, op.key, op.status, op.stored, op.intact, op.now);
    }
  }

  lemma AcquireReceipts(st: State, q: Acquire, now: int)
    ensures
      var (next, reply) := AcquireAdmission(st, q, now);
      && (next.receipts == st.receipts
          || (q.idempotency !in st.receipts && exists lease: Lease ::
                lease.key == q.key && next.receipts == st.receipts[q.idempotency := (q.fingerprint, lease)]))
      && (reply.Leased? ==>
        if q.idempotency in st.receipts then reply.lease == st.receipts[q.idempotency].1 else reply.lease.key == q.key)
  {
    if q.key.session in st.admissions && Evict(st, q.key.session).Some? { EvictAddsNothing(st, q.key.session); }
    var (next, reply) := AcquireAdmission(st, q, now);
    if reply.Leased? && q.idempotency !in st.receipts {
      assert next.receipts == st.receipts[q.idempotency := (q.fingerprint, reply.lease)];
    }
  }

  lemma ReceiptKept(st: State, op: Op, job: Job)
    requires SameSession(op, job) && ReceiptInSession(st, job)
    ensures ReceiptInSession(Apply(st, op).0, job)
  {
    if op.OpAcquire? { AcquireReceipts(st, op.request, op.now); } else { ReceiptsStay(st, op); }
  }

  lemma OwnStepInSession(st: State, rt: Runtime, p: Poll)
    requires InSession(st, rt.phase)
    ensures InSession(Polled(st, rt, p).0, Polled(st, rt, p).1.phase)
  {
    if rt.phase.Claiming? {
      ReceiptKept(st, OpClaim(rt.phase.job.source, rt.phase.job.claim), rt.phase.job);
    } else if rt.phase.Acquiring? {
      AcquireReceipts(st, RequestFor(rt.phase.job, p.now), p.now);
    }
  }

  lemma AdvanceRequests(rt: Runtime, reply: Reply, p: Poll)
    ensures
      var next := Advance(rt, reply, p).phase;
      && (Requesting(next) ==> Requesting(rt.phase) && next.job == rt.phase.job)
      && (next.HostCrossing? ==> next == rt.phase)
  {
  }

  lemma TickInSession(w: World, id: nat, p: Poll)
    requires AllInSession(w) && id in w.runtimes
    ensures AllInSession(Ticked(w, id, p))
  {
    var rt, next := w.runtimes[id], Ticked(w, id, p);
    OwnStepInSession(w.store, rt, p);
    match PendingOp(rt.phase, p) {
      case None => AdvanceRequests(rt, Done, p);
      case Some(op) =>
        AdvanceRequests(rt, Called(w.store, op, p.fault).1, p);
        forall other | other in w.runtimes && other != id ensures InSession(next.store, w.runtimes[other].phase) {
          var phase := w.runtimes[other].phase;
          if Requesting(phase) {
            assert KeysAgree(rt.phase, phase);
            ReceiptKept(w.store, op, phase.job);
          }
        }
    }
  }

  lemma StepInSession(w: World, e: Event)
    requires AllInSession(w) && Keyed(w, e)
    ensures AllInSession(Step(w, e))
  {
    match e
    case Tick(id, p) => if id in w.runtimes { TickInSession(w, id, p); }
    case Elsewhere(op) =>
      forall id | id in w.runtimes ensures InSession(Apply(w.store, op).0, w.runtimes[id].phase) {
        if Requesting(w.runtimes[id].phase) { ReceiptKept(w.store, op, w.runtimes[id].phase.job); }
      }
    case _ =>
  }

  lemma StartNeedsOpenFence(st: State, lease: Lease, k: RunKey, claim: Token, now: int)
    requires Sound(st, k) && k in st.sealed && lease.key.session == k.session
    requires StartEffect(st, lease, k.run, claim, now).1.Done?
    ensures !Fenced(st, k) && Fenced(StartEffect(st, lease, k.run, claim, now).0, k)
  {
  }

  /** A call gets about to inject only by crossing the fence, and injecting ends it. */
  lemma AdvanceTowardsInjection(rt: Runtime, reply: Reply, p: Poll, k: RunKey)
    ensures AboutToInject(Advance(rt, reply, p).phase, k) ==>
      || (rt.phase.CheckingLease? && rt.phase.job.source == k)
      || (rt.phase.CrossingFence? && rt.phase.job.source == k && reply.Done?)
      || (rt.phase.HostCrossing? && rt.phase.job.source == k && reply.Done?)
  {
  }

  lemma EffectCounts(st: State, effects: seq<Effect>, phase: Phase, k: RunKey)
    ensures InjectionsInto(effects + EffectsOf(st, phase), k) ==
      InjectionsInto(effects, k) + (if !phase.CheckingLease? && AboutToInject(phase, k) then 1 else 0)
  {
    var all := effects + EffectsOf(st, phase);
    if EffectsOf(st, phase) == [] {
      assert all == effects;
    } else {
      assert all[..|all| - 1] == effects;
    }
  }

  lemma StillOnlyAbout(w: World, id: nat, p: Poll, k: RunKey, one: nat)
    requires OnlyAbout(w, k, one) && id in w.runtimes
    requires AboutToInject(Ticked(w, id, p).runtimes[id].phase, k) ==> AboutToInject(w.runtimes[id].phase, k)
    ensures OnlyAbout(Ticked(w, id, p), k, one)
  {
  }

  /** The one call that is about to inject does so, and nobody is about to any more. */
  lemma InjectionSpends(w: World, next: World, id: nat, k: RunKey)
    requires Exclusive(w, k) && id in w.runtimes && AboutToInject(w.runtimes[id].phase, k)
    requires next.store == w.store && InjectionsInto(next.effects, k) == InjectionsInto(w.effects, k) + 1
    requires forall other :: other in next.runtimes && other != id ==>
      other in w.runtimes && next.runtimes[other] == w.runtimes[other]
    requires id in next.runtimes ==> !AboutToInject(next.runtimes[id].phase, k)
    ensures Exclusive(next, k)
  {
    assert !NoneAbout(w, k);
    var one :| OnlyAbout(w, k, one);
    assert one == id;
  }

  lemma QuietTickExclusive(w: World, id: nat, p: Poll, k: RunKey)
    requires Exclusive(w, k) && id in w.runtimes && PendingOp(w.runtimes[id].phase, p).None?
    ensures Exclusive(Ticked(w, id, p), k)
  {
    var phase := w.runtimes[id].phase;
    var next := Ticked(w, id, p);
    if AboutToInject(phase, k) && !phase.CheckingLease? {
      AdvanceTowardsInjection(w.runtimes[id], Done, p, k);
      EffectCounts(w.store, w.effects, phase, k);
      InjectionSpends(w, next, id, k);
    } else {
      AdvanceTowardsInjection(w.runtimes[id], Done, p, k);
      EffectCounts(w.store, w.effects, phase, k);
      assert NoneAbout(w, k) ==> NoneAbout(next, k);
      if exists one :: OnlyAbout(w, k, one) {
        var one :| OnlyAbout(w, k, one);
        StillOnlyAbout(w, id, p, k, one);
      }
    }
  }

  /** A call that crosses the fence of `k` finds it open and shuts it. */
  lemma CrossingIsFirst(st: State, rt: Runtime, p: Poll, k: RunKey)
    requires Sound(st, k) && k in st.sealed && InSession(st, rt.phase)
    requires PendingOp(rt.phase, p).Some? && AboutToInject(Polled(st, rt, p).1.phase, k)
    ensures !Fenced(st, k) && Fenced(Polled(st, rt, p).0, k)
  {
    StartNeedsOpenFence(st, rt.phase.lease, k, rt.phase.job.claim, p.now);
  }

  lemma CallTickExclusive(w: World, id: nat, p: Poll, k: RunKey)
    requires AllInSession(w) && Exclusive(w, k) && id in w.runtimes && PendingOp(w.runtimes[id].phase, p).Some?
    ensures Exclusive(Ticked(w, id, p), k)
  {
    var rt := w.runtimes[id];
    var next := Ticked(w, id, p);
    var op := PendingOp(rt.phase, p).value;
    assert next.effects == w.effects;
    ApplyKeeps(w.store, op, k);
    AdvanceTowardsInjection(rt, Called(w.store, op, p.fault).1, p, k);
    if AboutToInject(next.runtimes[id].phase, k) {
      CrossingIsFirst(w.store, rt, p, k);
      assert OnlyAbout(next, k, id);
    } else if exists one :: OnlyAbout(w, k, one) {
      var one :| OnlyAbout(w, k, one);
      StillOnlyAbout(w, id, p, k, one);
    }
  }

  /** The event does not overwrite the record of `k` without a fence. */
  predicate Spares(e: Event, k: RunKey) { e.Elsewhere? ==> !Overwrites(e.op, k) }

  ghost predicate AllSpare(es: seq<Event>, k: RunKey) { forall i :: 0 <= i < |es| ==> Spares(es[i], k) }

  /** An injection cut short by a crash is spent. */
  lemma CrashExclusive(w: World, id: nat, k: RunKey)
    requires Exclusive(w, k) && id in w.runtimes
    ensures Exclusive(Crashed(w, id), k)
  {
    var phase := w.runtimes[id].phase;
    var next := Crashed(w, id);
    EffectCounts(w.store, w.effects, phase, k);
    if AboutToInject(phase, k) && !phase.CheckingLease? {
      InjectionSpends(w, next, id, k);
    } else if exists one :: OnlyAbout(w, k, one) {
      var one :| OnlyAbout(w, k, one);
      assert OnlyAbout(next, k, one);
    }
  }

  lemma StepExclusive(w: World, e: Event, k: RunKey)
    requires AllInSession(w) && Exclusive(w, k) && Spares(e, k)
    ensures Exclusive(Step(w, e), k)
  {
    var next := Step(w, e);
    if e.Tick? {
      if e.id in w.runtimes {
        if PendingOp(w.runtimes[e.id].phase, e.poll).None? {
          QuietTickExclusive(w, e.id, e.poll, k);
        } else {
          CallTickExclusive(w, e.id, e.poll, k);
        }
      }
    } else if e.Crash? {
      if e.id in w.runtimes { CrashExclusive(w, e.id, k); }
    } else {
      if e.Elsewhere? { ApplyKeeps(w.store, e.op, k); }
      if exists one :: OnlyAbout(w, k, one) {
        var one :| OnlyAbout(w, k, one);
        assert OnlyAbout(next, k, one);
      }
    }
  }

  lemma {:induction false} AlwaysExclusive(w: World, es: seq<Event>, k: RunKey)
    requires AllInSession(w) && Exclusive(w, k) && KeyedHistory(w, es) && AllSpare(es, k)
    ensures Exclusive(Steps(w, es), k)
    decreases |es|
  {
    if es != [] {
      StepInSession(w, es[0]);
      StepExclusive(w, es[0], k);
      AlwaysExclusive(Step(w, es[0]), es[1..], k);
    }
  }

  /** For any number of runtimes, SDK-owned or host-managed, with or without shared claims and
      leases, any interleaving, any crash, lost reply or lease expiry: one waiting run's approved
      results are injected at most once, an injection cut short by a crash included, as long as
      nobody overwrites that run's record without a fence.  Injections still under way count: there
      is never more than one, and none once the results have been injected, after which no claim on
      that run can cross the fence again. */
  lemma InjectedAtMostOnce(w: World, es: seq<Event>, k: RunKey)
    requires AllInSession(w) && KeyedHistory(w, es) && AllSpare(es, k)
    requires k in w.store.runs && k in w.store.sealed && Sound(w.store, k)
    requires NoneAbout(w, k) && InjectionsInto(w.effects, k) == 0
    ensures InjectionsInto(Steps(w, es).effects, k) <= 1
    ensures InjectionsInto(Steps(w, es).effects, k) == 1 ==> Fenced(Steps(w, es).store, k) && NoneAbout(Steps(w, es), k)
    ensures forall a, b :: a in Steps(w, es).runtimes && b in Steps(w, es).runtimes && a != b ==>
      !AboutToInject(Steps(w, es).runtimes[a].phase, k) || !AboutToInject(Steps(w, es).runtimes[b].phase, k)
  {
    AlwaysExclusive(w, es, k);
  }

  /** Histories of unique identifiers are among those. */
  lemma {:induction false} PlausibleIsKeyed(w: World, es: seq<Event>)
    requires Orderly(w) && PlausibleHistory(w, es)
    ensures KeyedHistory(w, es)
    decreases |es|
  {
    if es != [] {
      StepOrderly(w, es[0]);
      PlausibleIsKeyed(Step(w, es[0]), es[1..]);
    }
  }
}
