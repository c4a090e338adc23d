/**
  Exclusivity and ownership of injected effects, over every history of any number of runtimes,
  crashes, lost replies, lease expiries and foreign store clients.
*/
module ResumeSafety {
  import opened Basics
  import opened Store
  import opened StoreSafety
  import opened Resume

  // ---------------------------------------------------------------- private identifiers

  /** The operation carries none of the identifiers generated for `job`, and does not overwrite its
      source.  Renewing a lease only moves its expiry and a fenced checkpoint leaves a recorded run
      as it is, so both are unrestricted: the call's own heartbeat and stream may issue them. */
  predicate Foreign(op: Op, job: Job) {
    match op
    case OpClaim(_, claim) => claim != job.claim
    case OpRelease(_, claim) => claim != job.claim
    case OpAcquire(q, _) =>
      q.key != job.Target() && q.admission != job.admission && q.idempotency != job.idempotency
        && q.claim != Some(job.claim)
    case OpStart(lease, _, claim, _) => lease.admission != job.admission && claim != job.claim
    case OpAbort(lease, _, claim, _, _) => lease.admission != job.admission && claim != job.claim
    case OpUpdateStatus(lease, _, _, _) => lease.admission != job.admission
    case OpFinalize(lease, _, _) => lease.admission != job.admission
    case OpReleaseAdmission(lease, _) => lease.admission != job.admission
    case OpCommit(fence, c, _) =>
      && (fence.Some? ==> fence.value.admission != job.admission)
      && c.key != job.Target()
      && (c.related.Some? ==> c.related.value.claim != Some(job.claim))
    case OpCheckpoint(fence, key, _, _, _, _) => fence.Some? || key != job.Target()
    case OpMark(_, claim) => claim != job.claim
    case OpAppendRun(key, _) => key != job.source && key != job.Target()
    case OpSetStatus(key, _, _) => key != job.source && key != job.Target()
    case _ => true
  }

  predicate Apart(a: Job, b: Job) {
    a.claim != b.claim && a.admission != b.admission && a.Target() != b.Target() && a.idempotency != b.idempotency
  }

  predicate Fits(job: Job, lease: Lease) {
    lease.key == job.Target() && lease.admission == job.admission
  }

  /** The waiting source is recorded with sealed evidence, the continuation has sealed none. */
  predicate Sourced(st: State, job: Job) {
    job.source in st.runs && job.source in st.sealed && Sound(st, job.source) && Sound(st, job.Target())
      && job.Target() !in st.sealed
  }

  /** Neither the continuation run nor its admission receipt exists yet. */
  predicate Unborn(st: State, job: Job) {
    && Sourced(st, job) && job.idempotency !in st.receipts
    && job.Target() !in st.runs && job.Target() !in st.claims && Unleased(st, job.Target())
  }

  /** The admitted continuation, its waiting source and the source's claim belong together. */
  predicate Bond(st: State, job: Job) {
    && job.Target() in st.runs
    && st.runs[job.Target()].restoreFrom == Some(job.source.run)
    && st.runs[job.Target()].status.Active() && !IsWaiting(st, job.Target()) && job.Target() !in st.claims
    && IsWaiting(st, job.source)
    && job.source in st.claims && st.claims[job.source].id == job.claim && st.claims[job.source].state != Preflight
  }

  /** A host asks for its fence: as long as its lease is current, its continuation is recorded and is
      not itself up for resumption.  Whether lease, source and claim belong together is not assumed. */
  predicate Hosted(st: State, job: Job, lease: Lease) {
    && Fits(job, lease) && Sourced(st, job)
    && (Holds(st, lease) ==> job.Target() in st.runs && !IsWaiting(st, job.Target()) && job.Target() !in st.claims)
  }

  /** While the job's claim can still be released, its continuation has not been admitted. */
  predicate Unadmitted(st: State, job: Job) {
    job.source in st.claims && st.claims[job.source] == Claim(job.claim, Preflight) ==>
      job.Target() !in st.runs && Unleased(st, job.Target())
  }

  /** The job's claim is gone, so no injection can happen under it. */
  predicate ClaimGone(st: State, job: Job) {
    job.source in st.claims ==> st.claims[job.source].id != job.claim
  }

  /** Before the fence: as long as the lease is current, the claim is the job's. */
  predicate Grip(st: State, job: Job, lease: Lease) {
    Fits(job, lease) && Sourced(st, job) && (Holds(st, lease) ==> Bond(st, job))
  }

  /** Past the fence: the lease is current and the claim `Started`, or the source has concluded. */
  predicate Firm(st: State, job: Job, lease: Lease) {
    && Grip(st, job, lease)
    && (if Holds(st, lease) then st.claims[job.source].state == Started else Concluded(st, job.source))
  }

  // ---------------------------------------------------------------- foreign operations

  /** What a foreign transition may do to a held lease: leave the bond alone, or take the lease
      and conclude a source whose fence had been crossed. */
  predicate Respects(a: State, b: State, job: Job, lease: Lease)
    requires Holds(a, lease) ==> Bond(a, job)
  {
    && (Holds(b, lease) ==> Holds(a, lease) && Bond(b, job) && b.claims[job.source] == a.claims[job.source])
    && (Holds(a, lease) && !Holds(b, lease) && a.claims[job.source].state == Started ==> Concluded(b, job.source))
  }

  lemma EvictRespects(st: State, s: SessionId, job: Job, lease: Lease)
    requires Grip(st, job, lease) && s in st.admissions && Evict(st, s).Some?
    ensures Respects(st, Evict(st, s).value, job, lease)
  {
    EvictKeeps(st, s, job.source);
    EvictKeeps(st, s, job.Target());
    var key := RunKey(s, st.admissions[s].key.run);
    if s == job.source.session && Holds(st, lease) {
      assert key == job.Target();
    } else if s != job.source.session && st.runs[key].status.Active() {
      var mid := TerminalizeSource(st, st.runs[key], s).value.0;
      assert job.source in mid.runs && mid.runs[job.source] == st.runs[job.source];
    }
  }

  lemma {:induction false} EvictExpiredRespects(st: State, order: seq<SessionId>, now: int, job: Job, lease: Lease)
    requires Grip(st, job, lease) && EvictExpired(st, order, now).Some?
    ensures Respects(st, EvictExpired(st, order, now).value, job, lease)
    decreases |order|
  {
    if order == [] {
    } else if order[0] in st.admissions && st.admissions[order[0]].ExpiredAt(now) {
      var mid := Evict(st, order[0]).value;
      EvictKeeps(st, order[0], job.source);
      EvictKeeps(st, order[0], job.Target());
      EvictRespects(st, order[0], job, lease);
      EvictExpiredKeeps(mid, order[1..], now, job.source);
      EvictExpiredRespects(mid, order[1..], now, job, lease);
    } else {
      EvictExpiredRespects(st, order[1..], now, job, lease);
    }
  }

  lemma AdmitRespects(st: State, q: Acquire, now: int, job: Job, lease: Lease)
    requires Grip(st, job, lease) && Foreign(OpAcquire(q, now), job)
    requires Admissible(st, q) && q.key.session !in st.admissions && q.replaced.Some? == q.claim.Some?
    ensures Respects(st, Admit(st, q).0, job, lease)
  {
  }

  lemma AcquireRespects(st: State, q: Acquire, now: int, job: Job, lease: Lease)
    requires Grip(st, job, lease) && Foreign(OpAcquire(q, now), job)
    ensures Respects(st, AcquireAdmission(st, q, now).0, job, lease)
  {
    if AcquireAdmission(st, q, now).0 != st {
      if q.key.session in st.admissions {
        var mid := Evict(st, q.key.session).value;
        EvictKeeps(st, q.key.session, job.source);
        EvictKeeps(st, q.key.session, job.Target());
        EvictRespects(st, q.key.session, job, lease);
        AdmitKeeps(mid, q, job.source);
        AdmitRespects(mid, q, now, job, lease);
      } else {
        AdmitRespects(st, q, now, job, lease);
      }
    }
  }

  lemma CommitRespects(st: State, fence: Option<Lease>, c: Commit, now: int, job: Job, lease: Lease)
    requires Grip(st, job, lease) && Foreign(OpCommit(fence, c, now), job)
    ensures Respects(st, CommitEvidence(st, fence, c, now).0, job, lease)
  {
  }

  lemma LeasedWritesRespect(st: State, op: Op, job: Job, lease: Lease)
    requires Grip(st, job, lease) && Foreign(op, job)
    requires op.OpStart? || op.OpAbort? || op.OpUpdateStatus?
    ensures Respects(st, Apply(st, op).0, job, lease)
  {
  }

  lemma SlotWritesRespect(st: State, op: Op, job: Job, lease: Lease)
    requires Grip(st, job, lease) && Foreign(op, job)
    requires op.OpReleaseAdmission? || op.OpHeartbeat?
    ensures Respects(st, Apply(st, op).0, job, lease)
  {
  }

  lemma FinalizeRespects(st: State, op: Op, job: Job, lease: Lease)
    requires Grip(st, job, lease) && Foreign(op, job) && op.OpFinalize?
    ensures Respects(st, Apply(st, op).0, job, lease)
  {
  }

  lemma ForeignRespects(st: State, op: Op, job: Job, lease: Lease)
    requires Grip(st, job, lease) && Foreign(op, job)
    ensures Respects(st, Apply(st, op).0, job, lease)
  {
    match op
    case OpAcquire(q, now) => AcquireRespects(st, q, now, job, lease);
    case OpReconcile(order, now) =>
      if EvictExpired(st, order, now).Some? { EvictExpiredRespects(st, order, now, job, lease); }
    case OpCommit(fence, c, now) => CommitRespects(st, fence, c, now, job, lease);
    case OpStart(_, _, _, _) => LeasedWritesRespect(st, op, job, lease);
    case OpAbort(_, _, _, _, _) => LeasedWritesRespect(st, op, job, lease);
    case OpUpdateStatus(_, _, _, _) => LeasedWritesRespect(st, op, job, lease);
    case OpFinalize(_, _, _) => FinalizeRespects(st, op, job, lease);
    case OpReleaseAdmission(_, _) => SlotWritesRespect(st, op, job, lease);
    case OpHeartbeat(_, _, _) => SlotWritesRespect(st, op, job, lease);
    case OpClaim(_, _) =>
    case OpRelease(_, _) =>
    case OpLoad(_) =>
    case OpMark(_, _) => LegacyRespects(st, op, job, lease);
    case OpSaveSession(_, _) =>
    case OpAppendRun(_, _) => LegacyRespects(st, op, job, lease);
    case OpSetStatus(_, _, _) => LegacyRespects(st, op, job, lease);
    case OpCheckpoint(_, _, _, _, _, _) => CheckpointRespects(st, op, job, lease);
  }

  lemma LegacyRespects(st: State, op: Op, job: Job, lease: Lease)
    requires Grip(st, job, lease) && Foreign(op, job)
    requires op.OpMark? || op.OpAppendRun? || op.OpSetStatus?
    ensures Respects(st, Apply(st, op).0, job, lease)
  {
  }

  lemma CheckpointRespects(st: State, op: Op, job: Job, lease: Lease)
    requires Grip(st, job, lease) && Foreign(op, job) && op.OpCheckpoint?
    ensures Respects(st, Apply(st, op).0, job, lease)
  {
  }

  /** The operation may record a run under this name. */
  predicate Records(op: Op, k: RunKey) {
    match op
    case OpAcquire(q, _) => q.key == k
    case OpCommit(_, c, _) => c.key == k
    case OpCheckpoint(_, key, _, _, _, _) => key == k
    case OpAppendRun(key, _) => key == k
    case _ => false
  }

  /** Runs, seals, leases and receipts appear only under the names an operation carries, and claims
      only on waiting runs. */
  predicate AddsOnly(a: State, b: State, op: Op, k: RunKey, receipt: Token) {
    && (k in b.runs ==> k in a.runs || Records(op, k))
    && (k in b.claims ==> k in a.claims || IsWaiting(a, k))
    && (k in b.sealed ==> k in a.sealed || (op.OpCommit? && op.commit.key == k))
    && (Unleased(a, k) ==> Unleased(b, k) || (op.OpAcquire? && op.request.key == k))
    && (receipt in b.receipts ==> receipt in a.receipts || (op.OpAcquire? && op.request.idempotency == receipt))
  }

  lemma {:induction false} EvictExpiredAddsNothing(st: State, order: seq<SessionId>, now: int)
    requires EvictExpired(st, order, now).Some?
    ensures
      var next := EvictExpired(st, order, now).value;
      && next.runs.Keys == st.runs.Keys && next.receipts == st.receipts && next.sealed == st.sealed
      && next.claims.Keys <= st.claims.Keys
      && (forall k :: k in next.claims ==> next.claims[k] == st.claims[k])
      && (forall k :: IsWaiting(next, k) ==> IsWaiting(st, k))
      && forall s :: s in next.admissions ==> s in st.admissions && next.admissions[s] == st.admissions[s]
    decreases |order|
  {
    if order == [] {
    } else if order[0] in st.admissions && st.admissions[order[0]].ExpiredAt(now) {
      EvictAddsNothing(st, order[0]);
      EvictExpiredAddsNothing(Evict(st, order[0]).value, order[1..], now);
    } else {
      EvictExpiredAddsNothing(st, order[1..], now);
    }
  }

  lemma EvictAddsNothing(st: State, s: SessionId)
    requires s in st.admissions && Evict(st, s).Some?
    ensures
      var next := Evict(st, s).value;
      && next.runs.Keys == st.runs.Keys && next.receipts == st.receipts && next.sealed == st.sealed
      && next.claims.Keys <= st.claims.Keys
      && (forall k :: k in next.claims ==> next.claims[k] == st.claims[k])
      && (forall k :: IsWaiting(next, k) ==> IsWaiting(st, k))
      && forall s :: s in next.admissions ==> s in st.admissions && next.admissions[s] == st.admissions[s]
  {
  }

  lemma UpdatesAddNothing(st: State, op: Op, k: RunKey, receipt: Token)
    requires op.OpStart? || op.OpAbort? || op.OpUpdateStatus?
    ensures AddsOnly(st, Apply(st, op).0, op, k, receipt)
  {
  }

  lemma StatusWritesAddNothing(st: State, op: Op, k: RunKey, receipt: Token)
    requires op.OpFinalize? || op.OpSetStatus?
    ensures AddsOnly(st, Apply(st, op).0, op, k, receipt)
  {
  }

  lemma SlotsAddNothing(st: State, op: Op, k: RunKey, receipt: Token)
    requires op.OpHeartbeat? || op.OpReleaseAdmission? || op.OpLoad?
    ensures AddsOnly(st, Apply(st, op).0, op, k, receipt)
  {
  }

  lemma AcquireAddsOnly(st: State, op: Op, k: RunKey, receipt: Token)
    requires op.OpAcquire?
    ensures AddsOnly(st, Apply(st, op).0, op, k, receipt)
  {
    var session := op.request.key.session;
    if session in st.admissions && Evict(st, session).Some? { EvictAddsNothing(st, session); }
  }

  lemma CommitAddsOnly(st: State, op: Op, k: RunKey, receipt: Token)
    requires op.OpCommit?
    ensures AddsOnly(st, Apply(st, op).0, op, k, receipt)
  {
  }

  lemma RecordsAddOnly(st: State, op: Op, k: RunKey, receipt: Token)
    requires op.OpAppendRun? || op.OpSaveSession?
    ensures AddsOnly(st, Apply(st, op).0, op, k, receipt)
  {
  }

  lemma CheckpointTouches(st: State, fence: Option<Lease>, key: RunKey, status: RunStatus, stored: bool, intact: bool,
        now: int)
    ensures var next := Checkpoint(st, fence, key, status, stored, intact, now).0;
      && next.runs.Keys <= st.runs.Keys + {key} && next.claims == st.claims && next.sealed == st.sealed
      && next.admissions == st.admissions && next.receipts == st.receipts
  {
  }

  lemma CheckpointAddsOnly(st: State, op: Op, k: RunKey, receipt: Token)
    requires op.OpCheckpoint?
    ensures AddsOnly(st, Apply(st, op).0, op, k, receipt)
  {
    var OpCheckpoint(fence, key, status, stored, intact, now) := op;
    var next := Checkpoint(st, fence, key, status, stored, intact, now).0;
    CheckpointTouches(st, fence, key, status, stored, intact, now);
    assert Apply(st, op).0 == next;
    assert k in next.runs.Keys ==> k in st.runs.Keys + {key};
  }

  lemma ClaimsAddOnly(st: State, op: Op, k: RunKey, receipt: Token)
    requires op.OpClaim? || op.OpRelease? || op.OpMark?
    ensures AddsOnly(st, Apply(st, op).0, op, k, receipt)
  {
    var next := Apply(st, op).0;
    assert next == st.(claims := next.claims);
  }

  lemma ApplyAddsOnly(st: State, op: Op, k: RunKey, receipt: Token)
    ensures AddsOnly(st, Apply(st, op).0, op, k, receipt)
  {
    if op.OpReconcile? {
      if EvictExpired(st, op.order, op.now).Some? { EvictExpiredAddsNothing(st, op.order, op.now); }
    } else if op.OpAcquire? {
      AcquireAddsOnly(st, op, k, receipt);
    } else if op.OpCommit? {
      CommitAddsOnly(st, op, k, receipt);
    } else if op.OpStart? || op.OpAbort? || op.OpUpdateStatus? {
      UpdatesAddNothing(st, op, k, receipt);
    } else if op.OpFinalize? || op.OpSetStatus? {
      StatusWritesAddNothing(st, op, k, receipt);
    } else if op.OpHeartbeat? || op.OpReleaseAdmission? || op.OpLoad? {
      SlotsAddNothing(st, op, k, receipt);
    } else if op.OpCheckpoint? {
      CheckpointAddsOnly(st, op, k, receipt);
    } else if op.OpClaim? || op.OpRelease? || op.OpMark? {
      ClaimsAddOnly(st, op, k, receipt);
    } else {
      RecordsAddOnly(st, op, k, receipt);
    }
  }

  // ---------------------------------------------------------------- leases, waiting runs and claims

  lemma AcquireGrantsNothing(st: State, q: Acquire, now: int, lease: Lease)
    requires q.admission != lease.admission
    ensures Holds(AcquireAdmission(st, q, now).0, lease) ==> Holds(st, lease)
  {
    if q.key.session in st.admissions && Evict(st, q.key.session).Some? { EvictAddsNothing(st, q.key.session); }
  }

  /** A lease is current only if it was, or is being acquired. */
  lemma GrantsNothing(st: State, op: Op, lease: Lease)
    requires op.OpAcquire? ==> op.request.admission != lease.admission
    ensures Holds(Apply(st, op).0, lease) ==> Holds(st, lease)
  {
    if op.OpReconcile? {
      if EvictExpired(st, op.order, op.now).Some? { EvictExpiredAddsNothing(st, op.order, op.now); }
    } else if op.OpAcquire? {
      AcquireGrantsNothing(st, op.request, op.now, lease);
    } else if op.OpCheckpoint? {
      CheckpointTouches(st, op.fence, op.key, op.status, op.stored, op.intact, op.now);
    }
  }

  /** The operation may give run `k` the status waiting. */
  predicate MayWait(st: State, op: Op, k: RunKey) {
    match op
    case OpCommit(_, c, _) => c.key == k
    case OpUpdateStatus(lease, _, _, now) => lease.key == k && Fresh(st, lease, now)
    case OpAppendRun(key, _) => key == k
    case OpSetStatus(key, _, _) => key == k
    case _ => false
  }

  predicate WaitsOnly(a: State, b: State, op: Op, k: RunKey) {
    k in a.runs && IsWaiting(b, k) ==> IsWaiting(a, k) || MayWait(a, op, k)
  }

  lemma RunWritesWaitOnly(st: State, op: Op, k: RunKey)
    requires op.OpCommit? || op.OpAppendRun?
    ensures WaitsOnly(st, Apply(st, op).0, op, k)
  {
  }

  lemma StatusWritesWaitOnly(st: State, op: Op, k: RunKey)
    requires op.OpAbort? || op.OpUpdateStatus? || op.OpFinalize? || op.OpSetStatus?
    ensures WaitsOnly(st, Apply(st, op).0, op, k)
  {
  }

  lemma EvictionsWaitOnly(st: State, op: Op, k: RunKey)
    requires op.OpAcquire? || op.OpReconcile?
    ensures WaitsOnly(st, Apply(st, op).0, op, k)
  {
    if op.OpReconcile? {
      if EvictExpired(st, op.order, op.now).Some? { EvictExpiredAddsNothing(st, op.order, op.now); }
    } else {
      var session := op.request.key.session;
      if session in st.admissions && Evict(st, session).Some? { EvictAddsNothing(st, session); }
    }
  }

  lemma OthersWaitOnly(st: State, op: Op, k: RunKey)
    requires op.OpClaim? || op.OpRelease? || op.OpMark? || op.OpStart? || op.OpHeartbeat? || op.OpReleaseAdmission?
             || op.OpLoad? || op.OpSaveSession? || op.OpCheckpoint?
    ensures WaitsOnly(st, Apply(st, op).0, op, k)
  {
  }

  lemma ApplyWaitsOnly(st: State, op: Op, k: RunKey)
    ensures WaitsOnly(st, Apply(st, op).0, op, k)
  {
    if op.OpCommit? || op.OpAppendRun? {
      RunWritesWaitOnly(st, op, k);
    } else if op.OpAbort? || op.OpUpdateStatus? || op.OpFinalize? || op.OpSetStatus? {
      StatusWritesWaitOnly(st, op, k);
    } else if op.OpAcquire? || op.OpReconcile? {
      EvictionsWaitOnly(st, op, k);
    } else {
      OthersWaitOnly(st, op, k);
    }
  }

  /** The claim under `id` on `k`, if there is one afterwards, was there before in the same state. */
  predicate ClaimOnlyStays(a: State, b: State, k: RunKey, id: Token) {
    k in b.claims && b.claims[k].id == id ==> k in a.claims && a.claims[k] == b.claims[k]
  }

  lemma OtherClaimsStay(st: State, op: Op, job: Job, k: RunKey)
    requires Foreign(op, job) && (op.OpClaim? || op.OpRelease? || op.OpStart? || op.OpAbort? || op.OpMark?)
    ensures ClaimOnlyStays(st, Apply(st, op).0, k, job.claim)
  {
  }

  lemma OtherWritesStay(st: State, op: Op, job: Job, k: RunKey)
    requires Foreign(op, job)
             && (op.OpCommit? || op.OpUpdateStatus? || op.OpFinalize? || op.OpSetStatus? || op.OpAppendRun?)
    ensures ClaimOnlyStays(st, Apply(st, op).0, k, job.claim)
  {
  }

  /** Foreign operations neither make a claim under the job's id nor advance it. */
  lemma ForeignClaimsStay(st: State, op: Op, job: Job, k: RunKey)
    requires Foreign(op, job)
    ensures ClaimOnlyStays(st, Apply(st, op).0, k, job.claim)
  {
    if op.OpClaim? || op.OpRelease? || op.OpStart? || op.OpAbort? || op.OpMark? {
      OtherClaimsStay(st, op, job, k);
    } else if op.OpReconcile? {
      if EvictExpired(st, op.order, op.now).Some? { EvictExpiredAddsNothing(st, op.order, op.now); }
    } else if op.OpAcquire? {
      var session := op.request.key.session;
      if session in st.admissions && Evict(st, session).Some? { EvictAddsNothing(st, session); }
    } else if op.OpCheckpoint? {
      CheckpointTouches(st, op.fence, op.key, op.status, op.stored, op.intact, op.now);
    } else if op.OpCommit? || op.OpUpdateStatus? || op.OpFinalize? || op.OpSetStatus? || op.OpAppendRun? {
      OtherWritesStay(st, op, job, k);
    }
  }

  /** Without a lease of its own the continuation is recorded by nobody. */
  lemma ForeignAdmitsNothing(st: State, op: Op, job: Job)
    requires Foreign(op, job) && job.Target() !in st.runs && Unleased(st, job.Target())
    ensures job.Target() !in Apply(st, op).0.runs && Unleased(Apply(st, op).0, job.Target())
  {
    ApplyAddsOnly(st, op, job.Target(), job.idempotency);
  }

  /** Foreign operations neither admit the continuation of a refused call nor revive a lost claim. */
  lemma ForeignKeepsRelease(st: State, op: Op, job: Job)
    requires Foreign(op, job)
    ensures Unadmitted(st, job) ==> Unadmitted(Apply(st, op).0, job)
    ensures ClaimGone(st, job) ==> ClaimGone(Apply(st, op).0, job)
  {
    ForeignClaimsStay(st, op, job, job.source);
    if job.Target() !in st.runs && Unleased(st, job.Target()) { ForeignAdmitsNothing(st, op, job); }
  }

  lemma ForeignKeepsHosted(st: State, op: Op, job: Job, lease: Lease)
    requires Foreign(op, job) && Hosted(st, job, lease)
    ensures Hosted(Apply(st, op).0, job, lease)
  {
    ApplyKeeps(st, op, job.source);
    ApplyKeeps(st, op, job.Target());
    ApplyAddsOnly(st, op, job.Target(), job.idempotency);
    GrantsNothing(st, op, lease);
    ApplyWaitsOnly(st, op, job.Target());
  }

  /** Foreign operations keep a grip and a firm hold, and create neither run nor receipt. */
  lemma ForeignKeeps(st: State, op: Op, job: Job, lease: Lease)
    requires Foreign(op, job)
    ensures Grip(st, job, lease) ==> Grip(Apply(st, op).0, job, lease)
    ensures Firm(st, job, lease) ==> Firm(Apply(st, op).0, job, lease)
    ensures Unborn(st, job) ==> Unborn(Apply(st, op).0, job)
    ensures Grip(st, job, lease) && !Holds(st, lease) ==> !Holds(Apply(st, op).0, lease)
  {
    if Sourced(st, job) {
      ApplyKeeps(st, op, job.source);
      ApplyKeeps(st, op, job.Target());
      ApplyAddsOnly(st, op, job.Target(), job.idempotency);
      assert Sourced(Apply(st, op).0, job);
      if Grip(st, job, lease) { ForeignRespects(st, op, job, lease); }
    }
  }

  // ---------------------------------------------------------------- what each phase may rely on

  predicate Committing(cause: Cause) {
    !cause.BeforeEffect? && !Unrecording(cause)
  }

  /** A stream failure without a run of its own leaves nothing to commit. */
  predicate Unrecording(cause: Cause) { cause.StreamFailure? && !cause.identified }

  predicate PhaseInv(st: State, phase: Phase) {
    match phase
    case Claiming(job) => Unborn(st, job)
    case Acquiring(job) => Unborn(st, job)
    case CrossingFence(job, lease) => Grip(st, job, lease)
    case Aborting(job, lease) => Grip(st, job, lease)
    case CheckingLease(job, lease) => Firm(st, job, lease)
    case Injecting(job, lease) => Firm(st, job, lease)
    case Streaming(job, lease) => Firm(st, job, lease)
    case Persisting(job, lease, _) => Firm(st, job, lease)
    case Loading(job, lease, cause) => Settling(st, job, lease, cause)
    case Finalizing(job, lease, cause, _) =>
      Settling(st, job, lease, cause) && (Unrecording(cause) ==> !Holds(st, lease))
    case Releasing(job) => Unadmitted(st, job)
    case HostCrossing(job, lease) => Hosted(st, job, lease)
    case HostInjecting(job, lease) => Firm(st, job, lease)
    case Idle => true
  }

  /** After an abort the claim is gone, after a commit the source has concluded, and an unrecorded
      failure leaves the hold as it was. */
  predicate Settling(st: State, job: Job, lease: Lease, cause: Cause) {
    && Fits(job, lease)
    && (cause.BeforeEffect? ==> ClaimGone(st, job))
    && (Committing(cause) ==> Concluded(st, job.source) && Sound(st, job.source))
    && (Unrecording(cause) ==> Firm(st, job, lease))
  }

  lemma ForeignKeepsSettling(st: State, op: Op, job: Job, lease: Lease, cause: Cause)
    requires Settling(st, job, lease, cause) && Foreign(op, job)
    ensures Settling(Apply(st, op).0, job, lease, cause)
    ensures Unrecording(cause) && !Holds(st, lease) ==> !Holds(Apply(st, op).0, lease)
  {
    if Unrecording(cause) { ForeignKeeps(st, op, job, lease); }
    if cause.BeforeEffect? { ForeignKeepsRelease(st, op, job); }
    if Committing(cause) { ApplyKeeps(st, op, job.source); }
  }

  lemma ForeignKeepsPhase(st: State, op: Op, phase: Phase)
    requires PhaseInv(st, phase) && (phase.Busy() ==> Foreign(op, phase.job))
    ensures PhaseInv(Apply(st, op).0, phase)
  {
    if phase.Loading? || phase.Finalizing? {
      ForeignKeepsSettling(st, op, phase.job, phase.lease, phase.cause);
    } else if phase.Claiming? || phase.Acquiring? {
      ForeignKeeps(st, op, phase.job, Lease(phase.job.Target(), phase.job.admission, phase.job.host, 0, 0));
    } else if phase.Releasing? {
      ForeignKeepsRelease(st, op, phase.job);
    } else if phase.HostCrossing? {
      ForeignKeepsHosted(st, op, phase.job, phase.lease);
    } else if phase.Busy() {
      ForeignKeeps(st, op, phase.job, phase.lease);
    }
  }

  // ---------------------------------------------------------------- a call's own steps

  lemma AcquireGrips(st: State, job: Job, now: int)
    requires Unborn(st, job) && AcquireAdmission(st, RequestFor(job, now), now).1.Leased?
    ensures
      var (next, reply) := AcquireAdmission(st, RequestFor(job, now), now);
      Grip(next, job, reply.lease)
  {
    ApplyKeeps(st, OpAcquire(RequestFor(job, now), now), job.source);
    ApplyKeeps(st, OpAcquire(RequestFor(job, now), now), job.Target());
    if job.source.session in st.admissions {
      EvictKeeps(st, job.source.session, job.source);
    }
  }

  lemma StartFirms(st: State, job: Job, lease: Lease, now: int)
    requires Grip(st, job, lease)
    ensures
      var (next, reply) := StartEffect(st, lease, job.source.run, job.claim, now);
      Grip(next, job, lease) && (reply.Done? ==> Firm(next, job, lease))
  {
  }

  /** The store's own checks at the fence bind lease, source and claim of a host together. */
  lemma HostStartFirms(st: State, job: Job, lease: Lease, now: int)
    requires Hosted(st, job, lease)
    ensures
      var (next, reply) := StartEffect(st, lease, job.source.run, job.claim, now);
      reply.Done? ==> Firm(next, job, lease)
  {
  }

  lemma CommitConcludes(st: State, job: Job, lease: Lease, cause: Cause, p: Poll)
    requires Firm(st, job, lease)
    ensures
      var (next, reply) := CommitEvidence(st, Some(lease), EvidenceFor(job, cause, p), p.now);
      reply.Done? ==> Concluded(next, job.source) && Sound(next, job.source)
  {
    ApplyKeeps(st, OpCommit(Some(lease), EvidenceFor(job, cause, p), p.now), job.source);
  }

  lemma AbortSettles(st: State, job: Job, lease: Lease, now: int)
    requires Grip(st, job, lease)
    ensures
      var (next, reply) := AbortAdmitted(st, lease, job.source.run, job.claim, PREVIEW, now);
      && (reply == Aborted(EffectStarted) ==> Firm(next, job, lease))
      && (reply == Aborted(AbortedBeforeEffect) ==> ClaimGone(next, job))
  {
  }

  /** However an admission request went wrong, the claim is still preflight only if nothing was admitted. */
  lemma RefusalUnadmits(st: State, job: Job, now: int, fault: Fault)
    requires Unborn(st, job)
    ensures
      var (next, reply) := Called(st, OpAcquire(RequestFor(job, now), now), fault);
      !reply.Leased? ==> Unadmitted(next, job)
  {
  }

  lemma ClaimKeepsUnborn(st: State, job: Job)
    requires Unborn(st, job)
    ensures Unborn(ClaimResume(st, job.source, job.claim).0, job)
  {
    ApplyKeeps(st, OpClaim(job.source, job.claim), job.source);
    ApplyKeeps(st, OpClaim(job.source, job.claim), job.Target());
  }

  predicate Handover(st: State, rt: Runtime, p: Poll) {
    PhaseInv(Polled(st, rt, p).0, Polled(st, rt, p).1.phase)
  }

  lemma AdmissionSteps(st: State, rt: Runtime, p: Poll)
    requires PhaseInv(st, rt.phase)
    requires rt.phase.Claiming? || rt.phase.Acquiring? || rt.phase.Releasing?
    ensures Handover(st, rt, p)
  {
    match rt.phase
    case Claiming(job) => ClaimKeepsUnborn(st, job);
    case Acquiring(job) =>
      RefusalUnadmits(st, job, p.now, p.fault);
      if AcquireAdmission(st, RequestFor(job, p.now), p.now).1.Leased? { AcquireGrips(st, job, p.now); }
    case Releasing(_) =>
  }

  lemma FenceSteps(st: State, rt: Runtime, p: Poll)
    requires PhaseInv(st, rt.phase) && (rt.phase.CrossingFence? || rt.phase.Aborting?)
    ensures Handover(st, rt, p)
  {
    match rt.phase
    case CrossingFence(job, lease) => StartFirms(st, job, lease, p.now);
    case Aborting(job, lease) => AbortSettles(st, job, lease, p.now);
  }

  lemma HostSteps(st: State, rt: Runtime, p: Poll)
    requires PhaseInv(st, rt.phase) && rt.phase.HostCrossing?
    ensures Handover(st, rt, p)
  {
    HostStartFirms(st, rt.phase.job, rt.phase.lease, p.now);
  }

  lemma PersistSteps(st: State, rt: Runtime, p: Poll)
    requires PhaseInv(st, rt.phase) && rt.phase.Persisting?
    ensures Handover(st, rt, p)
  {
    var Persisting(job, lease, cause) := rt.phase;
    if Unrecording(cause) {
      assert Polled(st, rt, p).0 == st;
    } else {
      CommitConcludes(st, job, lease, cause, p);
    }
  }

  lemma QuietSteps(st: State, rt: Runtime, p: Poll)
    requires PhaseInv(st, rt.phase) && (PendingOp(rt.phase, p).None? || rt.phase.Loading?) && !rt.phase.Persisting?
    ensures Handover(st, rt, p)
  {
  }

  /** Each phase hands the next one what it may rely on. */
  lemma OwnStep(st: State, rt: Runtime, p: Poll)
    requires PhaseInv(st, rt.phase)
    ensures Handover(st, rt, p)
  {
    match rt.phase
    case Claiming(_) => AdmissionSteps(st, rt, p);
    case Acquiring(_) => AdmissionSteps(st, rt, p);
    case Releasing(_) => AdmissionSteps(st, rt, p);
    case CrossingFence(_, _) => FenceSteps(st, rt, p);
    case Aborting(_, _) => FenceSteps(st, rt, p);
    case Persisting(_, _, _) => PersistSteps(st, rt, p);
    case Finalizing(_, _, _, _) => assert Polled(st, rt, p).1.phase.Idle?;
    case HostCrossing(_, _) => HostSteps(st, rt, p);
    case _ => QuietSteps(st, rt, p);
  }
}
