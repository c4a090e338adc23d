/**
  The durable session tables behind a human-in-the-loop continuation: runs, resume claims,
  run admissions (one leased run per session) and sealed evidence.  Every operation of the
  in-memory session store that can touch those tables, older unfenced ones included, is one atomic
  function from a store state to the next store state and a reply; an operation that replies with
  an error leaves the state as it was.  `OpSaveSession` stands for every write of a session row.
*/
module Store {
  import opened Basics

  /** Identifiers, previews and diagnostics are opaque; `BLANK` is the empty claim id. */
  type Token = nat
  const BLANK: Token := 0
  type SessionId = nat
  type RunId = nat

  datatype RunStatus = Queued | Starting | Running | Waiting | Completed | Failed | Cancelled {
    predicate Terminal() { Completed? || Failed? || Cancelled? }
    predicate Active() { !Terminal() }
  }

  datatype RunKey = RunKey(session: SessionId, run: RunId)

  datatype Run = Run(
    status: RunStatus,
    restoreFrom: Option<RunId>,
    preview: Option<Token>,
    error: Option<Token>,
    indeterminate: bool)

  datatype Session = Session(active: Option<RunId>, open: bool)

  datatype ClaimState = Preflight | Admitted | Started
  datatype Claim = Claim(id: Token, state: ClaimState)

  /** A run-admission lease.  Fenced writes compare `Owner` fields, never the expiry. */
  datatype Lease = Lease(key: RunKey, admission: Token, host: Token, generation: nat, expires: int) {
    predicate SameOwner(other: Lease) {
      key == other.key && admission == other.admission && host == other.host && generation == other.generation
    }
    predicate ExpiredAt(now: int) { expires <= now }
  }

  datatype State = State(
    sessions: map<SessionId, Session>,
    runs: map<RunKey, Run>,
    claims: map<RunKey, Claim>,
    admissions: map<SessionId, Lease>,
    generations: map<SessionId, nat>,
    receipts: map<Token, (Token, Lease)>,
    sealed: map<RunKey, Token>)

  datatype AbortOutcome = AbortedBeforeEffect | EffectStarted

  datatype Reply =
    | Done
    | Leased(lease: Lease)
    | Aborted(outcome: AbortOutcome)
    | Loaded(run: Run)
    | Err

  datatype Projection = Projection(status: RunStatus, preview: Option<Token>, error: Option<Token>) {
    predicate Valid() {
      && status.Terminal()
      && (status.Failed? ==> error.Some?)
      && (status.Completed? ==> error.None?)
    }
  }

  datatype Acquire = Acquire(
    key: RunKey,
    restoreFrom: Option<RunId>,
    admission: Token,
    host: Token,
    expires: int,
    idempotency: Token,
    fingerprint: Token,
    replaced: Option<RunId>,
    claim: Option<Token>)

  /** The guarded transition of the source run carried by a continuation's evidence commit. */
  datatype Related = Related(run: RunId, expected: RunStatus, terminal: Projection, claim: Option<Token>)

  /** `intact` stands for the remaining structural and record-level checks of an evidence bundle. */
  datatype Commit = Commit(
    key: RunKey,
    outcome: Projection,
    restoreFrom: Option<RunId>,
    related: Option<Related>,
    digest: Token,
    intact: bool)

  datatype Op =
    | OpClaim(key: RunKey, claim: Token)
    | OpRelease(key: RunKey, claim: Token)
    | OpAcquire(request: Acquire, now: int)
    | OpHeartbeat(lease: Lease, expires: int, now: int)
    | OpStart(lease: Lease, source: RunId, claim: Token, now: int)
    | OpAbort(lease: Lease, source: RunId, claim: Token, note: Token, now: int)
    | OpCommit(fence: Option<Lease>, commit: Commit, now: int)
    | OpUpdateStatus(lease: Lease, status: RunStatus, preview: Option<Token>, now: int)
    | OpFinalize(lease: Lease, terminal: Projection, now: int)
    | OpReleaseAdmission(lease: Lease, now: int)
    | OpReconcile(order: seq<SessionId>, now: int)
    | OpLoad(key: RunKey)
    | OpCheckpoint(fence: Option<Lease>, key: RunKey, status: RunStatus, stored: bool, intact: bool, now: int)
    | OpMark(key: RunKey, claim: Token)
    | OpSaveSession(session: SessionId, record: Session)
    | OpAppendRun(key: RunKey, run: Run)
    | OpSetStatus(key: RunKey, status: RunStatus, preview: Option<Token>)

  // ---------------------------------------------------------------- shared guards and writes

  predicate IsWaiting(st: State, key: RunKey) {
    key in st.runs && st.runs[key].status == Waiting
  }

  predicate Fresh(st: State, lease: Lease, now: int) {
    && lease.key.session in st.admissions
    && st.admissions[lease.key.session].SameOwner(lease)
    && !st.admissions[lease.key.session].ExpiredAt(now)
  }

  /** Moves the session's active pointer the way every run-status write does. */
  function Pointed(sessions: map<SessionId, Session>, key: RunKey, status: RunStatus): map<SessionId, Session> {
    if key.session !in sessions then sessions
    else
      var s := sessions[key.session];
      if status.Active() then sessions[key.session := s.(active := Some(key.run))]
      else if s.active == Some(key.run) then sessions[key.session := s.(active := None)]
      else sessions
  }

  function SetStatus(st: State, key: RunKey, p: Projection): State
    requires key in st.runs
  {
    var run := st.runs[key];
    if run.status == p.status && run.preview == p.preview && run.error == p.error then st
    else
      st.(runs := st.runs[key := run.(status := p.status, preview := p.preview, error := p.error)],
          sessions := Pointed(st.sessions, key, p.status))
  }

  /** Whether `lease` is the live admission of a run that continues `source`, itself still waiting. */
  predicate BoundToWaitingSource(st: State, lease: Lease, source: RunId, now: int) {
    && Fresh(st, lease, now)
    && lease.key in st.runs
    && st.runs[lease.key].restoreFrom == Some(source)
    && st.runs[lease.key].status.Active()
    && IsWaiting(st, RunKey(lease.key.session, source))
  }

  // ---------------------------------------------------------------- claim life cycle

  function ClaimResume(st: State, key: RunKey, claim: Token): (State, Reply) {
    if claim == BLANK then (st, Err)
    else if key !in st.runs then (st, Err)
    else if st.runs[key].status != Waiting then (st, Err)
    else if key in st.claims then
      (st, if st.claims[key] == Claim(claim, Preflight) then Done else Err)
    else (st.(claims := st.claims[key := Claim(claim, Preflight)]), Done)
  }

  function ReleaseClaim(st: State, key: RunKey, claim: Token): (State, Reply) {
    if key !in st.claims then (st, Done)
    else if st.claims[key] != Claim(claim, Preflight) then (st, Err)
    else (st.(claims := st.claims - {key}), Done)
  }

  function StartEffect(st: State, lease: Lease, source: RunId, claim: Token, now: int): (State, Reply) {
    var key := RunKey(lease.key.session, source);
    if !BoundToWaitingSource(st, lease, source, now) then (st, Err)
    else if key !in st.claims then (st, Err)
    else if st.claims[key] != Claim(claim, Admitted) then (st, Err)
    else (st.(claims := st.claims[key := Claim(claim, Started)]), Done)
  }

  const PREPARATION_FAILED: Token := 1

  function AbortAdmitted(st: State, lease: Lease, source: RunId, claim: Token, note: Token, now: int): (State, Reply) {
    var key := RunKey(lease.key.session, source);
    if !BoundToWaitingSource(st, lease, source, now) then (st, Err)
    else if key !in st.claims then (st, Err)
    else if st.claims[key].id != claim then (st, Err)
    else if st.claims[key].state == Started then (st, Aborted(EffectStarted))
    else if st.claims[key].state != Admitted then (st, Err)
    else
      var failed := SetStatus(st, lease.key, Projection(Failed, Some(note), Some(PREPARATION_FAILED)));
      (failed.(claims := failed.claims - {key}), Aborted(AbortedBeforeEffect))
  }

  // ---------------------------------------------------------------- admissions

  const LEASE_EXPIRED: Token := 2

  /** The source of a replacement whose lease expired: its claim is consumed, and a source whose
      effect fence had been crossed is terminalized fail-closed. */
  function TerminalizeSource(st: State, target: Run, session: SessionId): Option<(State, bool)> {
    if target.restoreFrom.None? then Some((st, false))
    else
      var key := RunKey(session, target.restoreFrom.value);
      if key !in st.runs then None
      else if st.runs[key].status != Waiting then Some((st, false))
      else if key !in st.claims || st.claims[key].state == Preflight then None
      else
        var started := st.claims[key].state == Started;
        var runs :=
          if started then
            st.runs[key := st.runs[key].(status := Cancelled, preview := Some(LEASE_EXPIRED),
                                         error := Some(LEASE_EXPIRED), indeterminate := true)]
          else st.runs;
        Some((st.(runs := runs, claims := st.claims - {key}), started))
  }

  /** Evicts the admission of `session`, cancelling its run when that run is still active. */
  function Evict(st: State, session: SessionId): Option<State>
    requires session in st.admissions
  {
    var key := RunKey(session, st.admissions[session].key.run);
    if key !in st.runs then None
    else
      var evicted :=
        if st.runs[key].status.Active() then
          match TerminalizeSource(st, st.runs[key], session)
          case None => None
          case Some((mid, started)) =>
            var run := if key in mid.runs then mid.runs[key] else st.runs[key];
            Some(mid.(runs := mid.runs[key := run.(status := Cancelled, preview := Some(LEASE_EXPIRED),
                                                   error := Some(LEASE_EXPIRED),
                                                   indeterminate := run.indeterminate || started)]))
        else Some(st);
      match evicted
      case None => None
      case Some(next) =>
        var sessions :=
          if session in next.sessions && next.sessions[session].active == Some(key.run)
          then next.sessions[session := next.sessions[session].(active := None)]
          else next.sessions;
        Some(next.(sessions := sessions, admissions := next.admissions - {session}))
  }

  predicate SourceCanBeReplaced(st: State, q: Acquire, source: RunId) {
    q.replaced == Some(source) && q.restoreFrom == Some(source) && IsWaiting(st, RunKey(q.key.session, source))
  }

  /** What a request must meet once no live lease stands in its way. */
  predicate Admissible(st: State, q: Acquire) {
    && q.key.session in st.sessions
    && var active := st.sessions[q.key.session].active;
    && st.sessions[q.key.session].open
    && (active.Some? ==> SourceCanBeReplaced(st, q, active.value))
    && (active.None? && q.replaced.Some? ==> SourceCanBeReplaced(st, q, q.replaced.value))
    && (q.replaced.Some? && q.claim.Some? ==>
          var key := RunKey(q.key.session, q.replaced.value);
          key in st.claims && st.claims[key] == Claim(q.claim.value, Preflight))
    && q.key !in st.runs
  }

  function NextGeneration(st: State, session: SessionId): nat {
    if session in st.generations then st.generations[session] + 1 else 1
  }

  /** Records the admitted run as queued, advances the claim and hands out the lease. */
  function Admit(st: State, q: Acquire): (State, Lease)
    requires Admissible(st, q)
  {
    var generation := NextGeneration(st, q.key.session);
    var lease := Lease(q.key, q.admission, q.host, generation, q.expires);
    var claims :=
      if q.replaced.Some? && q.claim.Some?
      then st.claims[RunKey(q.key.session, q.replaced.value) := Claim(q.claim.value, Admitted)]
      else st.claims;
    (st.(sessions := st.sessions[q.key.session := st.sessions[q.key.session].(active := Some(q.key.run))],
         runs := st.runs[q.key := Run(Queued, q.restoreFrom, None, None, false)],
         claims := claims,
         admissions := st.admissions[q.key.session := lease],
         generations := st.generations[q.key.session := generation],
         receipts := st.receipts[q.idempotency := (q.fingerprint, lease)]),
     lease)
  }

  function AcquireAdmission(st: State, q: Acquire, now: int): (State, Reply) {
    if q.idempotency in st.receipts then
      (st, if st.receipts[q.idempotency].0 == q.fingerprint
           then Leased(st.receipts[q.idempotency].1) else Err)
    else if q.replaced.Some? != q.claim.Some? then (st, Err)
    else if q.key.session in st.admissions && !st.admissions[q.key.session].ExpiredAt(now) then (st, Err)
    else
      var cleared := if q.key.session in st.admissions then Evict(st, q.key.session) else Some(st);
      match cleared
      case None => (st, Err)
      case Some(mid) =>
        if !Admissible(mid, q) then (st, Err)
        else var (next, lease) := Admit(mid, q); (next, Leased(lease))
  }

  function Heartbeat(st: State, lease: Lease, expires: int, now: int): (State, Reply) {
    if !Fresh(st, lease, now) then (st, Err)
    else
      var renewed := st.admissions[lease.key.session].(expires := expires);
      (st.(admissions := st.admissions[lease.key.session := renewed]), Leased(renewed))
  }

  function ReleaseAdmission(st: State, lease: Lease, now: int): (State, Reply) {
    if lease.key.session !in st.admissions then (st, Done)
    else if !Fresh(st, lease, now) then (st, Err)
    else (st.(admissions := st.admissions - {lease.key.session}), Done)
  }

  function UpdateStatus(st: State, lease: Lease, status: RunStatus, preview: Option<Token>, now: int): (State, Reply) {
    if status.Terminal() then (st, Err)
    else if !Fresh(st, lease, now) then (st, Err)
    else if lease.key !in st.runs then (st, Err)
    else (SetStatus(st, lease.key, Projection(status, preview, None)), Done)
  }

  function Finalize(st: State, lease: Lease, terminal: Projection, now: int): (State, Reply) {
    if terminal.status.Active() then (st, Err)
    else if lease.key.session !in st.admissions then
      if lease.key !in st.runs then (st, Err)
      else
        var run := st.runs[lease.key];
        (st, if Projection(run.status, run.preview, run.error) == terminal then Done else Err)
    else if !Fresh(st, lease, now) then (st, Err)
    else if lease.key !in st.runs then (st, Err)
    else if !st.runs[lease.key].status.Terminal() && !terminal.Valid() then (st, Err)
    else
      var settled := if st.runs[lease.key].status.Terminal() then st else SetStatus(st, lease.key, terminal);
      (settled.(admissions := settled.admissions - {lease.key.session}), Done)
  }

  /** Expired admissions are evicted in the given order, all or nothing. */
  function EvictExpired(st: State, order: seq<SessionId>, now: int): Option<State>
    decreases |order|
  {
    if order == [] then Some(st)
    else if order[0] in st.admissions && st.admissions[order[0]].ExpiredAt(now) then
      match Evict(st, order[0])
      case None => None
      case Some(next) => EvictExpired(next, order[1..], now)
    else EvictExpired(st, order[1..], now)
  }

  function Reconcile(st: State, order: seq<SessionId>, now: int): (State, Reply) {
    match EvictExpired(st, order, now)
    case None => (st, Err)
    case Some(next) => (next, Done)
  }

  // ---------------------------------------------------------------- evidence

  predicate WellFormedCommit(c: Commit) {
    && c.intact
    && (c.related.Some? ==>
          && c.restoreFrom == Some(c.related.value.run)
          && c.related.value.run != c.key.run
          && c.related.value.claim.Some? && c.related.value.claim.value != BLANK)
  }

  /** A terminal run needs a complete projection, a live one must not carry a diagnostic. */
  predicate WritableOutcome(p: Projection) {
    if p.status.Terminal() then p.Valid() else p.error.None?
  }

  predicate RelatedAuthorized(st: State, c: Commit) {
    c.related.Some? ==>
      var key := RunKey(c.key.session, c.related.value.run);
      && c.related.value.claim.Some?
      && key in st.claims
      && st.claims[key] == Claim(c.related.value.claim.value, Started)
  }

  predicate RelatedApplies(st: State, c: Commit) {
    c.related.Some? ==>
      var key := RunKey(c.key.session, c.related.value.run);
      key in st.runs && st.runs[key].status == c.related.value.expected
  }

  function WithRelated(st: State, c: Commit): State
    requires RelatedApplies(st, c)
  {
    if c.related.None? then st
    else
      var key := RunKey(c.key.session, c.related.value.run);
      var moved := SetStatus(st, key, c.related.value.terminal);
      moved.(claims := moved.claims - {key})
  }

  function WithPrimary(st: State, c: Commit): State {
    var kept := if c.key in st.runs then st.runs[c.key].indeterminate else false;
    st.(runs := st.runs[c.key := Run(c.outcome.status, c.restoreFrom, c.outcome.preview, c.outcome.error, kept)],
        sessions := Pointed(st.sessions, c.key, c.outcome.status),
        sealed := st.sealed[c.key := c.digest])
  }

  function CommitEvidence(st: State, fence: Option<Lease>, c: Commit, now: int): (State, Reply) {
    if fence.Some? && fence.value.key != c.key then (st, Err)
    else if !WellFormedCommit(c) then (st, Err)
    else if c.key in st.sealed then
      (st, if st.sealed[c.key] != c.digest then Err
           else if c.key !in st.runs then Err
           else Done)
    else if !WritableOutcome(c.outcome) || (c.related.Some? && !c.related.value.terminal.Valid()) then (st, Err)
    else if fence.Some? && !Fresh(st, fence.value, now) then (st, Err)
    else if !RelatedAuthorized(st, c) || !RelatedApplies(st, c) then (st, Err)
    else if c.key.session !in st.sessions then (st, Err)
    else (WithPrimary(WithRelated(st, c), c), Done)
  }

  function Load(st: State, key: RunKey): (State, Reply) {
    (st, if key in st.runs then Loaded(st.runs[key]) else Err)
  }

  // ---------------------------------------------------------------- unfenced and legacy writes

  const CHECKPOINT_FAILED: Token := 5
  const LEGACY_FAILED: Token := 6

  /** The status a checkpoint gives to a run it has to create. */
  function CheckpointStatus(status: RunStatus): RunStatus {
    if status == Queued || status == Starting then Running else status
  }

  /** A checkpoint records session and run if they are missing, and otherwise touches neither.
      `stored`: this very checkpoint is known already; `intact`: it contradicts no stored one. */
  function Checkpoint(st: State, fence: Option<Lease>, key: RunKey, status: RunStatus, stored: bool, intact: bool,
        now: int): (State, Reply)
  {
    if fence.Some? && fence.value.key != key then (st, Err)
    else if !intact then (st, Err)
    else if fence.Some? && stored then (st, Done)
    else if fence.Some? && !Fresh(st, fence.value, now) then (st, Err)
    else
      var sessions := if key.session in st.sessions then st.sessions
        else st.sessions[key.session := Session(None, true)];
      if key in st.runs then (st.(sessions := sessions), Done)
      else
        var recorded := CheckpointStatus(status);
        var error := if recorded == Failed || recorded == Cancelled then Some(CHECKPOINT_FAILED) else None;
        (st.(runs := st.runs[key := Run(recorded, None, None, error, false)],
            sessions := Pointed(sessions, key, recorded)), Done)
  }

  /** The older bare transition past the fence, without an admission. */
  function MarkStarted(st: State, key: RunKey, claim: Token): (State, Reply) {
    if key !in st.claims || st.claims[key].id != claim then (st, Err)
    else if st.claims[key].state == Preflight then (st.(claims := st.claims[key := Claim(claim, Started)]), Done)
    else (st, Done)
  }

  /** Replaces or creates a run record as it stands. */
  function AppendRun(st: State, key: RunKey, run: Run): (State, Reply) {
    if !WritableOutcome(Projection(run.status, run.preview, run.error)) || key.session !in st.sessions then (st, Err)
    else (st.(runs := st.runs[key := run], sessions := Pointed(st.sessions, key, run.status)), Done)
  }

  /** The older status update, without a fence. */
  function SetLegacyStatus(st: State, key: RunKey, status: RunStatus, preview: Option<Token>): (State, Reply) {
    if key !in st.runs then (st, Err)
    else
      var p := if status == Failed || status == Cancelled then Projection(status, None, Some(LEGACY_FAILED))
               else Projection(status, preview, None);
      (SetStatus(st, key, p), Done)
  }

  // ---------------------------------------------------------------- one operation, any history

  function Apply(st: State, op: Op): (State, Reply) {
    match op
    case OpClaim(key, claim) => ClaimResume(st, key, claim)
    case OpRelease(key, claim) => ReleaseClaim(st, key, claim)
    case OpAcquire(request, now) => AcquireAdmission(st, request, now)
    case OpHeartbeat(lease, expires, now) => Heartbeat(st, lease, expires, now)
    case OpStart(lease, source, claim, now) => StartEffect(st, lease, source, claim, now)
    case OpAbort(lease, source, claim, note, now) => AbortAdmitted(st, lease, source, claim, note, now)
    case OpCommit(fence, commit, now) => CommitEvidence(st, fence, commit, now)
    case OpUpdateStatus(lease, status, preview, now) => UpdateStatus(st, lease, status, preview, now)
    case OpFinalize(lease, terminal, now) => Finalize(st, lease, terminal, now)
    case OpReleaseAdmission(lease, now) => ReleaseAdmission(st, lease, now)
    case OpReconcile(order, now) => Reconcile(st, order, now)
    case OpLoad(key) => Load(st, key)
    case OpCheckpoint(fence, key, status, stored, intact, now) =>
      Checkpoint(st, fence, key, status, stored, intact, now)
    case OpMark(key, claim) => MarkStarted(st, key, claim)
    case OpSaveSession(session, record) => (st.(sessions := st.sessions[session := record]), Done)
    case OpAppendRun(key, run) => AppendRun(st, key, run)
    case OpSetStatus(key, status, preview) => SetLegacyStatus(st, key, status, preview)
  }

  function After(st: State, ops: seq<Op>): State
    decreases |ops|
  {
    if ops == [] then st else After(Apply(st, ops[0]).0, ops[1..])
  }
}
