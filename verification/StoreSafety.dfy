/**
  What every history of store operations keeps, whoever issues them and with whatever
  arguments and clocks: how often the effect fence of a waiting run can be crossed.
*/
module StoreSafety {
  import opened Basics
  import opened Store

  /** No admission of the session leases this run. */
  predicate Unleased(st: State, k: RunKey) {
    k.session in st.admissions ==> st.admissions[k.session].key.run != k.run
  }

  /** A recorded run whose evidence is sealed and which no live or expired lease names. */
  predicate Settled(st: State, k: RunKey) {
    k in st.runs && k in st.sealed && Unleased(st, k)
  }

  /** The run has left `Waiting`, or its claim has passed the effect fence. */
  predicate Shut(st: State, k: RunKey) {
    && k in st.runs && Unleased(st, k)
    && (IsWaiting(st, k) ==> k in st.claims && st.claims[k].state == Started)
  }

  /** Shut for good: the evidence is sealed as well. */
  predicate Fenced(st: State, k: RunKey) {
    k in st.sealed && Shut(st, k)
  }

  /** A settled run that reached a terminal status. */
  predicate Concluded(st: State, k: RunKey) {
    Settled(st, k) && st.runs[k].status.Terminal()
  }

  /** An admitted claim names a recorded run that holds no lease. */
  predicate Sound(st: State, k: RunKey) {
    k in st.claims && st.claims[k].state == Admitted ==> k in st.runs && Unleased(st, k)
  }

  /** The operation writes the record of `k` without a fence. */
  predicate Overwrites(op: Op, k: RunKey) {
    (op.OpAppendRun? || op.OpSetStatus?) && op.key == k
  }

  /** What a transition does to run `k`, leased or not: records and seals are never undone, and a
      shut fence is reopened at most by the operation that first seals the run's evidence. */
  predicate Keeps(a: State, b: State, k: RunKey) {
    && Sound(b, k)
    && (k in a.runs ==> k in b.runs)
    && (k in a.sealed ==> k in b.sealed)
    && (k in a.runs && Unleased(a, k) ==> Unleased(b, k))
    && (Shut(a, k) && (k in b.sealed ==> k in a.sealed) ==> Shut(b, k))
    && (Concluded(a, k) ==> Concluded(b, k))
  }

  lemma TerminalizeKeeps(st: State, target: Run, s: SessionId, k: RunKey)
    requires Sound(st, k) && TerminalizeSource(st, target, s).Some?
    ensures Keeps(st, TerminalizeSource(st, target, s).value.0, k)
    ensures TerminalizeSource(st, target, s).value.0.runs.Keys == st.runs.Keys
  {
  }

  /** Eviction cancels the leased run and frees the session's slot. */
  lemma EvictKeeps(st: State, s: SessionId, k: RunKey)
    requires Sound(st, k) && s in st.admissions && Evict(st, s).Some?
    ensures Keeps(st, Evict(st, s).value, k)
    ensures s !in Evict(st, s).value.admissions
  {
    var key := RunKey(s, st.admissions[s].key.run);
    if st.runs[key].status.Active() {
      TerminalizeKeeps(st, st.runs[key], s, k);
    }
  }

  lemma {:induction false} EvictExpiredKeeps(st: State, order: seq<SessionId>, now: int, k: RunKey)
    requires Sound(st, k) && EvictExpired(st, order, now).Some?
    ensures Keeps(st, EvictExpired(st, order, now).value, k)
    decreases |order|
  {
    if order == [] {
    } else if order[0] in st.admissions && st.admissions[order[0]].ExpiredAt(now) {
      EvictKeeps(st, order[0], k);
      EvictExpiredKeeps(Evict(st, order[0]).value, order[1..], now, k);
    } else {
      EvictExpiredKeeps(st, order[1..], now, k);
    }
  }

  lemma AdmitKeeps(st: State, q: Acquire, k: RunKey)
    requires Sound(st, k) && Admissible(st, q) && q.key.session !in st.admissions
    requires q.replaced.Some? == q.claim.Some?
    ensures Keeps(st, Admit(st, q).0, k)
  {
  }

  lemma AcquireKeeps(st: State, q: Acquire, now: int, k: RunKey)
    requires Sound(st, k)
    ensures Keeps(st, AcquireAdmission(st, q, now).0, k)
  {
    if AcquireAdmission(st, q, now).0 != st {
      if q.key.session in st.admissions {
        EvictKeeps(st, q.key.session, k);
        AdmitKeeps(Evict(st, q.key.session).value, q, k);
      } else {
        AdmitKeeps(st, q, k);
      }
    }
  }

  lemma RelatedKeeps(st: State, c: Commit, k: RunKey)
    requires Sound(st, k) && RelatedApplies(st, c)
    requires c.related.Some? ==> c.related.value.terminal.Valid()
    ensures Keeps(st, WithRelated(st, c), k)
  {
  }

  lemma PrimaryKeeps(st: State, c: Commit, k: RunKey)
    requires Sound(st, k) && c.key !in st.sealed
    ensures Keeps(st, WithPrimary(st, c), k)
  {
  }

  lemma CommitKeeps(st: State, fence: Option<Lease>, c: Commit, now: int, k: RunKey)
    requires Sound(st, k)
    ensures Keeps(st, CommitEvidence(st, fence, c, now).0, k)
  {
    if CommitEvidence(st, fence, c, now).0 != st {
      RelatedKeeps(st, c, k);
      PrimaryKeeps(WithRelated(st, c), c, k);
    }
  }

  /** A status write to the leased run leaves every other run's fence alone. */
  lemma SetStatusKeeps(st: State, key: RunKey, p: Projection, k: RunKey)
    requires Sound(st, k) && key in st.runs && (Unleased(st, k) ==> k != key)
    ensures Keeps(st, SetStatus(st, key, p), k)
  {
  }

  lemma AbortKeeps(st: State, lease: Lease, source: RunId, claim: Token, note: Token, now: int, k: RunKey)
    requires Sound(st, k)
    ensures Keeps(st, AbortAdmitted(st, lease, source, claim, note, now).0, k)
  {
    if AbortAdmitted(st, lease, source, claim, note, now).0 != st {
      SetStatusKeeps(st, lease.key, Projection(Failed, Some(note), Some(PREPARATION_FAILED)), k);
    }
  }

  lemma FinalizeKeeps(st: State, lease: Lease, terminal: Projection, now: int, k: RunKey)
    requires Sound(st, k)
    ensures Keeps(st, Finalize(st, lease, terminal, now).0, k)
  {
    if Fresh(st, lease, now) && lease.key in st.runs {
      SetStatusKeeps(st, lease.key, terminal, k);
    }
  }

  lemma UpdateStatusKeeps(st: State, lease: Lease, status: RunStatus, preview: Option<Token>, now: int, k: RunKey)
    requires Sound(st, k)
    ensures Keeps(st, UpdateStatus(st, lease, status, preview, now).0, k)
  {
    if Fresh(st, lease, now) && lease.key in st.runs {
      SetStatusKeeps(st, lease.key, Projection(status, preview, None), k);
    }
  }

  lemma SlotWritesKeep(st: State, lease: Lease, expires: int, now: int, k: RunKey)
    requires Sound(st, k)
    ensures Keeps(st, Heartbeat(st, lease, expires, now).0, k)
    ensures Keeps(st, ReleaseAdmission(st, lease, now).0, k)
  {
  }

  lemma ClaimKeeps(st: State, key: RunKey, claim: Token, k: RunKey)
    requires Sound(st, k)
    ensures Keeps(st, ClaimResume(st, key, claim).0, k)
  {
  }

  lemma ReleaseKeeps(st: State, key: RunKey, claim: Token, k: RunKey)
    requires Sound(st, k)
    ensures Keeps(st, ReleaseClaim(st, key, claim).0, k)
  {
  }

  lemma StartKeeps(st: State, lease: Lease, source: RunId, claim: Token, now: int, k: RunKey)
    requires Sound(st, k)
    ensures Keeps(st, StartEffect(st, lease, source, claim, now).0, k)
  {
  }

  lemma MarkKeeps(st: State, key: RunKey, claim: Token, k: RunKey)
    requires Sound(st, k)
    ensures Keeps(st, MarkStarted(st, key, claim).0, k)
  {
  }

  lemma SaveSessionKeeps(st: State, session: SessionId, record: Session, k: RunKey)
    requires Sound(st, k)
    ensures Keeps(st, st.(sessions := st.sessions[session := record]), k)
  {
  }

  lemma AppendRunKeeps(st: State, key: RunKey, run: Run, k: RunKey)
    requires Sound(st, k) && key != k
    ensures Keeps(st, AppendRun(st, key, run).0, k)
  {
  }

  /** A status write to another run. */
  lemma OtherStatusKeeps(st: State, key: RunKey, p: Projection, k: RunKey)
    requires Sound(st, k) && key in st.runs && key != k
    ensures Keeps(st, SetStatus(st, key, p), k)
  {
  }

  lemma LegacyStatusKeeps(st: State, key: RunKey, status: RunStatus, preview: Option<Token>, k: RunKey)
    requires Sound(st, k) && key != k
    ensures Keeps(st, SetLegacyStatus(st, key, status, preview).0, k)
  {
    if key in st.runs {
      OtherStatusKeeps(st, key, Projection(status, None, Some(LEGACY_FAILED)), k);
      OtherStatusKeeps(st, key, Projection(status, preview, None), k);
    }
  }

  lemma CheckpointKeeps(st: State, fence: Option<Lease>, key: RunKey, status: RunStatus, stored: bool, intact: bool,
        now: int, k: RunKey)
    requires Sound(st, k)
    ensures Keeps(st, Checkpoint(st, fence, key, status, stored, intact, now).0, k)
  {
  }

  /** Every operation, with any arguments, keeps every record, seal, fence and conclusion, except
      that an unfenced overwrite may do anything to the status of the run it names. */
  lemma ApplyKeeps(st: State, op: Op, k: RunKey)
    requires Sound(st, k) && !Overwrites(op, k)
    ensures Keeps(st, Apply(st, op).0, k)
  {
    match op
    case OpClaim(key, claim) => ClaimKeeps(st, key, claim, k);
    case OpRelease(key, claim) => ReleaseKeeps(st, key, claim, k);
    case OpAcquire(q, now) => AcquireKeeps(st, q, now, k);
    case OpHeartbeat(lease, expires, now) => SlotWritesKeep(st, lease, expires, now, k);
    case OpStart(lease, source, claim, now) => StartKeeps(st, lease, source, claim, now, k);
    case OpAbort(lease, source, claim, note, now) => AbortKeeps(st, lease, source, claim, note, now, k);
    case OpCommit(fence, c, now) => CommitKeeps(st, fence, c, now, k);
    case OpUpdateStatus(lease, status, preview, now) => UpdateStatusKeeps(st, lease, status, preview, now, k);
    case OpFinalize(lease, terminal, now) => FinalizeKeeps(st, lease, terminal, now, k);
    case OpReleaseAdmission(lease, now) => SlotWritesKeep(st, lease, 0, now, k);
    case OpReconcile(order, now) =>
      if EvictExpired(st, order, now).Some? { EvictExpiredKeeps(st, order, now, k); }
    case OpLoad(key) =>
    case OpCheckpoint(fence, key, status, stored, intact, now) =>
      CheckpointKeeps(st, fence, key, status, stored, intact, now, k);
    case OpMark(key, claim) => MarkKeeps(st, key, claim, k);
    case OpSaveSession(session, record) => SaveSessionKeeps(st, session, record, k);
    case OpAppendRun(key, run) => AppendRunKeeps(st, key, run, k);
    case OpSetStatus(key, status, preview) => LegacyStatusKeeps(st, key, status, preview, k);
  }

  /** Even an overwrite leaves these alone. */
  lemma OverwriteKeeps(st: State, op: Op, k: RunKey)
    requires Overwrites(op, k) && Sound(st, k)
    ensures var next := Apply(st, op).0;
      Sound(next, k) && (k in st.runs ==> k in next.runs) && (k in next.sealed <==> k in st.sealed)
  {
  }

  // ---------------------------------------------------------------- the effect fence

  predicate StartsEffectOf(st: State, op: Op, k: RunKey) {
    op.OpStart? && RunKey(op.lease.key.session, op.source) == k && Apply(st, op).1.Done?
  }

  /** How often a history crosses the effect fence of `k`. */
  function Crossings(st: State, ops: seq<Op>, k: RunKey): nat
    decreases |ops|
  {
    if ops == [] then 0
    else (if StartsEffectOf(st, ops[0], k) then 1 else 0) + Crossings(Apply(st, ops[0]).0, ops[1..], k)
  }

  /** How often a history overwrites the record of `k` without a fence. */
  function OverwritesOf(ops: seq<Op>, k: RunKey): nat {
    if ops == [] then 0 else (if Overwrites(ops[0], k) then 1 else 0) + OverwritesOf(ops[1..], k)
  }

  /** The crossings a run has left: one while its fence is open, one more until its evidence is sealed. */
  function CrossingsLeft(st: State, k: RunKey): nat {
    (if Shut(st, k) then 0 else 1) + (if k in st.sealed then 0 else 1)
  }

  lemma StartSpendsCrossing(st: State, op: Op, k: RunKey)
    requires Sound(st, k) && StartsEffectOf(st, op, k)
    ensures CrossingsLeft(st, k) == CrossingsLeft(Apply(st, op).0, k) + 1
  {
  }

  /** Over any history, by any number of clients: every crossing of the effect fence spends one of
      the crossings left, and only an unfenced overwrite of the run can add one. */
  lemma {:induction false} CrossingsAreBounded(st: State, ops: seq<Op>, k: RunKey)
    requires Sound(st, k) && k in st.runs
    ensures Crossings(st, ops, k) <= CrossingsLeft(st, k) + OverwritesOf(ops, k)
    decreases |ops|
  {
    if ops != [] {
      var next := Apply(st, ops[0]).0;
      if Overwrites(ops[0], k) {
        OverwriteKeeps(st, ops[0], k);
      } else {
        ApplyKeeps(st, ops[0], k);
        if StartsEffectOf(st, ops[0], k) { StartSpendsCrossing(st, ops[0], k); }
      }
      CrossingsAreBounded(next, ops[1..], k);
    }
  }

  /** The approved effects of one waiting run whose evidence is sealed are released at most once,
      unless somebody overwrites its record. */
  lemma EffectFenceCrossedAtMostOnce(st: State, ops: seq<Op>, k: RunKey)
    requires Sound(st, k) && k in st.runs && k in st.sealed && OverwritesOf(ops, k) == 0
    ensures Crossings(st, ops, k) <= 1
    ensures Shut(st, k) ==> Crossings(st, ops, k) == 0
  {
    CrossingsAreBounded(st, ops, k);
  }

  /** A waiting run that a continuation can take up right now. */
  predicate Ready(st: State, k: RunKey) {
    && IsWaiting(st, k) && k !in st.claims && k.session !in st.admissions
    && k.session in st.sessions && st.sessions[k.session].open
    && (st.sessions[k.session].active.Some? ==> st.sessions[k.session].active == Some(k.run))
  }

  lemma {:induction false} HistoriesAdd(st: State, xs: seq<Op>, ys: seq<Op>, k: RunKey)
    ensures Crossings(st, xs + ys, k) == Crossings(st, xs, k) + Crossings(After(st, xs), ys, k)
    ensures OverwritesOf(xs + ys, k) == OverwritesOf(xs, k) + OverwritesOf(ys, k)
    ensures After(st, xs + ys) == After(After(st, xs), ys)
    decreases |xs|
  {
    if xs == [] {
      assert xs + ys == ys;
    } else {
      assert (xs + ys)[1..] == xs[1..] + ys;
      HistoriesAdd(Apply(st, xs[0]).0, xs[1..], ys, k);
    }
  }

  lemma ThreeSteps(st: State, x: Op, y: Op, z: Op)
    ensures After(st, [x, y, z]) == Apply(Apply(Apply(st, x).0, y).0, z).0
  {
    var a := Apply(st, x).0;
    var b := Apply(a, y).0;
    assert [x, y, z][1..] == [y, z] && [y, z][1..] == [z] && [z][1..] == [];
    assert After(a, [y, z]) == After(b, [z]) == After(Apply(b, z).0, []);
  }

  lemma ThreeOverwrites(x: Op, y: Op, z: Op, k: RunKey)
    ensures OverwritesOf([x, y, z], k) == (if Overwrites(x, k) then 1 else 0)
      + (if Overwrites(y, k) then 1 else 0) + (if Overwrites(z, k) then 1 else 0)
  {
    assert [x, y, z][1..] == [y, z] && [y, z][1..] == [z] && [z][1..] == [];
    assert OverwritesOf([y, z], k) == (if Overwrites(y, k) then 1 else 0) + OverwritesOf([z], k);
    assert OverwritesOf([z], k) == (if Overwrites(z, k) then 1 else 0) + OverwritesOf([], k);
  }

  lemma LastCrosses(st: State, x: Op, y: Op, z: Op, k: RunKey)
    requires !x.OpStart? && !y.OpStart? && StartsEffectOf(Apply(Apply(st, x).0, y).0, z, k)
    ensures Crossings(st, [x, y, z], k) == 1
  {
    var a := Apply(st, x).0;
    var b := Apply(a, y).0;
    assert [x, y, z][1..] == [y, z] && [y, z][1..] == [z] && [z][1..] == [];
    assert Crossings(st, [x, y, z], k) == Crossings(a, [y, z], k) == Crossings(b, [z], k);
    assert Crossings(b, [z], k) == 1 + Crossings(Apply(b, z).0, [], k);
  }

  // ---------------------------------------------------------------- one continuation, from claim to start

  /** The identifiers of a continuation are unused. */
  predicate Unused(st: State, k: RunKey, run: RunId, t: Token) {
    RunKey(k.session, run) !in st.runs && RunKey(k.session, run) !in st.sealed && t !in st.receipts && t != BLANK
  }

  function LeaseOf(st: State, k: RunKey, run: RunId, t: Token): Lease {
    Lease(RunKey(k.session, run), t, t, NextGeneration(st, k.session), 1)
  }

  function RequestOf(k: RunKey, run: RunId, t: Token): Acquire {
    Acquire(RunKey(k.session, run), Some(k.run), t, t, 1, t, t, Some(k.run), Some(t))
  }

  /** Claim, admission and start of one continuation. */
  function TakeUp(st: State, k: RunKey, run: RunId, t: Token): seq<Op> {
    [OpClaim(k, t), OpAcquire(RequestOf(k, run, t), 0), OpStart(LeaseOf(st, k, run, t), k.run, t, 0)]
  }

  lemma ClaimTaken(st: State, k: RunKey, t: Token)
    requires Ready(st, k) && t != BLANK
    ensures ClaimResume(st, k, t).0 == st.(claims := st.claims[k := Claim(t, Preflight)])
  {
  }

  /** The store with the continuation admitted and its claim in the given state. */
  function Taken(st: State, k: RunKey, run: RunId, t: Token, state: ClaimState): State {
    st.(sessions := st.sessions[k.session := Session(Some(run), true)],
        runs := st.runs[RunKey(k.session, run) := Run(Queued, Some(k.run), None, None, false)],
        claims := st.claims[k := Claim(t, state)],
        admissions := st.admissions[k.session := LeaseOf(st, k, run, t)],
        generations := st.generations[k.session := NextGeneration(st, k.session)],
        receipts := st.receipts[t := (t, LeaseOf(st, k, run, t))])
  }

  lemma AdmissionTaken(st: State, k: RunKey, run: RunId, t: Token)
    requires Ready(st, k) && Unused(st, k, run, t)
    ensures AcquireAdmission(st.(claims := st.claims[k := Claim(t, Preflight)]), RequestOf(k, run, t), 0).0
      == Taken(st, k, run, t, Admitted)
  {
    var a := st.(claims := st.claims[k := Claim(t, Preflight)]);
    assert Admissible(a, RequestOf(k, run, t));
    assert a.claims[k := Claim(t, Admitted)] == st.claims[k := Claim(t, Admitted)];
  }

  lemma StartTaken(st: State, k: RunKey, run: RunId, t: Token)
    requires Ready(st, k) && Unused(st, k, run, t)
    ensures StartEffect(Taken(st, k, run, t, Admitted), LeaseOf(st, k, run, t), k.run, t, 0)
      == (Taken(st, k, run, t, Started), Done)
  {
    var b := Taken(st, k, run, t, Admitted);
    assert BoundToWaitingSource(b, LeaseOf(st, k, run, t), k.run, 0);
    assert b.claims[k := Claim(t, Started)] == st.claims[k := Claim(t, Started)];
  }

  lemma TakeUpCrosses(st: State, k: RunKey, run: RunId, t: Token)
    requires Ready(st, k) && Unused(st, k, run, t)
    ensures Crossings(st, TakeUp(st, k, run, t), k) == 1 && OverwritesOf(TakeUp(st, k, run, t), k) == 0
    ensures After(st, TakeUp(st, k, run, t)) == Taken(st, k, run, t, Started)
  {
    var ops := TakeUp(st, k, run, t);
    ClaimTaken(st, k, t);
    AdmissionTaken(st, k, run, t);
    StartTaken(st, k, run, t);
    ThreeSteps(st, ops[0], ops[1], ops[2]);
    ThreeOverwrites(ops[0], ops[1], ops[2], k);
    LastCrosses(st, ops[0], ops[1], ops[2], k);
  }

  // ---------------------------------------------------------------- two ways to reopen a concluded run

  const DONE: Projection := Projection(Completed, None, None)

  /** The last step reopens: late unfenced evidence of the run itself, or an unfenced status write. */
  function Reopener(k: RunKey, t: Token, late: bool): Op {
    if late then OpCommit(None, Commit(k, Projection(Waiting, None, None), None, None, t, true), 0)
    else OpSetStatus(k, Waiting, None)
  }

  function Concluding(k: RunKey, lease: Lease, t: Token): Commit {
    Commit(lease.key, DONE, Some(k.run), Some(Related(k.run, Waiting, DONE, Some(t))), t, true)
  }

  /** The continuation commits and is finalized; then the run's terminal status is overwritten. */
  function Reopen(k: RunKey, lease: Lease, t: Token, late: bool): seq<Op> {
    [OpCommit(Some(lease), Concluding(k, lease, t), 0), OpFinalize(lease, DONE, 0), Reopener(k, t, late)]
  }

  /** What the reopening leaves alone, and what it seals. */
  predicate Sealing(a: State, b: State, key: RunKey, t: Token) {
    b.runs.Keys == a.runs.Keys && b.receipts == a.receipts && b.sealed == a.sealed[key := t]
  }

  lemma CommitAccepted(st: State, k: RunKey, run: RunId, t: Token)
    requires Ready(st, k) && Unused(st, k, run, t)
    ensures
      var lease := LeaseOf(st, k, run, t);
      var z, c := Taken(st, k, run, t, Started), Concluding(k, lease, t);
      CommitEvidence(z, Some(lease), c, 0) == (WithPrimary(WithRelated(z, c), c), Done)
  {
  }

  lemma CommitTaken(st: State, k: RunKey, run: RunId, t: Token)
    requires Ready(st, k) && Unused(st, k, run, t)
    ensures
      var lease := LeaseOf(st, k, run, t);
      var z := Taken(st, k, run, t, Started);
      var a := CommitEvidence(z, Some(lease), Concluding(k, lease, t), 0).0;
      && Sealing(z, a, lease.key, t) && a.runs[lease.key].status == Completed
      && k !in a.claims && a.admissions == z.admissions
      && a.sessions == z.sessions[k.session := Session(None, true)]
  {
    CommitAccepted(st, k, run, t);
  }

  lemma FinalizeTaken(a: State, lease: Lease)
    requires Fresh(a, lease, 0) && lease.key in a.runs && a.runs[lease.key].status == Completed
    ensures Finalize(a, lease, DONE, 0).0 == a.(admissions := a.admissions - {lease.key.session})
  {
  }

  /** The run is free to be written: its slot is empty and its claim is gone. */
  predicate Free(b: State, k: RunKey) {
    && k in b.runs && k !in b.claims && k.session !in b.admissions
    && k.session in b.sessions && b.sessions[k.session] == Session(None, true)
  }

  predicate Reopened(b: State, c: State, k: RunKey, t: Token, late: bool) {
    && Ready(c, k) && c.runs.Keys == b.runs.Keys && c.receipts == b.receipts
    && c.sealed == if late then b.sealed[k := t] else b.sealed
  }

  lemma LateEvidenceReopens(b: State, k: RunKey, t: Token)
    requires Free(b, k) && k !in b.sealed
    ensures
      var late := Commit(k, Projection(Waiting, None, None), None, None, t, true);
      Reopened(b, CommitEvidence(b, None, late, 0).0, k, t, true)
  {
  }

  lemma StatusWriteReopens(b: State, k: RunKey, t: Token)
    requires Free(b, k)
    ensures Reopened(b, SetLegacyStatus(b, k, Waiting, None).0, k, t, false)
  {
  }

  lemma ReopenerReadies(b: State, k: RunKey, t: Token, late: bool)
    requires Free(b, k) && (late ==> k !in b.sealed)
    ensures Reopened(b, Apply(b, Reopener(k, t, late)).0, k, t, late)
  {
    if late { LateEvidenceReopens(b, k, t); } else { StatusWriteReopens(b, k, t); }
  }

  /** What the whole reopening leaves alone. */
  predicate Renewed(z: State, c: State, key: RunKey, k: RunKey, t: Token, late: bool) {
    && Ready(c, k) && c.runs.Keys == z.runs.Keys && c.receipts == z.receipts
    && c.sealed == if late then z.sealed[key := t][k := t] else z.sealed[key := t]
  }

  lemma SealedThenReopened(z: State, b: State, c: State, key: RunKey, k: RunKey, t: Token, late: bool)
    requires Sealing(z, b, key, t) && Reopened(b, c, k, t, late)
    ensures Renewed(z, c, key, k, t, late)
  {
  }

  lemma ReopensConcluded(z: State, b: State, k: RunKey, key: RunKey, t: Token, late: bool)
    requires Sealing(z, b, key, t) && Free(b, k) && (late ==> k !in b.sealed)
    ensures Renewed(z, Apply(b, Reopener(k, t, late)).0, key, k, t, late)
  {
    ReopenerReadies(b, k, t, late);
    SealedThenReopened(z, b, Apply(b, Reopener(k, t, late)).0, key, k, t, late);
  }

  function ConcludedBy(z: State, k: RunKey, lease: Lease, t: Token): State {
    Finalize(CommitEvidence(z, Some(lease), Concluding(k, lease, t), 0).0, lease, DONE, 0).0
  }

  lemma ReopenSteps(z: State, k: RunKey, lease: Lease, t: Token, late: bool)
    ensures After(z, Reopen(k, lease, t, late)) == Apply(ConcludedBy(z, k, lease, t), Reopener(k, t, late)).0
  {
    ThreeSteps(z, OpCommit(Some(lease), Concluding(k, lease, t), 0), OpFinalize(lease, DONE, 0), Reopener(k, t, late));
  }

  /** The continuation has committed and been finalized: the run is free to be written again. */
  lemma Concludes(st: State, k: RunKey, run: RunId, t: Token)
    requires Ready(st, k) && Unused(st, k, run, t)
    ensures
      var z, lease := Taken(st, k, run, t, Started), LeaseOf(st, k, run, t);
      var b := ConcludedBy(z, k, lease, t);
      Sealing(z, b, lease.key, t) && Free(b, k)
  {
    var z, lease := Taken(st, k, run, t, Started), LeaseOf(st, k, run, t);
    CommitTaken(st, k, run, t);
    FinalizeTaken(CommitEvidence(z, Some(lease), Concluding(k, lease, t), 0).0, lease);
  }

  lemma ReopenReadies(st: State, k: RunKey, run: RunId, t: Token, late: bool)
    requires Ready(st, k) && Unused(st, k, run, t) && (late ==> k !in st.sealed)
    ensures
      var z, lease := Taken(st, k, run, t, Started), LeaseOf(st, k, run, t);
      Renewed(z, After(z, Reopen(k, lease, t, late)), lease.key, k, t, late)
  {
    var z, lease := Taken(st, k, run, t, Started), LeaseOf(st, k, run, t);
    Concludes(st, k, run, t);
    ReopensConcluded(z, ConcludedBy(z, k, lease, t), k, lease.key, t, late);
    ReopenSteps(z, k, lease, t, late);
  }

  /** A run that is taken up, concluded and reopened: one crossing, and it can be taken up again. */
  lemma TakeUpAndReopen(st: State, k: RunKey, run: RunId, t: Token, late: bool) returns (ops: seq<Op>)
    requires Ready(st, k) && Unused(st, k, run, t) && (late ==> k !in st.sealed)
    ensures Crossings(st, ops, k) >= 1 && OverwritesOf(ops, k) == (if late then 0 else 1)
    ensures Ready(After(st, ops), k) && (late || k in st.sealed ==> k in After(st, ops).sealed)
    ensures forall r, u :: Unused(st, k, r, u) && r != run && u != t ==> Unused(After(st, ops), k, r, u)
  {
    var x := TakeUp(st, k, run, t);
    var y := Reopen(k, LeaseOf(st, k, run, t), t, late);
    TakeUpCrosses(st, k, run, t);
    ReopenOverwrites(k, LeaseOf(st, k, run, t), t, late);
    HistoriesAdd(st, x, y, k);
    ReopenReadies(st, k, run, t, late);
    ReopenSpends(st, After(st, x), After(After(st, x), y), k, run, t, late);
    ops := x + y;
  }

  lemma ReopenOverwrites(k: RunKey, lease: Lease, t: Token, late: bool)
    ensures OverwritesOf(Reopen(k, lease, t, late), k) == if late then 0 else 1
  {
    var y := Reopen(k, lease, t, late);
    ThreeOverwrites(y[0], y[1], y[2], k);
  }

  /** Only the identifiers of this continuation are used up. */
  lemma ReopenSpends(st: State, z: State, next: State, k: RunKey, run: RunId, t: Token, late: bool)
    requires z == Taken(st, k, run, t, Started) && k in st.runs
    requires Renewed(z, next, RunKey(k.session, run), k, t, late)
    ensures late || k in st.sealed ==> k in next.sealed
    ensures forall r, u :: Unused(st, k, r, u) && r != run && u != t ==> Unused(next, k, r, u)
  {
  }

  /** Continuations to come, each under identifiers of its own. */
  predicate AllUnused(st: State, k: RunKey, ids: seq<(RunId, Token)>) {
    && (forall i :: 0 <= i < |ids| ==> Unused(st, k, ids[i].0, ids[i].1))
    && (forall i, j :: 0 <= i < j < |ids| ==> ids[i].0 != ids[j].0 && ids[i].1 != ids[j].1)
  }

  /** The bound of `CrossingsAreBounded` is met: with n overwrites a sealed run that can be taken up
      is crossed n + 1 times, and one that is not sealed once more. */
  lemma {:induction false} CrossingsReachTheBound(st: State, k: RunKey, ids: seq<(RunId, Token)>) returns (ops: seq<Op>)
    requires Ready(st, k) && AllUnused(st, k, ids) && |ids| >= CrossingsLeft(st, k)
    ensures Crossings(st, ops, k) >= |ids|
    ensures OverwritesOf(ops, k) == |ids| - CrossingsLeft(st, k)
    decreases |ids|
  {
    var (run, t) := ids[0];
    if |ids| == 1 {
      TakeUpCrosses(st, k, run, t);
      ops := TakeUp(st, k, run, t);
    } else {
      var first := TakeUpAndReopen(st, k, run, t, k !in st.sealed);
      var mid := After(st, first);
      var rest := CrossingsReachTheBound(mid, k, ids[1..]);
      HistoriesAdd(st, first, rest, k);
      ops := first + rest;
    }
  }

  /** For a run that can be taken up now: no history without overwrites crosses its fence twice if
      and only if its evidence is already sealed. */
  lemma SealDecidesExclusivity(st: State, k: RunKey, first: RunId, second: RunId, t: Token, u: Token)
    requires Sound(st, k) && Ready(st, k)
    requires Unused(st, k, first, t) && Unused(st, k, second, u) && first != second && t != u
    ensures k in st.sealed <==> forall ops :: OverwritesOf(ops, k) == 0 ==> Crossings(st, ops, k) <= 1
  {
    if k in st.sealed {
      forall ops | OverwritesOf(ops, k) == 0
        ensures Crossings(st, ops, k) <= 1
      {
        EffectFenceCrossedAtMostOnce(st, ops, k);
      }
    } else {
      var ops := CrossingsReachTheBound(st, k, [(first, t), (second, u)]);
    }
  }
}
