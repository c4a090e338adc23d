/** The in-memory session store: one object whose tables the operations update in place. */
module InMemoryStore {
  import opened Basics
  import opened Store

  class InMemorySessionStore {
    var sessions: map<SessionId, Session>
    var runs: map<RunKey, Run>
    var claims: map<RunKey, Claim>
    var admissions: map<SessionId, Lease>
    var generations: map<SessionId, nat>
    var receipts: map<Token, (Token, Lease)>
    var sealed: map<RunKey, Token>

    constructor ()
      ensures View() == State(map[], map[], map[], map[], map[], map[], map[])
    {
      sessions, runs, claims, admissions := map[], map[], map[], map[];
      generations, receipts, sealed := map[], map[], map[];
    }

    function View(): State
      reads this
    {
      State(sessions, runs, claims, admissions, generations, receipts, sealed)
    }

    /** A staged copy, to be worked on and installed or thrown away. */
    constructor Copy(other: InMemorySessionStore)
      ensures View() == other.View()
    {
      sessions, runs, claims, admissions := other.sessions, other.runs, other.claims, other.admissions;
      generations, receipts, sealed := other.generations, other.receipts, other.sealed;
    }

    /** Replaces the tables by those of a staged copy. */
    method Install(staged: InMemorySessionStore)
      modifies this
      ensures View() == old(staged.View())
    {
      sessions, runs, claims, admissions := staged.sessions, staged.runs, staged.claims, staged.admissions;
      generations, receipts, sealed := staged.generations, staged.receipts, staged.sealed;
    }

    predicate LeaseIsFresh(lease: Lease, now: int)
      reads this
    {
      && lease.key.session in admissions
      && admissions[lease.key.session].SameOwner(lease)
      && !admissions[lease.key.session].ExpiredAt(now)
    }

    method ApplyRunStatus(key: RunKey, p: Projection)
      requires key in runs
      modifies this
      ensures View() == SetStatus(old(View()), key, p)
    {
      var run := runs[key];
      if run.status == p.status && run.preview == p.preview && run.error == p.error { return; }
      runs := runs[key := run.(status := p.status, preview := p.preview, error := p.error)];
      PointSession(key, p.status);
    }

    method ClaimHitlResume(key: RunKey, claim: Token) returns (reply: Reply)
      modifies this
      ensures (View(), reply) == ClaimResume(old(View()), key, claim)
    {
      if claim == BLANK || key !in runs || runs[key].status != Waiting { return Err; }
      if key in claims {
        return if claims[key] == Claim(claim, Preflight) then Done else Err;
      }
      claims := claims[key := Claim(claim, Preflight)];
      return Done;
    }

    method ReleaseHitlResumeClaim(key: RunKey, claim: Token) returns (reply: Reply)
      modifies this
      ensures (View(), reply) == ReleaseClaim(old(View()), key, claim)
    {
      if key !in claims { return Done; }
      if claims[key].id != claim || claims[key].state != Preflight { return Err; }
      claims := claims - {key};
      return Done;
    }

    /** Whether the lease is the live admission of an active run continuing a waiting source. */
    predicate ContinuesWaiting(lease: Lease, source: RunId, now: int)
      reads this
    {
      && LeaseIsFresh(lease, now)
      && lease.key in runs && runs[lease.key].restoreFrom == Some(source) && runs[lease.key].status.Active()
      && RunKey(lease.key.session, source) in runs && runs[RunKey(lease.key.session, source)].status == Waiting
    }

    method StartHitlResumeEffect(lease: Lease, source: RunId, claim: Token, now: int) returns (reply: Reply)
      modifies this
      ensures (View(), reply) == StartEffect(old(View()), lease, source, claim, now)
    {
      if !ContinuesWaiting(lease, source, now) { return Err; }
      var key := RunKey(lease.key.session, source);
      if key !in claims { return Err; }
      if claims[key].id != claim || claims[key].state != Admitted { return Err; }
      claims := claims[key := claims[key].(state := Started)];
      return Done;
    }

    method AbortAdmittedHitlResume(lease: Lease, source: RunId, claim: Token, note: Token, now: int)
        returns (reply: Reply)
      modifies this
      ensures (View(), reply) == AbortAdmitted(old(View()), lease, source, claim, note, now)
    {
      if !ContinuesWaiting(lease, source, now) { return Err; }
      var key := RunKey(lease.key.session, source);
      if key !in claims || claims[key].id != claim { return Err; }
      if claims[key].state == Started { return Aborted(EffectStarted); }
      if claims[key].state != Admitted { return Err; }
      ApplyRunStatus(lease.key, Projection(Failed, Some(note), Some(PREPARATION_FAILED)));
      claims := claims - {key};
      return Aborted(AbortedBeforeEffect);
    }

    /** Consumes the claim of a replacement's waiting source, cancelling the source if its fence had
        been crossed. */
    method TerminalizeStartedHitlSource(target: Run, session: SessionId) returns (started: Option<bool>)
      modifies this
      ensures
        match TerminalizeSource(old(View()), target, session)
        case None => started == None
        case Some((next, crossed)) => started == Some(crossed) && View() == next
    {
      if target.restoreFrom.None? { return Some(false); }
      var key := RunKey(session, target.restoreFrom.value);
      if key !in runs { return None; }
      if runs[key].status != Waiting { return Some(false); }
      if key !in claims || claims[key].state == Preflight { return None; }
      var crossed := claims[key].state == Started;
      if crossed {
        runs := runs[key := Run(Cancelled, runs[key].restoreFrom, Some(LEASE_EXPIRED), Some(LEASE_EXPIRED), true)];
      }
      claims := claims - {key};
      return Some(crossed);
    }

    /** Cancels the run of an expired admission and drops the admission. */
    method EvictAdmission(session: SessionId) returns (ok: bool)
      requires session in admissions
      modifies this
      ensures ok == Evict(old(View()), session).Some?
      ensures ok ==> View() == Evict(old(View()), session).value
    {
      var key := RunKey(session, admissions[session].key.run);
      if key !in runs { return false; }
      if runs[key].status.Active() {
        var started := TerminalizeStartedHitlSource(runs[key], session);
        if started.None? { return false; }
        var marked := runs[key].indeterminate || started.value;
        runs := runs[key := Run(Cancelled, runs[key].restoreFrom, Some(LEASE_EXPIRED), Some(LEASE_EXPIRED), marked)];
      }
      admissions := admissions - {session};
      if session in sessions && sessions[session].active == Some(key.run) {
        sessions := sessions[session := sessions[session].(active := None)];
      }
      return true;
    }

    /** Whether the request may take the session: its active run, if any, must be the replaced one. */
    method MayAdmit(q: Acquire) returns (ok: bool)
      ensures ok == Admissible(View(), q)
    {
      if q.key.session !in sessions { return false; }
      var session := sessions[q.key.session];
      if !session.open { return false; }
      if session.active.Some? || q.replaced.Some? {
        var source := if session.active.Some? then session.active.value else q.replaced.value;
        if q.replaced != Some(source) || q.restoreFrom != Some(source) { return false; }
        var key := RunKey(q.key.session, source);
        if key !in runs || runs[key].status != Waiting { return false; }
      }
      if q.replaced.Some? && q.claim.Some? {
        var key := RunKey(q.key.session, q.replaced.value);
        if key !in claims || claims[key].id != q.claim.value || claims[key].state != Preflight { return false; }
      }
      return q.key !in runs;
    }

    /** Records the admitted run, advances its claim and hands out the lease. */
    method AdmitRun(q: Acquire) returns (lease: Lease)
      requires Admissible(View(), q)
      modifies this
      ensures (View(), lease) == Admit(old(View()), q)
    {
      if q.replaced.Some? && q.claim.Some? {
        var key := RunKey(q.key.session, q.replaced.value);
        claims := claims[key := claims[key].(state := Admitted)];
      }
      var generation := if q.key.session in generations then generations[q.key.session] + 1 else 1;
      generations := generations[q.key.session := generation];
      lease := Lease(q.key, q.admission, q.host, generation, q.expires);
      runs := runs[q.key := Run(Queued, q.restoreFrom, None, None, false)];
      sessions := sessions[q.key.session := sessions[q.key.session].(active := Some(q.key.run))];
      admissions := admissions[q.key.session := lease];
      receipts := receipts[q.idempotency := (q.fingerprint, lease)];
    }

    method AcquireRunAdmission(q: Acquire, now: int) returns (reply: Reply)
      modifies this
      ensures (View(), reply) == AcquireAdmission(old(View()), q, now)
    {
      if q.idempotency in receipts {
        return if receipts[q.idempotency].0 == q.fingerprint then Leased(receipts[q.idempotency].1) else Err;
      }
      if q.replaced.Some? != q.claim.Some? { return Err; }
      var staged := new InMemorySessionStore.Copy(this);
      if q.key.session in admissions {
        if !admissions[q.key.session].ExpiredAt(now) { return Err; }
        var evicted := staged.EvictAdmission(q.key.session);
        if !evicted { return Err; }
      }
      var admissible := staged.MayAdmit(q);
      if !admissible { return Err; }
      var lease := staged.AdmitRun(q);
      Install(staged);
      return Leased(lease);
    }

    method HeartbeatRunAdmission(lease: Lease, expires: int, now: int) returns (reply: Reply)
      modifies this
      ensures (View(), reply) == Heartbeat(old(View()), lease, expires, now)
    {
      if !LeaseIsFresh(lease, now) { return Err; }
      admissions := admissions[lease.key.session := admissions[lease.key.session].(expires := expires)];
      return Leased(admissions[lease.key.session]);
    }

    method ReleaseRunAdmission(lease: Lease, now: int) returns (reply: Reply)
      modifies this
      ensures (View(), reply) == ReleaseAdmission(old(View()), lease, now)
    {
      if lease.key.session !in admissions { return Done; }
      if !LeaseIsFresh(lease, now) { return Err; }
      admissions := admissions - {lease.key.session};
      return Done;
    }

    method UpdateRunStatusFenced(lease: Lease, status: RunStatus, preview: Option<Token>, now: int)
        returns (reply: Reply)
      modifies this
      ensures (View(), reply) == UpdateStatus(old(View()), lease, status, preview, now)
    {
      if status.Terminal() || !LeaseIsFresh(lease, now) || lease.key !in runs { return Err; }
      ApplyRunStatus(lease.key, Projection(status, preview, None));
      return Done;
    }

    method FinalizeRunAdmission(lease: Lease, terminal: Projection, now: int) returns (reply: Reply)
      modifies this
      ensures (View(), reply) == Finalize(old(View()), lease, terminal, now)
    {
      if terminal.status.Active() { return Err; }
      if lease.key.session !in admissions {
        if lease.key !in runs { return Err; }
        var run := runs[lease.key];
        return if Projection(run.status, run.preview, run.error) == terminal then Done else Err;
      }
      if !LeaseIsFresh(lease, now) || lease.key !in runs { return Err; }
      if !runs[lease.key].status.Terminal() {
        if !terminal.Valid() { return Err; }
        ApplyRunStatus(lease.key, terminal);
      }
      admissions := admissions - {lease.key.session};
      return Done;
    }

    /** Whether the source's started claim authorises the update that a commit carries. */
    predicate Authorizes(c: Commit)
      reads this
    {
      c.related.Some? ==>
        var key := RunKey(c.key.session, c.related.value.run);
        key in claims && c.related.value.claim == Some(claims[key].id) && claims[key].state == Started
    }

    /** Gives the source its terminal status and consumes the claim. */
    method ApplyRelatedEvidence(c: Commit) returns (ok: bool)
      modifies this
      ensures ok == RelatedApplies(old(View()), c)
      ensures ok ==> View() == WithRelated(old(View()), c)
    {
      if c.related.Some? {
        var key := RunKey(c.key.session, c.related.value.run);
        if key !in runs || runs[key].status != c.related.value.expected { return false; }
        ApplyRunStatus(key, c.related.value.terminal);
        claims := claims - {key};
      }
      return true;
    }

    /** Records the continuation's outcome and seals its evidence. */
    method ApplyPrimaryEvidence(c: Commit)
      modifies this
      ensures View() == WithPrimary(old(View()), c)
    {
      var kept := c.key in runs && runs[c.key].indeterminate;
      runs := runs[c.key := Run(c.outcome.status, c.restoreFrom, c.outcome.preview, c.outcome.error, kept)];
      PointSession(c.key, c.outcome.status);
      sealed := sealed[c.key := c.digest];
    }

    method CommitRunEvidence(fence: Option<Lease>, c: Commit, now: int) returns (reply: Reply)
      modifies this
      ensures (View(), reply) == CommitEvidence(old(View()), fence, c, now)
    {
      if fence.Some? && fence.value.key != c.key { return Err; }
      if !WellFormedCommit(c) { return Err; }
      if c.key in sealed {
        return if sealed[c.key] == c.digest && c.key in runs then Done else Err;
      }
      if !WritableOutcome(c.outcome) || (c.related.Some? && !c.related.value.terminal.Valid()) { return Err; }
      if fence.Some? && !LeaseIsFresh(fence.value, now) { return Err; }
      if !Authorizes(c) || c.key.session !in sessions { return Err; }
      var staged := new InMemorySessionStore.Copy(this);
      var applied := staged.ApplyRelatedEvidence(c);
      if !applied { return Err; }
      staged.ApplyPrimaryEvidence(c);
      Install(staged);
      return Done;
    }

    /** Evicts every expired admission of the given sessions on a staged copy. */
    method ReconcileExpiredRunAdmissions(order: seq<SessionId>, now: int) returns (reply: Reply)
      modifies this
      ensures (View(), reply) == Reconcile(old(View()), order, now)
    {
      var staged := new InMemorySessionStore.Copy(this);
      var i := 0;
      while i < |order|
        invariant 0 <= i <= |order|
        invariant EvictExpired(old(View()), order, now) == EvictExpired(staged.View(), order[i..], now)
        invariant View() == old(View()) && fresh(staged)
      {
        assert order[i..][1..] == order[i + 1..];
        if order[i] in staged.admissions && staged.admissions[order[i]].ExpiredAt(now) {
          var evicted := staged.EvictAdmission(order[i]);
          if !evicted { return Err; }
        }
        i := i + 1;
      }
      Install(staged);
      return Done;
    }

    /** Moves the session's active pointer after a run record was written. */
    method PointSession(key: RunKey, status: RunStatus)
      modifies this`sessions
      ensures sessions == Pointed(old(sessions), key, status)
    {
      if key.session in sessions {
        var session := sessions[key.session];
        if status.Active() {
          sessions := sessions[key.session := session.(active := Some(key.run))];
        } else if session.active == Some(key.run) {
          sessions := sessions[key.session := session.(active := None)];
        }
      }
    }

    method CommitCheckpoint(fence: Option<Lease>, key: RunKey, status: RunStatus, stored: bool, intact: bool, now: int)
        returns (reply: Reply)
      modifies this
      ensures (View(), reply) == Checkpoint(old(View()), fence, key, status, stored, intact, now)
    {
      if fence.Some? && fence.value.key != key { return Err; }
      if !intact { return Err; }
      if fence.Some? {
        if stored { return Done; }
        if !LeaseIsFresh(fence.value, now) { return Err; }
      }
      if key.session !in sessions { sessions := sessions[key.session := Session(None, true)]; }
      if key !in runs {
        var recorded := CheckpointStatus(status);
        var error := if recorded == Failed || recorded == Cancelled then Some(CHECKPOINT_FAILED) else None;
        runs := runs[key := Run(recorded, None, None, error, false)];
        PointSession(key, recorded);
      }
      return Done;
    }

    method MarkHitlResumeStarted(key: RunKey, claim: Token) returns (reply: Reply)
      modifies this
      ensures (View(), reply) == MarkStarted(old(View()), key, claim)
    {
      if key !in claims || claims[key].id != claim { return Err; }
      if claims[key].state == Preflight { claims := claims[key := claims[key].(state := Started)]; }
      return Done;
    }

    method SaveSession(session: SessionId, record: Session) returns (reply: Reply)
      modifies this
      ensures (View(), reply) == Apply(old(View()), OpSaveSession(session, record))
    {
      sessions := sessions[session := record];
      return Done;
    }

    method AppendRunRecord(key: RunKey, run: Run) returns (reply: Reply)
      modifies this
      ensures (View(), reply) == AppendRun(old(View()), key, run)
    {
      if !WritableOutcome(Projection(run.status, run.preview, run.error)) || key.session !in sessions { return Err; }
      runs := runs[key := run];
      PointSession(key, run.status);
      return Done;
    }

    method UpdateRunStatus(key: RunKey, status: RunStatus, preview: Option<Token>) returns (reply: Reply)
      modifies this
      ensures (View(), reply) == SetLegacyStatus(old(View()), key, status, preview)
    {
      if key !in runs { return Err; }
      if status == Failed || status == Cancelled {
        ApplyRunStatus(key, Projection(status, None, Some(LEGACY_FAILED)));
      } else {
        ApplyRunStatus(key, Projection(status, preview, None));
      }
      return Done;
    }

    method LoadRun(key: RunKey) returns (reply: Reply)
      ensures (View(), reply) == Load(View(), key)
    {
      return if key in runs then Loaded(runs[key]) else Err;
    }
  }
}
