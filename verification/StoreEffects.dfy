/**
  What each operation of the session store promises its callers: who may do it, what it undoes, what
  it leaves alone, and what a repetition does.
*/
module StoreEffects {
  import opened Basics
  import opened Store
  import opened ResumeSafety

  // ---------------------------------------------------------------- claims

  /** A claim is had by one at a time: a second id is refused, the same id is accepted again, its
      release puts everything back, and only its owner can release it. */
  lemma ClaimIsExclusive(st: State, k: RunKey, c: Token, d: Token)
    requires ClaimResume(st, k, c).1 == Done && k !in st.claims && d != c
    ensures
      var next := ClaimResume(st, k, c).0;
      && ClaimResume(next, k, c) == (next, Done) && ClaimResume(next, k, d) == (next, Err)
      && ReleaseClaim(next, k, d) == (next, Err) && ReleaseClaim(next, k, c) == (st, Done)
      && next.(claims := st.claims) == st && next.claims.Keys == st.claims.Keys + {k}
      && forall other :: other in st.claims ==> next.claims[other] == st.claims[other]
  {
    var next := ClaimResume(st, k, c).0;
    assert next.claims - {k} == st.claims;
  }

  /** Who can claim: anyone with a name, while the run waits and is not claimed by someone else or past preflight. */
  lemma ClaimableExactly(st: State, k: RunKey, c: Token)
    ensures ClaimResume(st, k, c).1 == Done <==>
      && c != 0 && k in st.runs && st.runs[k].status == Waiting
      && (k in st.claims ==> st.claims[k].id == c && st.claims[k].state == Preflight)
    ensures ClaimResume(st, k, c).1 != Done ==> ClaimResume(st, k, c) == (st, Err)
    ensures ReleaseClaim(st, k, c).1 == Done <==> k in st.claims ==> st.claims[k] == Claim(c, Preflight)
    ensures ReleaseClaim(st, k, c).1 != Done ==> ReleaseClaim(st, k, c) == (st, Err)
  {
  }

  // ---------------------------------------------------------------- the fence

  /** The lease is the session's, and has not run out. */
  predicate Live(st: State, lease: Lease, now: int) {
    && lease.key.session in st.admissions
    && var held := st.admissions[lease.key.session];
    && held.key == lease.key && held.admission == lease.admission && held.host == lease.host
    && held.generation == lease.generation && now < held.expires
  }

  /** A live lease of an active run that continues the waiting run `source`, claimed under `c`. */
  predicate Continues(st: State, lease: Lease, source: RunId, c: Token, now: int) {
    && Live(st, lease, now) && lease.key in st.runs && !st.runs[lease.key].status.Terminal()
    && st.runs[lease.key].restoreFrom == Some(source)
    && var k := RunKey(lease.key.session, source);
    && k in st.runs && st.runs[k].status == Waiting && k in st.claims && st.claims[k].id == c
  }

  /** The fence lets exactly one through: the admitted claim of a live continuation. After that it
      stays shut, an abort finds the effect started, and the claim cannot be released. */
  lemma FenceLetsOneThrough(st: State, lease: Lease, source: RunId, c: Token, now: int, d: Token, note: Token)
    ensures
      var k := RunKey(lease.key.session, source);
      var (next, reply) := StartEffect(st, lease, source, c, now);
      && (reply == Done <==> Continues(st, lease, source, c, now) && st.claims[k].state == Admitted)
      && (reply != Done ==> next == st && reply == Err)
      && (reply == Done ==>
            && next.(claims := st.claims) == st && next.claims == st.claims[k := Claim(c, Started)]
            && StartEffect(next, lease, source, d, now) == (next, Err)
            && AbortAdmitted(next, lease, source, c, note, now) == (next, Aborted(EffectStarted))
            && ReleaseClaim(next, k, c) == (next, Err) && ClaimResume(next, k, d) == (next, Err))
  {
  }

  /** An abort before the fence fails the continuation and frees the source, which waits as before and
      can be claimed again; past the fence it changes nothing and says so. */
  lemma AbortFreesSource(st: State, lease: Lease, source: RunId, c: Token, note: Token, now: int)
    ensures
      var k := RunKey(lease.key.session, source);
      var (next, reply) := AbortAdmitted(st, lease, source, c, note, now);
      && (reply == Aborted(AbortedBeforeEffect) <==>
            Continues(st, lease, source, c, now) && st.claims[k].state == Admitted)
      && (reply == Aborted(EffectStarted) <==>
            Continues(st, lease, source, c, now) && st.claims[k].state == Started)
      && (reply != Aborted(AbortedBeforeEffect) ==> next == st)
      && (reply == Aborted(AbortedBeforeEffect) && k != lease.key ==>
            && k !in next.claims && k in next.runs && next.runs[k] == st.runs[k]
            && (forall d :: d != 0 ==> ClaimResume(next, k, d).1 == Done)
            && lease.key in next.runs && next.runs[lease.key].status == Failed
            && next.runs[lease.key].preview == Some(note) && next.runs[lease.key].error.Some?
            && next.admissions == st.admissions && next.sealed == st.sealed)
  {
  }

  // ---------------------------------------------------------------- leases

  /** A renewal moves the expiry of the caller's own live lease and nothing else. */
  lemma RenewalExtends(st: State, lease: Lease, expires: int, now: int, later: int)
    ensures
      var (next, reply) := Heartbeat(st, lease, expires, now);
      && (reply.Leased? <==> Live(st, lease, now))
      && (!reply.Leased? ==> next == st && reply == Err)
      && (reply.Leased? ==>
            && next.(admissions := st.admissions) == st
            && reply.lease == st.admissions[lease.key.session].(expires := expires)
            && next.admissions == st.admissions[lease.key.session := reply.lease]
            && (Live(next, lease, later) <==> later < expires))
  {
  }

  /** Only a live owner gives a lease back; giving back what is gone already is no error. */
  lemma ReturnedLeaseIsGone(st: State, lease: Lease, now: int)
    ensures
      var (next, reply) := ReleaseAdmission(st, lease, now);
      && (reply == Done <==> lease.key.session !in st.admissions || Live(st, lease, now))
      && (reply == Done ==> next == st.(admissions := st.admissions - {lease.key.session}))
      && (reply != Done ==> next == st && reply == Err)
      && (reply == Done ==> ReleaseAdmission(next, lease, now) == (next, Done))
  {
    if lease.key.session !in st.admissions { assert st.admissions - {lease.key.session} == st.admissions; }
    var next := ReleaseAdmission(st, lease, now).0;
    assert next.admissions - {lease.key.session} == next.admissions
      || ReleaseAdmission(st, lease, now).1 != Done;
  }

  // ---------------------------------------------------------------- status writes

  /** Nothing but the record of `k` and its session's pointer differ. */
  ghost predicate OnlyRecord(a: State, b: State, k: RunKey) {
    && b.(runs := a.runs, sessions := a.sessions) == a
    && (forall other :: other != k ==> (other in b.runs <==> other in a.runs))
    && (forall other :: other != k && other in a.runs && other in b.runs ==> b.runs[other] == a.runs[other])
    && b.sessions.Keys == a.sessions.Keys
    && (forall s :: s in a.sessions && s != k.session ==> b.sessions[s] == a.sessions[s])
  }

  /** The pointer of a session names the run last written as active, and is given up by that very run
      when it ends; a run that is not pointed at ends without touching it. */
  predicate PointerFollows(a: State, b: State, k: RunKey, status: RunStatus) {
    k.session in a.sessions && k.session in b.sessions ==>
      && b.sessions[k.session].open == a.sessions[k.session].open
      && b.sessions[k.session].active ==
           if !status.Terminal() then Some(k.run)
           else if a.sessions[k.session].active == Some(k.run) then None
           else a.sessions[k.session].active
  }

  lemma WriteTouches(st: State, k: RunKey, p: Projection)
    requires k in st.runs
    ensures OnlyRecord(st, SetStatus(st, k, p), k) && k in SetStatus(st, k, p).runs
  {
  }

  lemma StatusWrite(st: State, k: RunKey, p: Projection)
    requires k in st.runs
    ensures
      var next := SetStatus(st, k, p);
      && OnlyRecord(st, next, k) && k in next.runs
      && next.runs[k] == Run(p.status, st.runs[k].restoreFrom, p.preview, p.error, st.runs[k].indeterminate)
      && (if next.runs[k] == st.runs[k] then next == st else PointerFollows(st, next, k, p.status))
  {
    WriteTouches(st, k, p);
  }

  /** The fenced update: the owner of a live lease may give its own run any live status. */
  lemma FencedUpdate(st: State, lease: Lease, status: RunStatus, preview: Option<Token>, now: int)
    ensures
      var (next, reply) := UpdateStatus(st, lease, status, preview, now);
      && (reply == Done <==> !status.Terminal() && Live(st, lease, now) && lease.key in st.runs)
      && (reply != Done ==> next == st && reply == Err)
      && (reply == Done ==>
            && OnlyRecord(st, next, lease.key) && lease.key in next.runs
            && next.runs[lease.key].status == status && next.runs[lease.key].preview == preview
            && next.runs[lease.key].error == None
            && (next != st ==> PointerFollows(st, next, lease.key, status)))
  {
    if lease.key in st.runs { StatusWrite(st, lease.key, Projection(status, preview, None)); }
  }

  /** The older update needs no lease; a failure or a cancellation gets a diagnostic and no preview. */
  lemma UnfencedUpdate(st: State, k: RunKey, status: RunStatus, preview: Option<Token>)
    ensures
      var (next, reply) := SetLegacyStatus(st, k, status, preview);
      && (reply == Done <==> k in st.runs) && (reply != Done ==> next == st && reply == Err)
      && (reply == Done ==>
            && OnlyRecord(st, next, k) && k in next.runs && next.runs[k].status == status
            && next.runs[k].error.Some? == (status == Failed || status == Cancelled)
            && next.runs[k].preview == (if status == Failed || status == Cancelled then None else preview)
            && (next != st ==> PointerFollows(st, next, k, status)))
  {
    if k in st.runs {
      StatusWrite(st, k, Projection(status, None, Some(LEGACY_FAILED)));
      StatusWrite(st, k, Projection(status, preview, None));
    }
  }

  /** Appending a record replaces it whole, if it is complete and its session exists. */
  lemma AppendedRecord(st: State, k: RunKey, run: Run)
    ensures
      var (next, reply) := AppendRun(st, k, run);
      && (reply == Done <==>
            && k.session in st.sessions
            && (run.status == Failed ==> run.error.Some?)
            && (run.status != Failed && run.status != Cancelled ==> run.error.None?))
      && (reply != Done ==> next == st && reply == Err)
      && (reply == Done ==>
            OnlyRecord(st, next, k) && k in next.runs && next.runs[k] == run && PointerFollows(st, next, k, run.status))
  {
  }

  /** Who may checkpoint, and what no checkpoint touches. */
  lemma CheckpointAccepted(st: State, fence: Option<Lease>, k: RunKey, status: RunStatus, stored: bool, intact: bool,
        now: int)
    ensures
      var (next, reply) := Checkpoint(st, fence, k, status, stored, intact, now);
      && (reply == Done <==>
            intact && (fence.Some? ==> fence.value.key == k && (stored || Live(st, fence.value, now))))
      && (reply != Done || (fence.Some? && stored) ==> next == st)
      && next.(runs := st.runs, sessions := st.sessions) == st
  {
  }

  lemma CheckpointKeepsRecorded(st: State, fence: Option<Lease>, k: RunKey, status: RunStatus, stored: bool,
        intact: bool, now: int)
    requires Checkpoint(st, fence, k, status, stored, intact, now).1 == Done && !(fence.Some? && stored)
    requires k in st.runs
    ensures
      var next := Checkpoint(st, fence, k, status, stored, intact, now).0;
      && k.session in next.sessions && next.runs == st.runs && (k.session in st.sessions ==> next == st)
  {
  }

  lemma CheckpointMakesRecord(st: State, fence: Option<Lease>, k: RunKey, status: RunStatus, stored: bool,
        intact: bool, now: int)
    requires Checkpoint(st, fence, k, status, stored, intact, now).1 == Done && !(fence.Some? && stored)
    requires k !in st.runs
    ensures
      var next := Checkpoint(st, fence, k, status, stored, intact, now).0;
      var recorded := if status == Queued || status == Starting then Running else status;
      && k.session in next.sessions && k in next.runs && next.runs == st.runs[k := next.runs[k]]
      && next.runs[k].status == recorded && next.runs[k].restoreFrom == None && next.runs[k].preview == None
      && next.runs[k].error.Some? == (status == Failed || status == Cancelled) && !next.runs[k].indeterminate
      && (k.session in st.sessions ==> PointerFollows(st, next, k, recorded))
  {
  }

  /** A checkpoint of a recorded run changes no record; of an unknown one it makes a record, running
      where the checkpoint says queued or starting, with a diagnostic if it has failed. */
  lemma CheckpointRecords(st: State, fence: Option<Lease>, k: RunKey, status: RunStatus, stored: bool, intact: bool,
        now: int)
    requires Checkpoint(st, fence, k, status, stored, intact, now).1 == Done && !(fence.Some? && stored)
    ensures
      var next := Checkpoint(st, fence, k, status, stored, intact, now).0;
      var recorded := if status == Queued || status == Starting then Running else status;
      && k.session in next.sessions && k in next.runs
      && (k in st.runs ==> next.runs == st.runs && (k.session in st.sessions ==> next == st))
      && (k !in st.runs ==>
            && next.runs == st.runs[k := next.runs[k]] && next.runs[k].status == recorded
            && next.runs[k].restoreFrom == None && next.runs[k].preview == None && !next.runs[k].indeterminate
            && next.runs[k].error.Some? == (status == Failed || status == Cancelled)
            && (k.session in st.sessions ==> PointerFollows(st, next, k, recorded)))
  {
    if k in st.runs {
      CheckpointKeepsRecorded(st, fence, k, status, stored, intact, now);
    } else {
      CheckpointMakesRecord(st, fence, k, status, stored, intact, now);
    }
  }

  /** The older transition past the fence asks for the own claim only. */
  lemma MarkedStarted(st: State, k: RunKey, c: Token, d: Token)
    ensures
      var (next, reply) := MarkStarted(st, k, c);
      && (reply == Done <==> k in st.claims && st.claims[k].id == c) && (reply != Done ==> reply == Err)
      && next.(claims := st.claims) == st
      && (reply == Done ==>
            var state := if st.claims[k].state == Preflight then Started else st.claims[k].state;
            next.claims == st.claims[k := Claim(c, state)])
      && (reply != Done ==> next == st)
      && (reply == Done && st.claims[k].state != Admitted ==> ReleaseClaim(next, k, d).1 == Err)
  {
    if k in st.claims && st.claims[k].id == c && st.claims[k].state != Preflight {
      assert st.claims[k := st.claims[k]] == st.claims;
    }
  }

  // ---------------------------------------------------------------- finalization and evidence

  /** Finalizing gives the run its terminal projection, unless it has one, and the slot back; repeating
      it with what is recorded is no error, with anything else it is. */
  lemma FinalizedOnce(st: State, lease: Lease, p: Projection, now: int, q: Projection, later: int)
    ensures
      var (next, reply) := Finalize(st, lease, p, now);
      && (reply != Done ==> next == st && reply == Err)
      && (reply == Done ==>
            && p.status.Terminal() && lease.key in next.runs && next.runs[lease.key].status.Terminal()
            && lease.key.session !in next.admissions
            && (lease.key.session in st.admissions ==> Live(st, lease, now))
            && (st.runs[lease.key].status.Terminal() ==> next.runs == st.runs)
            && (!st.runs[lease.key].status.Terminal() ==>
                  && next.runs[lease.key].status == p.status && next.runs[lease.key].preview == p.preview
                  && next.runs[lease.key].error == p.error && (p.status == Failed ==> p.error.Some?)
                  && PointerFollows(st, next, lease.key, p.status))
            && (Finalize(next, lease, q, later).1 == Done <==>
                  q == Projection(next.runs[lease.key].status, next.runs[lease.key].preview,
                      next.runs[lease.key].error))
            && Finalize(next, lease, q, later).0 == next)
      && (lease.key in st.runs && Live(st, lease, now) && p.Valid() ==> reply == Done)
      && next.claims == st.claims && next.sealed == st.sealed
  {
  }

  /** Sealed evidence is accepted again as it is, and nothing else is: a second commit of the run with
      the same digest answers Done and changes nothing, one with another digest is refused. */
  lemma EvidenceIsSealedOnce(st: State, fence: Option<Lease>, c: Commit, now: int, d: Commit, later: int)
    requires CommitEvidence(st, fence, c, now).1 == Done
    requires d.key == c.key && WellFormedCommit(d)
    ensures
      var next := CommitEvidence(st, fence, c, now).0;
      && c.key in next.sealed && c.key in next.runs
      && CommitEvidence(next, None, d, later) == (next, if d.digest == next.sealed[c.key] then Done else Err)
      && (c.key !in st.sealed ==> next.sealed == st.sealed[c.key := c.digest])
      && next.admissions == st.admissions && next.receipts == st.receipts
  {
  }

  /** The outcome that a commit records, its restore link, and the pointer of the session. */
  lemma EvidenceIsRecorded(st: State, fence: Option<Lease>, c: Commit, now: int)
    requires CommitEvidence(st, fence, c, now).1 == Done && c.key !in st.sealed && c.related.None?
    ensures
      var next := CommitEvidence(st, fence, c, now).0;
      && OnlyRecord(st.(sealed := next.sealed), next, c.key) && PointerFollows(st, next, c.key, c.outcome.status)
      && next.runs[c.key].status == c.outcome.status && next.runs[c.key].preview == c.outcome.preview
      && next.runs[c.key].error == c.outcome.error && next.runs[c.key].restoreFrom == c.restoreFrom
      && next.runs[c.key].indeterminate == (c.key in st.runs && st.runs[c.key].indeterminate)
      && (fence.Some? ==> fence.value.key == c.key && Live(st, fence.value, now))
  {
  }

  /** Which finalizations are accepted: of the own live lease with a complete terminal projection, or of a
      run that has ended already; and without any lease in the session the recorded projection again. */
  lemma FinalizeAccepted(st: State, lease: Lease, p: Projection, now: int)
    ensures Finalize(st, lease, p, now).1 == Done <==>
      && p.status.Terminal() && lease.key in st.runs
      && var run := st.runs[lease.key];
      if lease.key.session !in st.admissions then
        run.status == p.status && run.preview == p.preview && run.error == p.error
      else
        && Live(st, lease, now)
        && (!run.status.Terminal() ==>
              (p.status == Failed ==> p.error.Some?) && (p.status == Completed ==> p.error.None?))
  {
  }

  /** A run that ends has a complete projection, one that does not end carries no diagnostic. */
  predicate Recordable(p: Projection) {
    && (p.status == Failed ==> p.error.Some?) && (p.status != Failed && p.status != Cancelled ==> p.error.None?)
  }

  /** The source that a commit concludes: named as what the run continues, under its own started claim, in
      the status that the commit expects, with an outcome that ends it. */
  predicate SourceMatches(st: State, c: Commit, r: Related) {
    && c.restoreFrom == Some(r.run) && r.run != c.key.run && r.claim.Some? && r.claim.value != 0
    && r.terminal.status.Terminal() && Recordable(r.terminal)
    && var k := RunKey(c.key.session, r.run);
    && k in st.claims && st.claims[k] == Claim(r.claim.value, Started)
    && k in st.runs && st.runs[k].status == r.expected
  }

  /** Which first commits of a run's evidence are accepted; all others change nothing. */
  lemma CommitAccepted(st: State, fence: Option<Lease>, c: Commit, now: int)
    requires c.key !in st.sealed
    ensures CommitEvidence(st, fence, c, now).1 == Done <==>
      && c.intact && Recordable(c.outcome) && c.key.session in st.sessions
      && (fence.Some? ==> fence.value.key == c.key && Live(st, fence.value, now))
      && (c.related.Some? ==> SourceMatches(st, c, c.related.value))
    ensures CommitEvidence(st, fence, c, now).1 != Done ==> CommitEvidence(st, fence, c, now) == (st, Err)
  {
  }

  // ---------------------------------------------------------------- eviction

  /** The run continues a waiting source, which its eviction must settle. */
  predicate HasWaitingSource(st: State, key: RunKey) {
    && key in st.runs && st.runs[key].restoreFrom.Some?
    && var source := RunKey(key.session, st.runs[key].restoreFrom.value);
    source in st.runs && st.runs[source].status == Waiting
  }

  /** When an eviction is possible, and what it does to everything but a waiting source: the slot is free,
      the session's pointer given up, an active run cancelled, an ended one left alone. */
  lemma EvictionFreesSlot(st: State, s: SessionId)
    requires s in st.admissions
    ensures
      var key := RunKey(s, st.admissions[s].key.run);
      Evict(st, s).None? <==>
        key !in st.runs
        || (!st.runs[key].status.Terminal() && st.runs[key].restoreFrom.Some? &&
              var source := RunKey(s, st.runs[key].restoreFrom.value);
              source !in st.runs
              || (st.runs[source].status == Waiting && (source !in st.claims || st.claims[source].state == Preflight)))
    ensures
      var key := RunKey(s, st.admissions[s].key.run);
      Evict(st, s).Some? ==>
        var next := Evict(st, s).value;
        && next.admissions == st.admissions - {s} && next.sealed == st.sealed && next.receipts == st.receipts
        && next.generations == st.generations && key in next.runs && next.sessions.Keys == st.sessions.Keys
        && (st.runs[key].status.Terminal() ==> next.runs == st.runs && next.claims == st.claims)
        && (!st.runs[key].status.Terminal() ==> next.runs[key].status == Cancelled)
        && (!st.runs[key].status.Terminal() && !HasWaitingSource(st, key) ==>
              && next.claims == st.claims
              && next.runs == st.runs[key := next.runs[key]]
              && next.runs[key].restoreFrom == st.runs[key].restoreFrom && next.runs[key].error.Some?
              && next.runs[key].indeterminate == st.runs[key].indeterminate)
        && (s in st.sessions ==>
              && next.sessions[s].open == st.sessions[s].open
              && next.sessions[s].active ==
                   if st.sessions[s].active == Some(key.run) then None else st.sessions[s].active)
  {
  }

  /** The session's slot is held for `target`, which is active and continues the waiting run `source`. */
  predicate Continuing(st: State, source: RunKey, target: RunKey) {
    && source.session == target.session && source != target
    && target.session in st.admissions && st.admissions[target.session].key.run == target.run
    && target in st.runs && !st.runs[target].status.Terminal() && st.runs[target].restoreFrom == Some(source.run)
    && source in st.runs && st.runs[source].status == Waiting
  }

  /** What an eviction made of a continuation and its source.  Before the fence the source is left as it
      was and can be claimed anew; past the fence it is cancelled and both are marked indeterminate. */
  ghost predicate EvictedFrom(st: State, next: State, source: RunKey, target: RunKey) {
    && source in st.claims && st.claims[source].state != Preflight && source !in next.claims
    && source in next.runs && source in st.runs && target in st.runs
    && target in next.runs && next.runs[target].status == Cancelled && next.runs[target].error.Some?
    && (st.claims[source].state == Admitted ==>
          && next.runs[source] == st.runs[source]
          && next.runs[target].indeterminate == st.runs[target].indeterminate)
    && (st.claims[source].state == Started ==>
          && next.runs[source].status == Cancelled && next.runs[source].indeterminate && next.runs[source].error.Some?
          && next.runs[target].indeterminate)
  }

  lemma EvictionDecides(st: State, source: RunKey, target: RunKey)
    requires Continuing(st, source, target)
    ensures Evict(st, target.session).Some? <==> source in st.claims && st.claims[source].state != Preflight
    ensures Evict(st, target.session).Some? ==>
      EvictedFrom(st, Evict(st, target.session).value, source, target)
  {
  }

  /** Runs, claims and leases of one session. */
  ghost predicate SameIn(a: State, b: State, s: SessionId) {
    && (forall k: RunKey :: k.session == s ==> (k in a.runs <==> k in b.runs) && (k in a.claims <==> k in b.claims))
    && (forall k: RunKey :: k.session == s && k in a.runs && k in b.runs ==> a.runs[k] == b.runs[k])
    && (forall k: RunKey :: k.session == s && k in a.claims && k in b.claims ==> a.claims[k] == b.claims[k])
    && (s in a.admissions <==> s in b.admissions)
    && (s in a.admissions && s in b.admissions ==> a.admissions[s] == b.admissions[s])
  }

  lemma TerminalizationElsewhere(st: State, target: Run, s: SessionId, other: SessionId)
    requires TerminalizeSource(st, target, s).Some? && other != s
    ensures SameIn(st, TerminalizeSource(st, target, s).value.0, other)
  {
  }

  lemma EvictionElsewhere(st: State, s: SessionId, other: SessionId)
    requires s in st.admissions && Evict(st, s).Some? && other != s
    ensures SameIn(st, Evict(st, s).value, other)
  {
    var key := RunKey(s, st.admissions[s].key.run);
    if st.runs[key].status.Active() { TerminalizationElsewhere(st, st.runs[key], s, other); }
  }

  lemma {:induction false} WithoutSession(st: State, order: seq<SessionId>, now: int, s: SessionId)
    requires EvictExpired(st, order, now).Some?
             && (s !in order || s !in st.admissions || !st.admissions[s].ExpiredAt(now))
    ensures SameIn(st, EvictExpired(st, order, now).value, s)
    decreases |order|
  {
    if order != [] {
      if order[0] in st.admissions && st.admissions[order[0]].ExpiredAt(now) {
        EvictionElsewhere(st, order[0], s);
        WithoutSession(Evict(st, order[0]).value, order[1..], now, s);
      } else {
        WithoutSession(st, order[1..], now, s);
      }
    }
  }

  lemma SameInTransfers(st: State, mid: State, next: State, source: RunKey, target: RunKey)
    requires SameIn(mid, next, source.session) && EvictedFrom(st, mid, source, target)
             && source.session == target.session
    ensures EvictedFrom(st, next, source, target)
  {
  }

  lemma SameInContinues(st: State, mid: State, source: RunKey, target: RunKey)
    requires SameIn(st, mid, source.session) && Continuing(st, source, target)
    ensures Continuing(mid, source, target)
  {
  }

  lemma SameInBefore(st: State, mid: State, next: State, source: RunKey, target: RunKey)
    requires SameIn(st, mid, source.session) && EvictedFrom(mid, next, source, target)
             && source.session == target.session
    ensures EvictedFrom(st, next, source, target)
  {
  }

  lemma EvictedThenClaimed(st: State, next: State, source: RunKey, target: RunKey, c: Token)
    requires Continuing(st, source, target) && EvictedFrom(st, next, source, target)
    ensures ClaimResume(next, source, c).1 == Done <==> c != 0 && st.claims[source].state == Admitted
  {
  }

  /** Reconciliation, with any other sessions in any order: every expired continuation it reaches is
      evicted as its source's claim says. */
  lemma {:induction false} ReconciliationDecides(
      st: State, order: seq<SessionId>, now: int, source: RunKey, target: RunKey)
    requires EvictExpired(st, order, now).Some? && target.session in order && Continuing(st, source, target)
    requires st.admissions[target.session].ExpiredAt(now)
    ensures EvictedFrom(st, EvictExpired(st, order, now).value, source, target)
    ensures forall c :: ClaimResume(EvictExpired(st, order, now).value, source, c).1 == Done <==>
      c != 0 && st.claims[source].state == Admitted
    decreases |order|
  {
    var s := target.session;
    if order[0] == s {
      EvictionDecides(st, source, target);
      var mid := Evict(st, s).value;
      EvictionEmpties(st, s);
      WithoutSession(mid, order[1..], now, s);
      SameInTransfers(st, mid, EvictExpired(mid, order[1..], now).value, source, target);
    } else if order[0] in st.admissions && st.admissions[order[0]].ExpiredAt(now) {
      var mid := Evict(st, order[0]).value;
      EvictionElsewhere(st, order[0], s);
      SameInContinues(st, mid, source, target);
      ReconciliationDecides(mid, order[1..], now, source, target);
      SameInBefore(st, mid, EvictExpired(st, order, now).value, source, target);
    } else {
      ReconciliationDecides(st, order[1..], now, source, target);
    }
    forall c ensures ClaimResume(EvictExpired(st, order, now).value, source, c).1 == Done <==>
      c != 0 && st.claims[source].state == Admitted
    {
      EvictedThenClaimed(st, EvictExpired(st, order, now).value, source, target, c);
    }
  }

  lemma EvictionEmpties(st: State, s: SessionId)
    requires s in st.admissions && Evict(st, s).Some?
    ensures s !in Evict(st, s).value.admissions
  {
  }

  /** The same for the next admission of the session, which evicts the expired one first. */
  lemma NextAdmissionDecides(st: State, q: Acquire, now: int, source: RunKey, target: RunKey)
    requires Continuing(st, source, target) && q.key.session == target.session && q.idempotency !in st.receipts
    requires AcquireAdmission(st, q, now).1.Leased?
    ensures EvictedFrom(st, AcquireAdmission(st, q, now).0, source, target)
    ensures st.admissions[target.session].expires <= now
  {
    EvictionDecides(st, source, target);
  }

  // ---------------------------------------------------------------- admissions

  /** A granted request is granted again: whatever happened since, as long as the receipt is there, the
      same key and fingerprint get the recorded lease without any effect, another fingerprint nothing. */
  lemma AdmissionIsIdempotent(st: State, q: Acquire, now: int, again: Acquire, later: State, when: int)
    requires AcquireAdmission(st, q, now).1.Leased? && q.idempotency !in st.receipts
    requires again.idempotency == q.idempotency
    requires q.idempotency in later.receipts
             && later.receipts[q.idempotency] == AcquireAdmission(st, q, now).0.receipts[q.idempotency]
    ensures AcquireAdmission(later, again, when) ==
      (later, if again.fingerprint == q.fingerprint then AcquireAdmission(st, q, now).1 else Err)
  {
  }

  /** What a grant asks for when the session's slot is free, and what it records. */
  lemma AdmissionGranted(st: State, q: Acquire, now: int)
    requires q.idempotency !in st.receipts && q.key.session !in st.admissions
    ensures
      var (next, reply) := AcquireAdmission(st, q, now);
      var s := q.key.session;
      && (reply.Leased? <==>
            && (q.replaced.Some? <==> q.claim.Some?) && s in st.sessions && st.sessions[s].open && q.key !in st.runs
            && (st.sessions[s].active.Some? ==> st.sessions[s].active == q.replaced)
            && (q.replaced.Some? ==>
                  && q.restoreFrom == q.replaced
                  && var k := RunKey(s, q.replaced.value);
                  && k in st.runs && st.runs[k].status == Waiting
                  && k in st.claims && st.claims[k] == Claim(q.claim.value, Preflight)))
      && (!reply.Leased? ==> next == st && reply == Err)
      && (reply.Leased? ==>
            && s in next.admissions && next.admissions[s] == reply.lease && reply.lease.key == q.key
            && reply.lease.admission == q.admission && reply.lease.host == q.host && reply.lease.expires == q.expires
            && reply.lease.generation == 1 + (if s in st.generations then st.generations[s] else 0)
            && s in next.generations && next.generations[s] == reply.lease.generation
            && next.runs == st.runs[q.key := Run(Queued, q.restoreFrom, None, None, false)]
            && next.sessions == st.sessions[s := Session(Some(q.key.run), true)]
            && next.claims == (if q.replaced.None? then st.claims
                               else st.claims[RunKey(s, q.replaced.value) := Claim(q.claim.value, Admitted)])
            && next.sealed == st.sealed)
  {
  }

  /** A live lease bars everyone else. */
  lemma LiveLeaseBars(st: State, q: Acquire, now: int)
    requires q.idempotency !in st.receipts && q.key.session in st.admissions
             && now < st.admissions[q.key.session].expires
    ensures AcquireAdmission(st, q, now) == (st, Err)
  {
  }

  /** An expired lease stands in nobody's way: the request is answered as after an eviction, but without an
      effect unless it is granted. */
  lemma ExpiredLeaseGivesWay(st: State, q: Acquire, now: int)
    requires q.idempotency !in st.receipts && q.key.session in st.admissions
             && st.admissions[q.key.session].expires <= now
    ensures AcquireAdmission(st, q, now) ==
      if Evict(st, q.key.session).None? then (st, Err)
      else
        var (next, reply) := AcquireAdmission(Evict(st, q.key.session).value, q, now);
        if reply.Leased? then (next, reply) else (st, Err)
  {
    EvictionFreesSlot(st, q.key.session);
  }

  /** The slot that an eviction frees is granted under a higher generation, so that the evicted lease
      never becomes live again. */
  lemma EvictedLeaseIsDead(st: State, q: Acquire, now: int, evicted: Lease, later: int)
    requires q.idempotency !in st.receipts && AcquireAdmission(st, q, now).1.Leased?
    requires evicted.key.session == q.key.session && q.key.session in st.generations
    requires evicted.generation <= st.generations[q.key.session]
    ensures !Live(AcquireAdmission(st, q, now).0, evicted, later)
  {
  }
}
