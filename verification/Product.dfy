/**
  Run and session tables of the product coordinator. The functions are what each database operation
  means; `ProductDatabase` updates its tables in place and is proved against them.
*/
module Product {
  import opened Basics

  datatype Status = Queued | Running | Hitl | Completed | Failed

  datatype Behavior = Created | Merged | Claimed | Recovered | Suspended | Finished | Resumed | Broken

  datatype Run = Run(session: string, status: Status, prompt: string, behavior: Behavior, claim: Option<string>) {
    predicate Active() { status == Queued || status == Running || status == Hitl }
  }

  datatype SessionStatus = Idle | Busy(run: Status)

  datatype Row = Row(status: SessionStatus, activeRun: Option<nat>)

  /** Run ids count creations, so id order is creation order. */
  datatype Tables = Tables(runs: map<nat, Run>, sessions: map<string, Row>, next: nat)

  // ---------------------------------------------------------------- queries

  predicate ActiveIn(db: Tables, r: nat, session: string) {
    r in db.runs && db.runs[r].session == session && db.runs[r].Active()
  }

  /** The latest active run of a session below `n`. */
  function LatestActive(db: Tables, session: string, n: nat): (r: Option<nat>)
    ensures r.Some? ==> r.value < n && ActiveIn(db, r.value, session)
    ensures r.None? ==> forall i :: 0 <= i < n ==> !ActiveIn(db, i, session)
    ensures r.Some? ==> forall i :: r.value < i < n ==> !ActiveIn(db, i, session)
  {
    if n == 0 then None
    else if ActiveIn(db, n - 1, session) then Some(n - 1)
    else LatestActive(db, session, n - 1)
  }

  function ActiveRun(db: Tables, session: string): Option<nat> { LatestActive(db, session, db.next) }

  predicate QueuedAt(db: Tables, r: nat) { r in db.runs && db.runs[r].status == Queued }

  /** The earliest queued run from `i` on. */
  function EarliestQueued(db: Tables, i: nat): (r: Option<nat>)
    requires i <= db.next
    ensures r.Some? ==> i <= r.value < db.next && QueuedAt(db, r.value)
    ensures r.Some? ==> forall j :: i <= j < r.value ==> !QueuedAt(db, j)
    ensures r.None? ==> forall j :: i <= j < db.next ==> !QueuedAt(db, j)
    decreases db.next - i
  {
    if i == db.next then None
    else if QueuedAt(db, i) then Some(i)
    else EarliestQueued(db, i + 1)
  }

  lemma EarliestIsFirst(db: Tables)
    ensures
      match EarliestQueued(db, 0)
      case None => forall i :: i in db.runs && i < db.next ==> db.runs[i].status != Queued
      case Some(r) =>
        && r in db.runs && db.runs[r].status == Queued
        && forall i :: i in db.runs && i < r ==> db.runs[i].status != Queued
  {
    var n := if EarliestQueued(db, 0).None? then db.next else EarliestQueued(db, 0).value;
    forall i | i in db.runs && i < n ensures db.runs[i].status != Queued { assert !QueuedAt(db, i); }
  }

  // ---------------------------------------------------------------- updates

  function AddRun(db: Tables, session: string, prompt: string): Tables {
    Tables(db.runs[db.next := Run(session, Queued, prompt, Created, None)],
           db.sessions[session := Row(Busy(Queued), Some(db.next))], db.next + 1)
  }

  function MergeInput(db: Tables, r: nat, prompt: string): Tables
    requires r in db.runs
  {
    db.(runs := db.runs[r := db.runs[r].(prompt := db.runs[r].prompt + "\n" + prompt, behavior := Merged)])
  }

  function ClaimRun(db: Tables, r: nat, runtime: string): Tables
    requires r in db.runs
  {
    var run := db.runs[r];
    db.(runs := db.runs[r := run.(status := Running, claim := Some(runtime),
                                  behavior := if run.behavior == Recovered then Recovered else Claimed)],
        sessions := db.sessions[run.session := Row(Busy(Running), Some(r))])
  }

  /** Ending or suspending a run clears its claim; only completion clears the session row. */
  function SetStatus(db: Tables, r: nat, status: Status, behavior: Behavior): Tables
    requires r in db.runs
  {
    var run := db.runs[r];
    var row := if status == Completed then Row(Idle, None) else Row(Busy(status), Some(r));
    db.(runs := db.runs[r := run.(status := status, behavior := behavior,
                                  claim := if status == Completed || status == Failed || status == Hitl
                                           then None else run.claim)],
        sessions := db.sessions[run.session := row])
  }

  function Requeued(run: Run): Run {
    if run.status == Running then run.(status := Queued, behavior := Recovered, claim := None) else run
  }

  function Requeue(runs: map<nat, Run>): map<nat, Run> { map r | r in runs :: Requeued(runs[r]) }

  function ResetRow(row: Row, runs: map<nat, Run>): Row {
    if row.activeRun.Some? && row.activeRun.value in runs
       && runs[row.activeRun.value].status == Queued && runs[row.activeRun.value].behavior == Recovered
    then Row(Idle, None) else row
  }

  function Recover(db: Tables): Tables {
    var runs := Requeue(db.runs);
    Tables(runs, map x | x in db.sessions :: ResetRow(db.sessions[x], runs), db.next)
  }

  /** The row shows a run that recovery has to queue again, now or in an earlier restart. */
  predicate ShowsOrphan(row: Row, runs: map<nat, Run>) {
    && row.activeRun.Some? && row.activeRun.value in runs
    && var run := runs[row.activeRun.value];
    run.status == Running || (run.status == Queued && run.behavior == Recovered)
  }

  lemma {:induction false} RecoveryKeepsLatest(db: Tables, session: string, n: nat)
    ensures LatestActive(Recover(db), session, n) == LatestActive(db, session, n)
  {
    if n > 0 { RecoveryKeepsLatest(db, session, n - 1); }
  }

  /** Recovery ends every orphan and changes nothing for submitters: each session has the same active
      run as before, with the same prompt, and recovering once more finds nothing left to do. */
  lemma RecoverySettles(db: Tables, session: string)
    ensures ActiveRun(Recover(db), session) == ActiveRun(db, session)
    ensures forall r :: r in db.runs ==>
      Recover(db).runs[r].prompt == db.runs[r].prompt && Recover(db).runs[r].status != Running
    ensures forall x :: x in db.sessions ==> !ShowsOrphan(Recover(db).sessions[x], Recover(db).runs)
    ensures Recover(Recover(db)) == Recover(db)
  {
    RecoveryKeepsLatest(db, session, db.next);
    var once := Recover(db);
    assert Requeue(once.runs) == once.runs;
    assert Recover(once).sessions == once.sessions;
  }

  // ---------------------------------------------------------------- the database object

  class ProductDatabase {
    var runs: map<nat, Run>
    var sessions: map<string, Row>
    var next: nat

    constructor ()
      ensures Now() == Tables(map[], map[], 0)
    {
      runs, sessions, next := map[], map[], 0;
    }

    function Now(): Tables reads this { Tables(runs, sessions, next) }

    method CreateSession(session: string)
      modifies this
      ensures Now() == old(Now()).(sessions := old(sessions)[session := Row(Idle, None)])
    {
      sessions := sessions[session := Row(Idle, None)];
    }

    method FindActiveRun(session: string) returns (r: Option<nat>)
      ensures r == ActiveRun(Now(), session)
    {
      var n := next;
      while n > 0
        invariant 0 <= n <= next
        invariant ActiveRun(Now(), session) == LatestActive(Now(), session, n)
      {
        n := n - 1;
        if n in runs && runs[n].session == session && runs[n].Active() {
          return Some(n);
        }
      }
      r := None;
    }

    /** An unknown session raises and changes nothing. */
    method CreateRun(session: string, prompt: string) returns (r: Option<nat>)
      modifies this
      ensures session !in old(sessions) ==> r.None? && Now() == old(Now())
      ensures session in old(sessions) ==> r == Some(old(next)) && Now() == AddRun(old(Now()), session, prompt)
      ensures r.Some? ==>
        && runs == old(runs)[old(next) := Run(session, Queued, prompt, Created, None)] && next == old(next) + 1
        && sessions == old(sessions)[session := Row(Busy(Queued), Some(old(next)))]
    {
      if session !in sessions {
        return None;
      }
      r := Some(next);
      runs := runs[next := Run(session, Queued, prompt, Created, None)];
      sessions := sessions[session := Row(Busy(Queued), Some(next))];
      next := next + 1;
    }

    method MergeQueuedInput(r: nat, prompt: string)
      requires r in runs
      modifies this
      ensures Now() == MergeInput(old(Now()), r, prompt)
      ensures
        var run := old(runs)[r];
        runs == old(runs)[r := Run(run.session, run.status, run.prompt + "\n" + prompt, Merged, run.claim)]
      ensures sessions == old(sessions) && next == old(next)
    {
      var merged := runs[r].prompt + "\n" + prompt;
      runs := runs[r := runs[r].(prompt := merged, behavior := Merged)];
    }

    method ClaimNextQueued(runtime: string) returns (r: Option<nat>)
      modifies this
      ensures r == EarliestQueued(old(Now()), 0)
      ensures Now() == if r.Some? then ClaimRun(old(Now()), r.value, runtime) else old(Now())
      ensures r.None? <==> forall i :: i in old(runs) && i < old(next) ==> old(runs)[i].status != Queued
      ensures r.Some? ==>
        && r.value in old(runs) && old(runs)[r.value].status == Queued
        && (forall i :: i in old(runs) && i < r.value ==> old(runs)[i].status != Queued)
        && var run := old(runs)[r.value];
        && runs == old(runs)[r.value := Run(run.session, Running, run.prompt,
                                            if run.behavior == Recovered then Recovered else Claimed, Some(runtime))]
        && sessions == old(sessions)[run.session := Row(Busy(Running), Some(r.value))]
    {
      var i := 0;
      while i < next && !(i in runs && runs[i].status == Queued)
        invariant 0 <= i <= next
        invariant EarliestQueued(Now(), 0) == EarliestQueued(Now(), i)
      {
        i := i + 1;
      }
      EarliestIsFirst(Now());
      if i == next {
        return None;
      }
      r := Some(i);
      var run := runs[i];
      var behavior := if run.behavior == Recovered then Recovered else Claimed;
      runs := runs[i := run.(status := Running, claim := Some(runtime), behavior := behavior)];
      sessions := sessions[run.session := Row(Busy(Running), Some(i))];
    }

    /** An unknown run raises and changes nothing. */
    method UpdateRunStatus(r: nat, status: Status, behavior: Behavior) returns (ok: bool)
      modifies this
      ensures ok <==> r in old(runs)
      ensures Now() == if r in old(runs) then SetStatus(old(Now()), r, status, behavior) else old(Now())
      ensures r in old(runs) ==>
        var run := old(runs)[r];
        && runs == old(runs)[r := Run(run.session, status, run.prompt, behavior,
                                      if status == Queued || status == Running then run.claim else None)]
        && sessions == old(sessions)[run.session := if status == Completed then Row(Idle, None)
                                                    else Row(Busy(status), Some(r))]
    {
      ok := r in runs;
      if !ok {
        return;
      }
      var run := runs[r];
      var claim := run.claim;
      if status == Completed || status == Failed || status == Hitl {
        claim := None;
      }
      runs := runs[r := run.(status := status, behavior := behavior, claim := claim)];
      if status == Completed {
        sessions := sessions[run.session := Row(Idle, None)];
      } else {
        sessions := sessions[run.session := Row(Busy(status), Some(r))];
      }
    }

    /** Exactly the running runs are queued again, keeping session and prompt and losing their claim;
        exactly the rows that show such a run, or one queued again earlier, become idle. */
    method RecoverOrphanRunning() returns (count: nat)
      modifies this
      ensures Now() == Recover(old(Now()))
      ensures runs.Keys == old(runs.Keys) && sessions.Keys == old(sessions.Keys) && next == old(next)
      ensures forall r :: r in runs ==>
        if old(runs)[r].status == Running
        then runs[r] == Run(old(runs)[r].session, Queued, old(runs)[r].prompt, Recovered, None)
        else runs[r] == old(runs)[r]
      ensures forall x :: x in sessions ==>
        sessions[x] == if ShowsOrphan(old(sessions)[x], old(runs)) then Row(Idle, None) else old(sessions)[x]
      ensures count == |set r | r in old(runs) && old(runs)[r].status == Running|
    {
      count := |set r | r in runs && runs[r].status == Running|;
      runs := Requeue(runs);
      sessions := map x | x in sessions :: ResetRow(sessions[x], runs);
    }
  }
}
