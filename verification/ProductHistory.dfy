/**
  One live coordinator over the product tables: submissions, claims, run coroutines, approvals and
  restarts in any order, with an exception possible at every await.
*/
module ProductHistory {
  import opened Basics
  import opened Product

  /** Where the coroutine of a claimed run stands, and the prompt it took from the claimed row. */
  datatype Task =
    | Claimed(prompt: string)    // claimed, not yet streaming: exceptions are not caught here
    | Streaming(prompt: string)  // inside the guarded part
    | Reported                   // status written, still publishing it

  datatype World = World(db: Tables, tasks: map<nat, Task>, owned: set<nat>, approving: set<nat>)

  datatype Event =
    | NewSession(session: string)
    | Submit(session: string, text: string)
    | Claim(runtime: string)
    | Begin(run: nat)          // workspace is ready: streaming starts
    | Abandon(run: nat)        // an exception outside the guarded part
    | Suspend(run: nat)
    | Complete(run: nat)
    | Raise(run: nat)          // an exception inside the guarded part
    | Return(run: nat)
    | ApproveStart(run: nat)
    | ApproveFinish(run: nat, ok: bool)
    | Restart                  // the process dies and start-up recovery runs

  const Initial: World := World(Tables(map[], map[], 0), map[], {}, {})

  predicate Enabled(w: World, e: Event) {
    match e
    case NewSession(x) => x !in w.db.sessions
    case Begin(r) => r in w.tasks && w.tasks[r].Claimed? && r in w.db.runs
    case Abandon(r) => r in w.tasks && (w.tasks[r].Claimed? || w.tasks[r].Streaming?)
    case Suspend(r) => r in w.tasks && w.tasks[r].Streaming? && r in w.db.runs
    case Complete(r) => r in w.tasks && w.tasks[r].Streaming? && r in w.db.runs
    case Raise(r) => r in w.tasks && !w.tasks[r].Claimed? && r in w.db.runs
    case Return(r) => r in w.tasks && w.tasks[r].Reported?
    case ApproveStart(r) => r in w.db.runs && w.db.runs[r].status == Hitl && r !in w.approving
    case ApproveFinish(r, ok) => r in w.approving && r in w.db.runs
    case _ => true
  }

  datatype Outcome = QueuedNew | MergedInto(run: nat) | Steered(run: nat) | NotOwned | HitlWaiting | UnknownSession

  /** What a submission answers. */
  function SubmitOutcome(w: World, session: string): Outcome {
    match ActiveRun(w.db, session)
    case None => if session in w.db.sessions then QueuedNew else UnknownSession
    case Some(r) =>
      match w.db.runs[r].status
      case Queued => MergedInto(r)
      case Running => if r in w.owned then Steered(r) else NotOwned
      case _ => HitlWaiting
  }

  function Submitted(w: World, session: string, text: string): World {
    match SubmitOutcome(w, session)
    case QueuedNew => w.(db := AddRun(w.db, session, text))
    case MergedInto(r) => if r in w.db.runs then w.(db := MergeInput(w.db, r, text)) else w
    case _ => w
  }

  function AfterClaim(w: World, runtime: string): World {
    match EarliestQueued(w.db, 0)
    case None => w
    case Some(r) => w.(db := ClaimRun(w.db, r, runtime), tasks := w.tasks[r := Task.Claimed(w.db.runs[r].prompt)])
  }

  function Step(w: World, e: Event): World
    requires Enabled(w, e)
  {
    match e
    case NewSession(x) => w.(db := w.db.(sessions := w.db.sessions[x := Row(Idle, None)]))
    case Submit(x, text) => Submitted(w, x, text)
    case Claim(runtime) => AfterClaim(w, runtime)
    case Begin(r) =>
      w.(db := SetStatus(w.db, r, Running, w.db.runs[r].behavior),
         tasks := w.tasks[r := Streaming(w.tasks[r].prompt)], owned := w.owned + {r})
    case Abandon(r) => w.(tasks := w.tasks - {r})
    case Suspend(r) => w.(db := SetStatus(w.db, r, Hitl, Suspended), tasks := w.tasks[r := Reported])
    case Complete(r) => w.(db := SetStatus(w.db, r, Completed, Finished), tasks := w.tasks[r := Reported])
    case Raise(r) => w.(db := SetStatus(w.db, r, Failed, Broken), tasks := w.tasks - {r}, owned := w.owned - {r})
    case Return(r) => w.(tasks := w.tasks - {r}, owned := w.owned - {r})
    case ApproveStart(r) => w.(approving := w.approving + {r})
    case ApproveFinish(r, ok) =>
      w.(db := if ok then SetStatus(w.db, r, Completed, Resumed) else w.db, approving := w.approving - {r})
    case Restart => World(Recover(w.db), map[], {}, {})
  }

  // ---------------------------------------------------------------- the invariant

  predicate Ended(s: Status) { s == Completed || s == Failed }

  predicate BothActive(a: Run, b: Run) { a.session == b.session && a.Active() && b.Active() }

  ghost predicate OneActive(db: Tables) {
    forall i, j :: i in db.runs && j in db.runs && BothActive(db.runs[i], db.runs[j]) ==> i == j
  }

  ghost predicate Claims(db: Tables) {
    forall r :: r in db.runs ==> (db.runs[r].claim.Some? <==> db.runs[r].status == Running)
  }

  ghost predicate Known(db: Tables) {
    forall r :: r in db.runs ==> r < db.next && db.runs[r].session in db.sessions
  }

  ghost predicate TaskOk(w: World, r: nat)
    requires r in w.tasks
  {
    r in w.db.runs &&
    match w.tasks[r]
    case Claimed(prompt) => w.db.runs[r].status == Running && w.db.runs[r].prompt == prompt
    case Streaming(prompt) => w.db.runs[r].status == Running && w.db.runs[r].prompt == prompt
    case Reported => w.db.runs[r].status == Hitl || Ended(w.db.runs[r].status)
  }

  ghost predicate Inv(w: World) {
    && OneActive(w.db) && Claims(w.db) && Known(w.db)
    && (forall r :: r in w.tasks ==> TaskOk(w, r))
    && (forall r :: r in w.approving ==> r in w.db.runs && (w.db.runs[r].status == Hitl || Ended(w.db.runs[r].status)))
  }

  /** No new active runs: each run that is active afterwards already was, in the same session. */
  ghost predicate NoNewActive(a: Tables, b: Tables) {
    && a.next == b.next && a.runs.Keys == b.runs.Keys && a.sessions.Keys <= b.sessions.Keys
    && forall r :: r in a.runs && r in b.runs ==>
         && a.runs[r].session == b.runs[r].session
         && (b.runs[r].Active() ==> a.runs[r].Active())
         && (b.runs[r].claim.Some? <==> b.runs[r].status == Running)
  }

  lemma NoNewActiveKeeps(a: Tables, b: Tables)
    requires OneActive(a) && Known(a) && NoNewActive(a, b)
    ensures OneActive(b) && Claims(b) && Known(b)
  {
  }

  lemma SetStatusEffect(db: Tables, r: nat, status: Status, behavior: Behavior)
    requires r in db.runs && Claims(db) && Known(db)
    requires Settable(db.runs[r].status, status)
    ensures NoNewActive(db, SetStatus(db, r, status, behavior))
  {
  }

  lemma AddRunKeeps(db: Tables, session: string, text: string)
    requires OneActive(db) && Claims(db) && Known(db) && ActiveRun(db, session).None? && session in db.sessions
    ensures OneActive(AddRun(db, session, text)) && Claims(AddRun(db, session, text))
            && Known(AddRun(db, session, text))
  {
    forall i | i in db.runs && db.runs[i].session == session ensures !db.runs[i].Active() {
      assert i < db.next;
      assert !ActiveIn(db, i, session);
    }
  }

  lemma QueueKeeps(w: World, session: string, text: string)
    requires Inv(w) && ActiveRun(w.db, session).None? && session in w.db.sessions
    ensures Inv(w.(db := AddRun(w.db, session, text)))
  {
    var w' := w.(db := AddRun(w.db, session, text));
    AddRunKeeps(w.db, session, text);
    forall r | r in w'.tasks ensures TaskOk(w', r) { assert TaskOk(w, r); }
  }

  lemma MergeKeeps(w: World, r: nat, text: string)
    requires Inv(w) && r in w.db.runs && w.db.runs[r].status == Queued
    ensures Inv(w.(db := MergeInput(w.db, r, text)))
  {
    var w' := w.(db := MergeInput(w.db, r, text));
    NoNewActiveKeeps(w.db, w'.db);
    forall u | u in w'.tasks ensures TaskOk(w', u) { assert TaskOk(w, u); }
  }

  lemma SubmitKeeps(w: World, session: string, text: string)
    requires Inv(w)
    ensures Inv(Submitted(w, session, text))
  {
    match SubmitOutcome(w, session)
    case QueuedNew => QueueKeeps(w, session, text);
    case MergedInto(r) => MergeKeeps(w, r, text);
    case _ =>
  }

  lemma ClaimKeeps(w: World, runtime: string)
    requires Inv(w)
    ensures Inv(AfterClaim(w, runtime))
  {
    var w' := AfterClaim(w, runtime);
    var next := EarliestQueued(w.db, 0);
    if next.Some? {
      NoNewActiveKeeps(w.db, w'.db);
      forall r | r in w'.tasks ensures TaskOk(w', r) {
        if r != next.value { assert TaskOk(w, r); }
      }
    }
  }

  predicate Settable(from: Status, to: Status) {
    || Ended(to)
    || (to == Hitl && !Ended(from))
    || (to == Running && from == Running)
  }

  /** Writing the status of one run, by its coroutine or by its approval. */
  lemma StatusWriteKeeps(w: World, w': World, r: nat, status: Status, behavior: Behavior)
    requires Inv(w) && r in w.db.runs && Settable(w.db.runs[r].status, status)
    requires w'.db == SetStatus(w.db, r, status, behavior) && w'.approving <= w.approving
    requires forall u :: u in w'.tasks && u != r ==> u in w.tasks && w'.tasks[u] == w.tasks[u]
    requires r in w'.tasks ==> TaskOk(w', r)
    requires status == Running ==> r !in w'.approving
    ensures Inv(w')
  {
    SetStatusEffect(w.db, r, status, behavior);
    NoNewActiveKeeps(w.db, w'.db);
    forall u | u in w'.tasks ensures TaskOk(w', u) {
      if u != r { assert TaskOk(w, u); }
    }
  }

  lemma StatusStepKeeps(w: World, e: Event)
    requires Inv(w) && Enabled(w, e) && (e.Begin? || e.Suspend? || e.Complete? || e.Raise?)
    ensures Inv(Step(w, e))
  {
    assert TaskOk(w, e.run);
    match e
    case Begin(r) => StatusWriteKeeps(w, Step(w, e), r, Running, w.db.runs[r].behavior);
    case Suspend(r) => StatusWriteKeeps(w, Step(w, e), r, Hitl, Suspended);
    case Complete(r) => StatusWriteKeeps(w, Step(w, e), r, Completed, Finished);
    case Raise(r) => StatusWriteKeeps(w, Step(w, e), r, Failed, Broken);
  }

  lemma ApprovalKeeps(w: World, e: Event)
    requires Inv(w) && Enabled(w, e) && e.ApproveFinish?
    ensures Inv(Step(w, e))
  {
    var w' := Step(w, e);
    assert e.run in w.tasks ==> TaskOk(w, e.run);
    if e.ok {
      StatusWriteKeeps(w, w', e.run, Completed, Resumed);
    } else {
      forall u | u in w'.tasks ensures TaskOk(w', u) { assert TaskOk(w, u); }
    }
  }

  lemma RestartKeeps(w: World)
    requires Inv(w)
    ensures Inv(Step(w, Restart))
  {
    NoNewActiveKeeps(w.db, Recover(w.db));
  }

  lemma OtherStepKeeps(w: World, e: Event)
    requires Inv(w) && Enabled(w, e) && (e.NewSession? || e.Abandon? || e.Return? || e.ApproveStart?)
    ensures Inv(Step(w, e))
  {
    var w' := Step(w, e);
    forall u | u in w'.tasks ensures TaskOk(w', u) { assert TaskOk(w, u); }
  }

  lemma StepKeeps(w: World, e: Event)
    requires Inv(w) && Enabled(w, e)
    ensures Inv(Step(w, e))
  {
    match e
    case Submit(x, text) => SubmitKeeps(w, x, text);
    case Claim(runtime) => ClaimKeeps(w, runtime);
    case Restart => RestartKeeps(w);
    case NewSession(_) => OtherStepKeeps(w, e);
    case Abandon(_) => OtherStepKeeps(w, e);
    case Return(_) => OtherStepKeeps(w, e);
    case ApproveStart(_) => OtherStepKeeps(w, e);
    case ApproveFinish(_, _) => ApprovalKeeps(w, e);
    case _ => StatusStepKeeps(w, e);
  }

  // ---------------------------------------------------------------- one run over one step

  ghost predicate Follows(w: World, e: Event, w': World) { Enabled(w, e) && w' == Step(w, e) }

  /** An ended run stays ended. */
  lemma EndedStaysEnded(w: World, e: Event, r: nat)
    requires Inv(w) && Enabled(w, e) && r in w.db.runs
    ensures r in Step(w, e).db.runs && Step(w, e).db.runs[r].session == w.db.runs[r].session
    ensures Ended(w.db.runs[r].status) ==> Ended(Step(w, e).db.runs[r].status)
  {
    if e.Begin? || e.Suspend? || e.Complete? { assert TaskOk(w, e.run); }
  }

  /** The two steps that move an ended run to the other end: an exception after its completion was
      written, and an approval that finishes after its run has failed. */
  ghost predicate Flips(w: World, e: Event, r: nat) {
    r in w.db.runs &&
    (|| (e == Raise(r) && w.db.runs[r].status == Completed)
     || (e == ApproveFinish(r, true) && w.db.runs[r].status == Failed))
  }

  /** An ended run changes its status in exactly those steps. */
  lemma EndedFlipsExactly(w: World, e: Event, r: nat)
    requires Inv(w) && Enabled(w, e) && r in w.db.runs && Ended(w.db.runs[r].status)
    ensures r in Step(w, e).db.runs && Ended(Step(w, e).db.runs[r].status)
    ensures Step(w, e).db.runs[r].status != w.db.runs[r].status <==> Flips(w, e, r)
  {
    if e.Begin? || e.Suspend? || e.Complete? { assert TaskOk(w, e.run); }
  }

  /** The step takes a text for run `r`: the run is queued in that session right after it. */
  ghost predicate Takes(w': World, e: Event, r: nat) {
    e.Submit? && r in w'.db.runs && w'.db.runs[r].session == e.session && w'.db.runs[r].status == Queued
  }

  lemma PromptStep(w: World, e: Event, r: nat)
    requires Inv(w) && Enabled(w, e) && r in Step(w, e).db.runs
    ensures var w' := Step(w, e);
      if r !in w.db.runs then Takes(w', e, r) && w'.db.runs[r].prompt == e.text
      else w'.db.runs[r].prompt == if Takes(w', e, r) then w.db.runs[r].prompt + "\n" + e.text else w.db.runs[r].prompt
  {
    if e.Submit? {
      SubmitPrompt(w, e, r);
    }
  }

  lemma SubmitPrompt(w: World, e: Event, r: nat)
    requires Inv(w) && e.Submit? && r in Step(w, e).db.runs
    ensures var w' := Step(w, e);
      if r !in w.db.runs then Takes(w', e, r) && w'.db.runs[r].prompt == e.text
      else w'.db.runs[r].prompt == if Takes(w', e, r) then w.db.runs[r].prompt + "\n" + e.text else w.db.runs[r].prompt
  {
    if r in w.db.runs && w.db.runs[r].session == e.session && w.db.runs[r].status == Queued {
      assert ActiveIn(w.db, r, e.session) && r < w.db.next;
      assert ActiveRun(w.db, e.session) == Some(r);
    }
  }

  // ---------------------------------------------------------------- whole histories

  ghost predicate History(ws: seq<World>, es: seq<Event>) {
    && |ws| == |es| + 1 && ws[0] == Initial
    && forall i :: 0 <= i < |es| ==> Follows(ws[i], es[i], ws[i + 1])
  }

  lemma {:induction false} AlwaysInv(ws: seq<World>, es: seq<Event>, i: nat)
    requires History(ws, es) && i < |ws|
    ensures Inv(ws[i])
  {
    if i > 0 {
      AlwaysInv(ws, es, i - 1);
      assert Follows(ws[i - 1], es[i - 1], ws[i - 1 + 1]);
      StepKeeps(ws[i - 1], es[i - 1]);
    }
  }

  /** At every moment a session has at most one run that is queued, running or waiting, and exactly
      the running runs carry a claim. */
  lemma AtMostOneActiveRun(ws: seq<World>, es: seq<Event>, i: nat, a: nat, b: nat)
    requires History(ws, es) && i < |ws| && a in ws[i].db.runs && b in ws[i].db.runs
    ensures BothActive(ws[i].db.runs[a], ws[i].db.runs[b]) ==> a == b
    ensures ws[i].db.runs[a].claim.Some? <==> ws[i].db.runs[a].status == Running
  {
    AlwaysInv(ws, es, i);
  }

  /** A run that has left the active states never returns to them. */
  lemma {:induction false} EndedForever(ws: seq<World>, es: seq<Event>, i: nat, j: nat, r: nat)
    requires History(ws, es) && i <= j < |ws| && r in ws[i].db.runs && !ws[i].db.runs[r].Active()
    ensures r in ws[j].db.runs && !ws[j].db.runs[r].Active()
  {
    if i < j {
      EndedForever(ws, es, i, j - 1, r);
      AlwaysInv(ws, es, j - 1);
      assert Follows(ws[j - 1], es[j - 1], ws[j - 1 + 1]);
      EndedStaysEnded(ws[j - 1], es[j - 1], r);
    }
  }

  /** A running run is claimed by the runtime that took it, and only its own status writes end that: in
      one step a running run keeps its claim, or it is the earliest queued run and just claimed. */
  lemma ClaimStep(w: World, e: Event, r: nat)
    requires Inv(w) && Enabled(w, e) && r in Step(w, e).db.runs && Step(w, e).db.runs[r].status == Running
    ensures
      var run := Step(w, e).db.runs[r];
      && r in w.db.runs
      && (if w.db.runs[r].status == Running then run.claim == w.db.runs[r].claim && !(e.Claim? && JustClaimed(w, e, r))
          else e.Claim? && JustClaimed(w, e, r) && run.claim == Some(e.runtime))
  {
    if e.Begin? { assert TaskOk(w, e.run); }
    if e.Claim? { EarliestIsFirst(w.db); }
  }

  /** The run is the earliest of all queued ones. */
  ghost predicate JustClaimed(w: World, e: Event, r: nat) {
    && e.Claim? && r in w.db.runs && w.db.runs[r].status == Queued
    && forall other :: other in w.db.runs && other < r ==> w.db.runs[other].status != Queued
  }

  /** In every history a running run carries the name of the runtime that claimed it last. */
  lemma {:induction false} ClaimNamesClaimant(ws: seq<World>, es: seq<Event>, i: nat, r: nat) returns (k: nat)
    requires History(ws, es) && i < |ws| && StatusAt(ws, i, r, Running)
    ensures k < i && JustClaimed(ws[k], es[k], r) && ws[i].db.runs[r].claim == Some(es[k].runtime)
    ensures forall m :: k < m <= i ==> StatusAt(ws, m, r, Running)
    decreases i
  {
    AlwaysInv(ws, es, i - 1);
    assert Follows(ws[i - 1], es[i - 1], ws[i - 1 + 1]);
    ClaimStep(ws[i - 1], es[i - 1], r);
    if ws[i - 1].db.runs[r].status == Running {
      k := ClaimNamesClaimant(ws, es, i - 1, r);
    } else {
      k := i - 1;
    }
  }

  ghost predicate StatusAt(ws: seq<World>, k: nat, r: nat, status: Status) {
    k < |ws| && r in ws[k].db.runs && ws[k].db.runs[r].status == status
  }

  /** Over any stretch of a history an ended run keeps its status throughout if and only if none of
      the steps is an exception after completion or an approval after failure. */
  lemma {:induction false} EndedStatusKept(ws: seq<World>, es: seq<Event>, i: nat, j: nat, r: nat, status: Status)
    requires History(ws, es) && i <= j < |ws| && StatusAt(ws, i, r, status) && Ended(status)
    ensures (forall k :: i <= k <= j ==> StatusAt(ws, k, r, status)) <==>
      (forall k :: i <= k < j ==> !Flips(ws[k], es[k], r))
    decreases j
  {
    if i < j {
      EndedStatusKept(ws, es, i, j - 1, r, status);
      EndedForever(ws, es, i, j - 1, r);
      AlwaysInv(ws, es, j - 1);
      assert Follows(ws[j - 1], es[j - 1], ws[j - 1 + 1]);
      EndedFlipsExactly(ws[j - 1], es[j - 1], r);
      assert StatusAt(ws, j - 1, r, status) ==> (StatusAt(ws, j, r, status) <==> !Flips(ws[j - 1], es[j - 1], r));
    }
  }

  function JoinLines(texts: seq<string>): string {
    if texts == [] then ""
    else if |texts| == 1 then texts[0]
    else JoinLines(texts[..|texts| - 1]) + "\n" + texts[|texts| - 1]
  }

  /** Texts submitted to the run's session while it was queued, in order, among the first `n` events. */
  ghost function Taken(ws: seq<World>, es: seq<Event>, r: nat, n: nat): seq<string>
    requires |ws| == |es| + 1 && n <= |es|
  {
    if n == 0 then []
    else Taken(ws, es, r, n - 1) + (if Takes(ws[n], es[n - 1], r) then [es[n - 1].text] else [])
  }

  lemma JoinSnoc(texts: seq<string>, text: string)
    ensures JoinLines(texts + [text]) == if texts == [] then text else JoinLines(texts) + "\n" + text
  {
    assert (texts + [text])[..|texts|] == texts;
  }

  lemma {:induction false} PromptIsTaken(ws: seq<World>, es: seq<Event>, r: nat, n: nat)
    requires History(ws, es) && n <= |es|
    ensures r in ws[n].db.runs ==>
      Taken(ws, es, r, n) != [] && ws[n].db.runs[r].prompt == JoinLines(Taken(ws, es, r, n))
    ensures r !in ws[n].db.runs ==> Taken(ws, es, r, n) == []
  {
    if n > 0 {
      PromptIsTaken(ws, es, r, n - 1);
      AlwaysInv(ws, es, n - 1);
      assert Follows(ws[n - 1], es[n - 1], ws[n - 1 + 1]);
      var before := Taken(ws, es, r, n - 1);
      if r in ws[n].db.runs {
        PromptStep(ws[n - 1], es[n - 1], r);
        if Takes(ws[n], es[n - 1], r) {
          JoinSnoc(before, es[n - 1].text);
          assert Taken(ws, es, r, n) == before + [es[n - 1].text];
        } else {
          assert Taken(ws, es, r, n) == before;
        }
      } else if r in ws[n - 1].db.runs {
        EndedStaysEnded(ws[n - 1], es[n - 1], r);
      }
    }
  }

  /** A streaming run works on the newline join of every text submitted while it was queued, before
      and after any recovery. */
  lemma StreamedPromptIsComplete(ws: seq<World>, es: seq<Event>, r: nat, n: nat)
    requires History(ws, es) && n <= |es| && r in ws[n].tasks && !ws[n].tasks[r].Reported?
    ensures ws[n].tasks[r].prompt == JoinLines(Taken(ws, es, r, n))
  {
    AlwaysInv(ws, es, n);
    assert TaskOk(ws[n], r);
    PromptIsTaken(ws, es, r, n);
  }

  /** What becomes of a submitted text: it is kept in a queued prompt, steered into a running run, or
      refused with an error; only a session that waits for a human answers without keeping it. */
  lemma FateOfText(ws: seq<World>, es: seq<Event>, i: nat)
    requires History(ws, es) && i < |es| && es[i].Submit?
    ensures var w, w', x := ws[i], ws[i + 1], es[i].session;
      match SubmitOutcome(w, x)
      case QueuedNew => Takes(w', es[i], w.db.next) && w.db.next !in w.db.runs
      case MergedInto(r) => Takes(w', es[i], r) && r in w.db.runs && w.db.runs[r].status == Queued
      case Steered(r) => ActiveIn(w.db, r, x) && w.db.runs[r].status == Running && r in w.owned && w' == w
      case NotOwned => w' == w && exists r :: ActiveIn(w.db, r, x) && w.db.runs[r].status == Running && r !in w.owned
      case HitlWaiting => w' == w && exists r :: ActiveIn(w.db, r, x) && w.db.runs[r].status == Hitl
      case UnknownSession => w' == w && x !in w.db.sessions
  {
    AlwaysInv(ws, es, i);
    assert Follows(ws[i], es[i], ws[i + 1]);
    var active := ActiveRun(ws[i].db, es[i].session);
    if active.Some? { assert ActiveIn(ws[i].db, active.value, es[i].session); }
  }

  // ---------------------------------------------------------------- what each event does

  function TaskOf(w: World, r: nat): Option<Task> { if r in w.tasks then Some(w.tasks[r]) else None }

  /** Every event, and what it does to one run: its status and its coroutine.  A claim starts the
      coroutine of the earliest queued run, a restart ends every coroutine and queues running runs. */
  lemma EventsMoveRuns(w: World, e: Event, r: nat)
    requires Inv(w) && Enabled(w, e) && r in w.db.runs
    ensures
      var w', run, task := Step(w, e), w.db.runs[r], TaskOf(w, r);
      r in w'.db.runs &&
      (w'.db.runs[r].status, TaskOf(w', r)) ==
        match e
        case Claim(_) =>
          if JustClaimed(w, e, r) then (Running, Some(Task.Claimed(run.prompt))) else (run.status, task)
        case Begin(x) => if x == r then (Running, Some(Streaming(run.prompt))) else (run.status, task)
        case Suspend(x) => if x == r then (Hitl, Some(Reported)) else (run.status, task)
        case Complete(x) => if x == r then (Completed, Some(Reported)) else (run.status, task)
        case Raise(x) => if x == r then (Failed, None) else (run.status, task)
        case Abandon(x) => (run.status, if x == r then None else task)
        case Return(x) => (run.status, if x == r then None else task)
        case ApproveFinish(x, ok) => (if x == r && ok then Completed else run.status, task)
        case Restart => (if run.status == Running then Queued else run.status, None)
        case _ => (run.status, task)
  {
    if e.Claim? { EarliestIsFirst(w.db); }
    if e.Begin? { assert TaskOk(w, e.run); }
  }

  /** The event takes run `r` out of this process's hands. */
  ghost predicate LetsGo(e: Event, r: nat) { e == Raise(r) || e == Return(r) || e == Restart }

  /** A run takes steering exactly as long as its stream has begun here and has neither returned nor
      failed since; an exception before the guarded part leaves it behind. */
  lemma {:induction false} OwnedSinceBegin(ws: seq<World>, es: seq<Event>, i: nat, r: nat)
    requires History(ws, es) && i < |ws|
    ensures r in ws[i].owned <==>
      exists k :: 0 <= k < i && es[k] == Begin(r) && forall m :: k < m < i ==> !LetsGo(es[m], r)
  {
    if i > 0 {
      OwnedSinceBegin(ws, es, i - 1, r);
      assert Follows(ws[i - 1], es[i - 1], ws[i - 1 + 1]);
      OwnedStep(ws[i - 1], es[i - 1], r);
    }
  }

  lemma OwnedStep(w: World, e: Event, r: nat)
    requires Enabled(w, e)
    ensures r in Step(w, e).owned <==> e == Begin(r) || (r in w.owned && !LetsGo(e, r))
  {
  }

  // ---------------------------------------------------------------- findings

  /** A first run that has been submitted and claimed. */
  lemma FirstRunClaimed() returns (w1: World, w2: World, w3: World)
    ensures Follows(Initial, NewSession("s"), w1) && Follows(w1, Submit("s", "t"), w2) && Follows(w2, Claim("rt"), w3)
    ensures w3.tasks == map[0 := Task.Claimed("t")] && 0 in w3.db.runs && w3.approving == {}
  {
    w1 := Step(Initial, NewSession("s"));
    assert ActiveRun(w1.db, "s").None?;
    w2 := Step(w1, Submit("s", "t"));
    assert QueuedAt(w2.db, 0) && EarliestQueued(w2.db, 0) == Some(0);
    w3 := Step(w2, Claim("rt"));
  }

  /** Publishing the completion is inside the guarded part, so a completed run may end as failed. */
  lemma CompletedCanBecomeFailed() returns (ws: seq<World>, es: seq<Event>)
    ensures History(ws, es) && |es| == 6
    ensures 0 in ws[5].db.runs && ws[5].db.runs[0].status == Completed
    ensures 0 in ws[6].db.runs && ws[6].db.runs[0].status == Failed
  {
    var w1, w2, w3 := FirstRunClaimed();
    var w4 := Step(w3, Begin(0));
    var w5 := Step(w4, Complete(0));
    var w6 := Step(w5, Raise(0));
    ws := [Initial, w1, w2, w3, w4, w5, w6];
    es := [NewSession("s"), Submit("s", "t"), Claim("rt"), Begin(0), Complete(0), Raise(0)];
  }

  /** That run suspended, its approval started. */
  lemma FirstRunApproving(w3: World) returns (w4: World, w5: World, w6: World)
    requires w3.tasks == map[0 := Task.Claimed("t")] && 0 in w3.db.runs && w3.approving == {}
    ensures Follows(w3, Begin(0), w4) && Follows(w4, Suspend(0), w5) && Follows(w5, ApproveStart(0), w6)
    ensures 0 in w6.db.runs && 0 in w6.approving && w6.tasks == map[0 := Reported]
  {
    w4 := Step(w3, Begin(0));
    w5 := Step(w4, Suspend(0));
    w6 := Step(w5, ApproveStart(0));
  }

  /** An exception after a suspension, while the approval is under way, fails the run; the approval then
      completes it. */
  lemma FailedCanBecomeCompleted() returns (ws: seq<World>, es: seq<Event>)
    ensures History(ws, es) && |es| == 8
    ensures StatusAt(ws, 7, 0, Failed) && StatusAt(ws, 8, 0, Completed)
  {
    var w1, w2, w3 := FirstRunClaimed();
    var w4, w5, w6 := FirstRunApproving(w3);
    var w7 := Step(w6, Raise(0));
    var w8 := Step(w7, ApproveFinish(0, true));
    ws := [Initial, w1, w2, w3, w4, w5, w6, w7, w8];
    es := [NewSession("s"), Submit("s", "t"), Claim("rt"), Begin(0), Suspend(0), ApproveStart(0), Raise(0),
        ApproveFinish(0, true)];
  }
}
