/** The effectful pass: runs approved calls, answers denied ones and folds in deferred results. */
module Resolution {
  import opened Basics
  import opened Order
  import opened Resolver

  /** The tool return that answers one pending call. */
  datatype Return =
    | Executed(callId: string, call: ToolCall, overrides: Option<string>)
    | Refused(callId: string, reason: string)
    | Settlement(callId: string, status: ExecutionStatus, response: string)

  datatype Resolved = Resolved(
    approved: seq<string>, denied: seq<string>,
    completed: seq<string>, failed: seq<string>, cancelled: seq<string>,
    answers: seq<Return>)

  // ---------------------------------------------------------------- reference definitions

  /** Distinct ids in the order they first appear. */
  function FirstSeen(ids: seq<string>): (r: seq<string>)
    ensures AllDistinct(r) && Elements(r) == Elements(ids)
  {
    if ids == [] then []
    else
      var front, last := ids[..|ids| - 1], ids[|ids| - 1];
      assert ids == front + [last];
      assert Elements(ids) == Elements(front) + {last};
      var seen := FirstSeen(front);
      assert Elements(seen + [last]) == Elements(seen) + {last};
      assert forall i :: 0 <= i < |seen| ==> seen[i] in Elements(seen);
      if last in front then seen else seen + [last]
  }

  function FirstIndex(ids: seq<string>, id: string): (r: nat)
    requires id in ids
    ensures r < |ids| && ids[r] == id && id !in ids[..r]
  {
    if ids[0] == id then 0
    else
      assert ids == [ids[0]] + ids[1..];
      var r := 1 + FirstIndex(ids[1..], id);
      assert ids[..r] == [ids[0]] + ids[1..][..r - 1];
      r
  }

  lemma FirstIndexUnique(ids: seq<string>, id: string, n: nat)
    requires n < |ids| && ids[n] == id && id !in ids[..n]
    ensures FirstIndex(ids, id) == n
  {
  }

  /** `FirstSeen` keeps pending order: earlier in it means first pending earlier. */
  lemma {:induction false} FirstSeenOrder(ids: seq<string>, i: nat, j: nat)
    requires i < j < |FirstSeen(ids)|
    ensures FirstSeen(ids)[i] in ids && FirstSeen(ids)[j] in ids
    ensures FirstIndex(ids, FirstSeen(ids)[i]) < FirstIndex(ids, FirstSeen(ids)[j])
  {
    var front, last := ids[..|ids| - 1], ids[|ids| - 1];
    var seen := FirstSeen(front);
    var a, b := FirstSeen(ids)[i], FirstSeen(ids)[j];
    assert a in Elements(FirstSeen(ids)) && b in Elements(FirstSeen(ids));
    assert a == seen[i] && a in Elements(seen);
    var fa := FirstIndex(front, a);
    assert front[..fa] == ids[..fa];
    FirstIndexUnique(ids, a, fa);
    if j < |seen| {
      FirstSeenOrder(front, i, j);
      var fb := FirstIndex(front, b);
      assert front[..fb] == ids[..fb];
      FirstIndexUnique(ids, b, fb);
    } else {
      FirstIndexUnique(ids, b, |ids| - 1);
    }
  }

  /** The listed ids that lie in a set, in order. */
  function Keep(ids: seq<string>, wanted: set<string>): seq<string> {
    if ids == [] then []
    else
      Keep(ids[..|ids| - 1], wanted) + (if ids[|ids| - 1] in wanted then [ids[|ids| - 1]] else [])
  }

  function ApprovedIn(table: map<string, Decision>): set<string> { set k | k in table && table[k].Approve? }
  function DeniedIn(table: map<string, Decision>): set<string> { set k | k in table && table[k].Deny? }
  function WithStatus(table: map<string, DeferredResult>, s: ExecutionStatus): set<string> {
    set k | k in table && table[k].status == s
  }

  predicate Callable(ids: seq<string>, table: map<string, Decision>, calls: map<string, ToolCall>) {
    forall i :: 0 <= i < |ids| ==> ids[i] in table && (table[ids[i]].Approve? ==> ids[i] in calls)
  }

  /** One return per id: an execution of that very call with exactly the deciding human's arguments, or the
      denial with exactly that human's reason. */
  ghost predicate AnswersApprovals(answers: seq<Return>, ids: seq<string>, table: map<string, Decision>,
                                   calls: map<string, ToolCall>)
  {
    && Callable(ids, table, calls)
    && |answers| == |ids|
    && forall i :: 0 <= i < |ids| ==>
         match table[ids[i]]
         case Approve(arguments) => answers[i] == Executed(ids[i], calls[ids[i]], arguments)
         case Deny(reason) => answers[i] == Refused(ids[i], reason)
  }

  /** One return per deferred id, addressed to the call that was deferred. */
  ghost predicate AnswersDeferred(answers: seq<Return>, ids: seq<string>, table: map<string, DeferredResult>,
                                  pending: map<string, PendingReturn>)
  {
    && |answers| == |ids|
    && forall i :: 0 <= i < |ids| ==>
         && ids[i] in table && ids[i] in pending && table[ids[i]].status.Terminal()
         && answers[i] == Settlement(pending[ids[i]].callId, table[ids[i]].status, table[ids[i]].response)
  }

  /** What a successful resolution must produce. */
  ghost predicate Resolves(r: Resolved, executed: seq<string>, st: RunState, approvals: map<string, Decision>,
                           deferred: map<string, DeferredResult>, pending: Dict<PendingReturn>)
  {
    var ids := FirstSeen(ApprovalIds(st));
    && |r.answers| == |ids| + |pending.keys|
    && AnswersApprovals(r.answers[..|ids|], ids, approvals, ToolCalls(st))
    && AnswersDeferred(r.answers[|ids|..], pending.keys, deferred, pending.table)
    && r.approved == Keep(ids, ApprovedIn(approvals))
    && r.denied == Keep(ids, DeniedIn(approvals))
    && r.completed == Keep(pending.keys, WithStatus(deferred, Succeeded))
    && r.failed == Keep(pending.keys, WithStatus(deferred, Errored))
    && r.cancelled == Keep(pending.keys, WithStatus(deferred, Dropped))
    && executed == r.approved
  }

  /** Where a late failure stops: before the first approved call that cannot be found, with the
      approved calls ahead of it already run; or at the least open deferred id, with all of them run. */
  ghost predicate StopsAt(error: Error, executed: seq<string>, st: RunState, approvals: map<string, Decision>,
                          deferred: map<string, DeferredResult>)
  {
    var order := FirstSeen(ApprovalIds(st));
    match error
    case MissingToolCall(id) =>
      && id in approvals && approvals[id].Approve? && id !in ToolCalls(st) && id in order
      && Callable(order[..FirstIndex(order, id)], approvals, ToolCalls(st))
      && executed == Keep(order[..FirstIndex(order, id)], ApprovedIn(approvals))
    case NotTerminal(id) =>
      && Least(Open(deferred), id) && Callable(order, approvals, ToolCalls(st))
      && executed == Keep(order, ApprovedIn(approvals))
    case _ => executed == []
  }

  lemma {:induction false} FirstSeenPrefix(all: seq<string>, n: nat)
    requires n <= |all|
    ensures FirstSeen(all[..n]) <= FirstSeen(all)
    decreases |all|
  {
    if n == |all| {
      assert all[..n] == all;
    } else {
      assert all[..|all| - 1][..n] == all[..n];
      FirstSeenPrefix(all[..|all| - 1], n);
    }
  }

  /** A newly seen id stands right behind the ids seen before it. */
  lemma FirstSeenAt(all: seq<string>, i: nat)
    requires i < |all| && all[i] !in Elements(FirstSeen(all[..i]))
    ensures all[i] in FirstSeen(all)
    ensures FirstSeen(all)[..FirstIndex(FirstSeen(all), all[i])] == FirstSeen(all[..i])
  {
    FirstSeenStep(all, i);
    FirstSeenPrefix(all, i + 1);
    PrefixIndex(FirstSeen(all), FirstSeen(all[..i]), all[i]);
  }

  lemma PrefixIndex(order: seq<string>, ids: seq<string>, id: string)
    requires ids + [id] <= order && id !in Elements(ids)
    ensures id in order && order[..FirstIndex(order, id)] == ids
  {
    assert order[|ids|] == (ids + [id])[|ids|];
    assert order[..|ids|] == (ids + [id])[..|ids|] == ids;
    FirstIndexUnique(order, id, |ids|);
  }

  // ---------------------------------------------------------------- the pass itself

  method PendingDeferredIds(st: RunState) returns (r: Result<Dict<PendingReturn>>)
    ensures r == Collected(PendingPairs(st.runId, st.deferred))
  {
    var ids: Dict<PendingReturn> := Dict([], map[]);
    var i := 0;
    while i < |st.deferred|
      invariant 0 <= i <= |st.deferred|
      invariant Collected(PendingPairs(st.runId, st.deferred[..i])) == Ok(ids)
    {
      var next := st.deferred[i];
      PendingStep(st.runId, st.deferred, i, ids);
      if next.callDeferred {
        var id := DeferredPrefix(st.runId) + next.callId;
        if id in ids.table {
          return Fail(Duplicate(id));
        }
        ids := Dict(Insert(ids.keys, id), ids.table[id := next]);
      }
      i := i + 1;
    }
    assert st.deferred[..i] == st.deferred;
    r := Ok(ids);
  }

  lemma PendingSnoc(runId: string, deferred: seq<PendingReturn>, i: nat)
    requires i < |deferred|
    ensures PendingPairs(runId, deferred[..i + 1]) == PendingPairs(runId, deferred[..i]) +
      (if deferred[i].callDeferred then [(DeferredPrefix(runId) + deferred[i].callId, deferred[i])] else [])
  {
    assert deferred[..i + 1][..i] == deferred[..i];
  }

  lemma CollectedSnoc<V>(pairs: seq<(string, V)>, key: string, value: V, d: Dict<V>)
    requires Collected(pairs) == Ok(d)
    ensures Collected(pairs + [(key, value)]) ==
      if key in d.table then Fail(Duplicate(key)) else Ok(Dict(Insert(d.keys, key), d.table[key := value]))
  {
    assert (pairs + [(key, value)])[..|pairs|] == pairs;
  }

  /** How one more deferred return changes the collected ids. */
  lemma PendingStep(runId: string, deferred: seq<PendingReturn>, i: nat, ids: Dict<PendingReturn>)
    requires i < |deferred| && Collected(PendingPairs(runId, deferred[..i])) == Ok(ids)
    ensures var id := DeferredPrefix(runId) + deferred[i].callId;
      if !deferred[i].callDeferred then Collected(PendingPairs(runId, deferred[..i + 1])) == Ok(ids)
      else if id in ids.table then Collected(PendingPairs(runId, deferred)) == Fail(Duplicate(id))
      else
        var next := Dict(Insert(ids.keys, id), ids.table[id := deferred[i]]);
        Collected(PendingPairs(runId, deferred[..i + 1])) == Ok(next)
  {
    var before := PendingPairs(runId, deferred[..i]);
    var id := DeferredPrefix(runId) + deferred[i].callId;
    PendingSnoc(runId, deferred, i);
    if deferred[i].callDeferred {
      CollectedSnoc(before, id, deferred[i], ids);
      if id in ids.table { PendingFailsEarly(runId, deferred, i + 1); }
    } else {
      assert PendingPairs(runId, deferred[..i + 1]) == before;
    }
  }

  lemma PendingFailsEarly(runId: string, deferred: seq<PendingReturn>, n: nat)
    requires n <= |deferred| && Collected(PendingPairs(runId, deferred[..n])).Fail?
    ensures Collected(PendingPairs(runId, deferred)) == Collected(PendingPairs(runId, deferred[..n]))
  {
    PendingPrefix(runId, deferred, n);
    var all, some := PendingPairs(runId, deferred), PendingPairs(runId, deferred[..n]);
    assert all[..|some|] == some;
    CollectedFailsEarly(all, |some|);
  }

  lemma {:induction false} PendingPrefix(runId: string, deferred: seq<PendingReturn>, n: nat)
    requires n <= |deferred|
    ensures PendingPairs(runId, deferred[..n]) <= PendingPairs(runId, deferred)
    decreases |deferred|
  {
    if n == |deferred| {
      assert deferred[..n] == deferred;
    } else {
      assert deferred[..|deferred| - 1][..n] == deferred[..n];
      PendingPrefix(runId, deferred[..|deferred| - 1], n);
    }
  }

  /** The unknown and missing checks, before anything runs. */
  method CheckMatch(approvals: Dict<Decision>, deferred: Dict<DeferredResult>, approvalIds: seq<string>,
                    pending: Dict<PendingReturn>) returns (r: Result<()>)
    requires approvals.Valid() && deferred.Valid() && pending.Valid() && Sorted(approvalIds)
    ensures r == MatchIds(approvals, deferred, approvalIds, pending)
  {
    var i := 0;
    while i < |approvals.keys|
      invariant 0 <= i <= |approvals.keys|
      invariant FirstOutside(approvals.keys, Elements(approvalIds))
        == FirstOutside(approvals.keys[i..], Elements(approvalIds))
    {
      if approvals.keys[i] !in approvalIds {
        return Fail(UnknownApproval(approvals.keys[i]));
      }
      assert approvals.keys[i..][1..] == approvals.keys[i + 1..];
      i := i + 1;
    }
    i := 0;
    while i < |deferred.keys|
      invariant 0 <= i <= |deferred.keys|
      invariant FirstOutside(deferred.keys, pending.table.Keys) == FirstOutside(deferred.keys[i..], pending.table.Keys)
    {
      if deferred.keys[i] !in pending.table {
        return Fail(UnknownDeferred(deferred.keys[i]));
      }
      assert deferred.keys[i..][1..] == deferred.keys[i + 1..];
      i := i + 1;
    }
    var missingApprovals := Missing(approvalIds, approvals.table.Keys);
    if missingApprovals != [] {
      return Fail(MissingApprovals(missingApprovals));
    }
    var missingDeferred := Missing(pending.keys, deferred.table.Keys);
    if missingDeferred != [] {
      return Fail(MissingDeferred(missingDeferred));
    }
    r := Ok(());
  }

  lemma KeepSnoc(ids: seq<string>, id: string, wanted: set<string>)
    ensures Keep(ids + [id], wanted) == Keep(ids, wanted) + (if id in wanted then [id] else [])
  {
    assert (ids + [id])[..|ids|] == ids;
  }

  lemma FirstSeenStep(all: seq<string>, i: nat)
    requires i < |all|
    ensures FirstSeen(all[..i + 1]) ==
      if all[i] in Elements(FirstSeen(all[..i])) then FirstSeen(all[..i]) else FirstSeen(all[..i]) + [all[i]]
  {
    assert all[..i + 1][..i] == all[..i];
    assert all[i] in all[..i] <==> all[i] in Elements(all[..i]);
  }

  lemma AllCallable(ids: seq<string>, table: map<string, Decision>, calls: map<string, ToolCall>)
    requires Elements(ids) == table.Keys && Callable(ids, table, calls)
    ensures forall k :: k in table && table[k].Approve? ==> k in calls
  {
    forall k | k in table && table[k].Approve? ensures k in calls {
      assert k in Elements(ids);
      var i :| 0 <= i < |ids| && ids[i] == k;
    }
  }

  lemma ElementsSnoc(xs: seq<string>, x: string)
    ensures Elements(xs + [x]) == Elements(xs) + {x}
  {
  }

  lemma AnswersSnoc(answers: seq<Return>, ids: seq<string>, id: string, answer: Return, table: map<string, Decision>,
                    calls: map<string, ToolCall>)
    requires AnswersApprovals(answers, ids, table, calls) && id in table && (table[id].Approve? ==> id in calls)
    requires answer == if table[id].Approve? then Executed(id, calls[id], table[id].overrides)
                       else Refused(id, table[id].reason)
    ensures AnswersApprovals(answers + [answer], ids + [id], table, calls)
  {
  }

  /** How far answering has come: the distinct ids seen so far, each answered and listed once. */
  ghost predicate Progress(ids: seq<string>, remaining: map<string, Decision>, r: Resolved,
                           approvals: map<string, Decision>, calls: map<string, ToolCall>)
  {
    && remaining.Keys == approvals.Keys - Elements(ids)
    && (forall k :: k in remaining ==> remaining[k] == approvals[k])
    && AnswersApprovals(r.answers, ids, approvals, calls)
    && r.approved == Keep(ids, ApprovedIn(approvals))
    && r.denied == Keep(ids, DeniedIn(approvals))
    && r.completed == r.failed == r.cancelled == []
  }

  /** Records the answer to one approval. */
  function Answered(r: Resolved, id: string, decision: Decision, calls: map<string, ToolCall>): Resolved
    requires decision.Approve? ==> id in calls
  {
    match decision
    case Approve(overrides) =>
      r.(approved := r.approved + [id], answers := r.answers + [Executed(id, calls[id], overrides)])
    case Deny(reason) => r.(denied := r.denied + [id], answers := r.answers + [Refused(id, reason)])
  }

  lemma ProgressStep(ids: seq<string>, remaining: map<string, Decision>, r: Resolved, id: string,
                     approvals: map<string, Decision>, calls: map<string, ToolCall>)
    requires Progress(ids, remaining, r, approvals, calls) && id in remaining
    requires remaining[id].Approve? ==> id in calls
    ensures Progress(ids + [id], remaining - {id}, Answered(r, id, remaining[id], calls), approvals, calls)
  {
    KeepSnoc(ids, id, ApprovedIn(approvals));
    KeepSnoc(ids, id, DeniedIn(approvals));
    ElementsSnoc(ids, id);
    var next := Answered(r, id, remaining[id], calls).answers;
    AnswersSnoc(r.answers, ids, id, next[|r.answers|], approvals, calls);
  }

  lemma StopsHere(st: RunState, i: nat, remaining: map<string, Decision>, r: Resolved, approvals: map<string, Decision>)
    requires i < |st.approvals| && st.approvals[i].callId in remaining
    requires remaining[st.approvals[i].callId].Approve? && st.approvals[i].callId !in ToolCalls(st)
    requires Progress(FirstSeen(ApprovalIds(st)[..i]), remaining, r, approvals, ToolCalls(st))
    ensures StopsAt(MissingToolCall(st.approvals[i].callId), r.approved, st, approvals, map[])
  {
    FirstSeenAt(ApprovalIds(st), i);
  }

  /** The answers once every pending approval is looked at. */
  lemma AllAnswered(st: RunState, remaining: map<string, Decision>, r: Resolved, approvals: map<string, Decision>)
    requires approvals.Keys == Elements(ApprovalIds(st))
    requires Progress(FirstSeen(ApprovalIds(st)), remaining, r, approvals, ToolCalls(st))
    ensures forall k :: k in approvals && approvals[k].Approve? ==> k in ToolCalls(st)
  {
    AllCallable(FirstSeen(ApprovalIds(st)), approvals, ToolCalls(st));
  }

  /** Answers the pending approvals in pending order; `executed` is the log of calls that ran. */
  method ResolveApprovals(st: RunState, approvals: map<string, Decision>)
    returns (r: Result<Resolved>, executed: seq<string>)
    requires approvals.Keys == Elements(ApprovalIds(st))
    ensures r.Ok? <==> forall k :: k in approvals && approvals[k].Approve? ==> k in ToolCalls(st)
    ensures r.Fail? ==> r.error.MissingToolCall? && StopsAt(r.error, executed, st, approvals, map[])
    ensures r.Ok? ==>
      var ids := FirstSeen(ApprovalIds(st));
      && AnswersApprovals(r.value.answers, ids, approvals, ToolCalls(st))
      && r.value.approved == Keep(ids, ApprovedIn(approvals)) == executed
      && r.value.denied == Keep(ids, DeniedIn(approvals))
      && r.value.completed == r.value.failed == r.value.cancelled == []
  {
    executed := [];
    var calls := ToolCalls(st);
    var remaining := approvals;
    var resolved := Resolved([], [], [], [], [], []);
    ghost var all := ApprovalIds(st);
    ghost var ids: seq<string> := [];
    var i := 0;
    while i < |st.approvals|
      invariant 0 <= i <= |st.approvals|
      invariant ids == FirstSeen(all[..i])
      invariant Progress(ids, remaining, resolved, approvals, calls)
      invariant executed == resolved.approved
    {
      var id := st.approvals[i].callId;
      assert id == all[i] && id in Elements(all);
      FirstSeenStep(all, i);
      if id in remaining {
        var decision := remaining[id];
        if decision.Approve? && id !in calls {
          StopsHere(st, i, remaining, resolved, approvals);
          return Fail(MissingToolCall(id)), executed;
        }
        ProgressStep(ids, remaining, resolved, id, approvals, calls);
        if decision.Approve? { executed := executed + [id]; }
        resolved := Answered(resolved, id, decision, calls);
        remaining := remaining - {id};
        ids := ids + [id];
      }
      i := i + 1;
    }
    assert all[..i] == all;
    AllAnswered(st, remaining, resolved, approvals);
    r := Ok(resolved);
  }

  /** Folds in deferred results, in id order. */
  method ResolveDeferred(base: Resolved, deferred: map<string, DeferredResult>, pending: Dict<PendingReturn>)
    returns (r: Result<Resolved>)
    requires pending.Valid() && deferred.Keys == pending.table.Keys && AllDistinct(pending.keys)
    requires base.completed == base.failed == base.cancelled == []
    ensures r.Ok? <==> forall k :: k in deferred ==> deferred[k].status.Terminal()
    ensures r.Fail? ==> r.error.NotTerminal? && Least(Open(deferred), r.error.id)
    ensures r.Ok? ==> Folded(base, r.value, pending.keys, deferred, pending.table)
  {
    InKeys(pending);
    var remaining := deferred;
    var resolved := base;
    var i := 0;
    while i < |pending.keys|
      invariant 0 <= i <= |pending.keys|
      invariant forall j :: i <= j < |pending.keys| ==>
        pending.keys[j] in remaining && remaining[pending.keys[j]] == deferred[pending.keys[j]]
      invariant Folded(base, resolved, pending.keys[..i], deferred, pending.table)
    {
      var id := pending.keys[i];
      FoldStep(base, resolved, pending.keys, i, deferred, pending.table);
      var result := remaining[id];
      remaining := remaining - {id};
      if !result.status.Terminal() {
        OpenIsLeast(resolved.answers[|base.answers|..], pending, i, deferred);
        return Fail(NotTerminal(id));
      }
      resolved := Settle(resolved, id, pending.table[id], result);
      i := i + 1;
    }
    assert pending.keys[..i] == pending.keys;
    AllTerminal(resolved.answers[|base.answers|..], pending.keys, deferred, pending.table);
    r := Ok(resolved);
  }

  lemma OpenIsLeast(answers: seq<Return>, pending: Dict<PendingReturn>, i: nat, deferred: map<string, DeferredResult>)
    requires pending.Valid() && deferred.Keys == pending.table.Keys && i < |pending.keys|
    requires AnswersDeferred(answers, pending.keys[..i], deferred, pending.table)
    requires pending.keys[i] in Open(deferred)
    ensures Least(Open(deferred), pending.keys[i])
  {
    forall j | 0 <= j < i ensures pending.keys[j] !in Open(deferred) {
      assert pending.keys[..i][j] == pending.keys[j];
    }
    FirstIsLeast(pending.keys, Open(deferred), pending.keys[i]);
  }

  /** Records one terminal deferred result. */
  function Settle(resolved: Resolved, id: string, pending: PendingReturn, result: DeferredResult): Resolved
    requires result.status.Terminal()
  {
    var settlement := Settlement(pending.callId, result.status, result.response);
    var answered := resolved.(answers := resolved.answers + [settlement]);
    match result.status
    case Succeeded => answered.(completed := answered.completed + [id])
    case Errored => answered.(failed := answered.failed + [id])
    case Dropped => answered.(cancelled := answered.cancelled + [id])
  }

  lemma AllTerminal(answers: seq<Return>, ids: seq<string>, table: map<string, DeferredResult>,
                    pending: map<string, PendingReturn>)
    requires AnswersDeferred(answers, ids, table, pending) && Elements(ids) == table.Keys
    ensures forall k :: k in table ==> table[k].status.Terminal()
  {
    forall k | k in table ensures table[k].status.Terminal() {
      assert k in Elements(ids);
      var i :| 0 <= i < |ids| && ids[i] == k;
    }
  }

  /** The state after the deferred ids `done`. */
  ghost predicate Folded(base: Resolved, now: Resolved, done: seq<string>, deferred: map<string, DeferredResult>,
                         pending: map<string, PendingReturn>)
  {
    && base.answers <= now.answers
    && AnswersDeferred(now.answers[|base.answers|..], done, deferred, pending)
    && now.approved == base.approved && now.denied == base.denied
    && now.completed == Keep(done, WithStatus(deferred, Succeeded))
    && now.failed == Keep(done, WithStatus(deferred, Errored))
    && now.cancelled == Keep(done, WithStatus(deferred, Dropped))
  }

  lemma FoldStep(base: Resolved, now: Resolved, keys: seq<string>, i: nat, deferred: map<string, DeferredResult>,
                 pending: map<string, PendingReturn>)
    requires i < |keys| && keys[i] in deferred && keys[i] in pending
    requires Folded(base, now, keys[..i], deferred, pending)
    ensures deferred[keys[i]].status.Terminal() ==>
      Folded(base, Settle(now, keys[i], pending[keys[i]], deferred[keys[i]]), keys[..i + 1], deferred, pending)
  {
    var id := keys[i];
    assert keys[..i + 1] == keys[..i] + [id];
    if deferred[id].status.Terminal() {
      var next := Settle(now, id, pending[id], deferred[id]);
      KeepSnoc(keys[..i], id, WithStatus(deferred, Succeeded));
      KeepSnoc(keys[..i], id, WithStatus(deferred, Errored));
      KeepSnoc(keys[..i], id, WithStatus(deferred, Dropped));
      SettlementsSnoc(now.answers[|base.answers|..], keys[..i], id, deferred, pending);
      assert next.answers[|base.answers|..] == now.answers[|base.answers|..] +
        [Settlement(pending[id].callId, deferred[id].status, deferred[id].response)];
    }
  }

  lemma SettlementsSnoc(answers: seq<Return>, ids: seq<string>, id: string, table: map<string, DeferredResult>,
                        pending: map<string, PendingReturn>)
    requires AnswersDeferred(answers, ids, table, pending) && id in table && id in pending
             && table[id].status.Terminal()
    ensures AnswersDeferred(answers + [Settlement(pending[id].callId, table[id].status, table[id].response)],
                            ids + [id], table, pending)
  {
  }

  lemma SortedDistinct(keys: seq<string>)
    requires Sorted(keys)
    ensures AllDistinct(keys)
  {
    forall i, j | 0 <= i < j < |keys| ensures keys[i] != keys[j] { LessIrreflexive(keys[i]); }
  }

  method ResolveMatched(st: RunState, approvals: map<string, Decision>, deferred: map<string, DeferredResult>,
                        pending: Dict<PendingReturn>) returns (r: Result<Resolved>, executed: seq<string>)
    requires pending.Valid() && approvals.Keys == Elements(ApprovalIds(st)) && deferred.Keys == pending.table.Keys
    ensures r.Ok? <==>
      && (forall k :: k in approvals && approvals[k].Approve? ==> k in ToolCalls(st))
      && (forall k :: k in deferred ==> deferred[k].status.Terminal())
    ensures r.Fail? ==> Late(r) && StopsAt(r.error, executed, st, approvals, deferred)
    ensures r.Ok? ==> Resolves(r.value, executed, st, approvals, deferred, pending)
  {
    r, executed := ResolveApprovals(st, approvals);
    SortedDistinct(pending.keys);
    if r.Ok? {
      ghost var first := r.value.answers;
      r := ResolveDeferred(r.value, deferred, pending);
      assert r.Ok? ==> r.value.answers[..|first|] == first;
    }
  }

  /**
    The whole pass. It succeeds exactly on the resolvable decision sets, that is exactly when the
    preflight accepts; and unless the one defect is an approved call that cannot be found or a
    deferred result that is not terminal, it fails with the preflight's own error before any call runs.
  */
  method ResolveHitlResults(aliases: Aliases, st: RunState, results: Results)
    returns (r: Result<Resolved>, executed: seq<string>)
    ensures r.Ok? <==> Resolvable(aliases, st, results)
    ensures r.Ok? <==> Validate(aliases, st, results).Ok?
    ensures Late(r) <==> Late(Validate(aliases, st, results))
    ensures r.Fail? && !Late(r) ==> executed == [] && Validate(aliases, st, results) == Fail(r.error)
    ensures Late(r) ==>
      var gathered := Gathering(aliases, st, results);
      gathered.Ok? && StopsAt(r.error, executed, st, gathered.value.approvals.table, gathered.value.deferred.table)
    ensures r.Ok? ==>
      var gathered := Gathering(aliases, st, results);
      && gathered.Ok?
      && Resolves(r.value, executed, st, gathered.value.approvals.table, gathered.value.deferred.table,
          gathered.value.pending)
  {
    PreflightDecides(aliases, st, results);
    executed := [];
    var gathered := Gather(aliases, st, results);
    if gathered.Fail? {
      return Fail(gathered.error), executed;
    }
    var g := gathered.value;
    MatchedMeansResolvable(aliases, st, results, g);
    var approvalIds := SortedSet(ApprovalIds(st));
    var matched := CheckMatch(g.approvals, g.deferred, approvalIds, g.pending);
    if matched.Fail? {
      return Fail(matched.error), executed;
    }
    r, executed := ResolveMatched(st, g.approvals.table, g.deferred.table, g.pending);
  }

  method Gather(aliases: Aliases, st: RunState, results: Results) returns (r: Result<Gathered>)
    ensures r == Gathering(aliases, st, results)
  {
    if st.status != Waiting {
      return Fail(NotWaiting);
    }
    if st.approvals == [] && st.deferred == [] {
      return Fail(NoPending);
    }
    var approvals := CollectUnique(ApprovalPairs(aliases, st, results));
    if approvals.Fail? {
      return Fail(approvals.error);
    }
    var deferred := CollectUnique(DeferredPairs(aliases, st, results));
    if deferred.Fail? {
      return Fail(deferred.error);
    }
    var pending := PendingDeferredIds(st);
    if pending.Fail? {
      return Fail(pending.error);
    }
    r := Ok(Gathered(approvals.value, deferred.value, pending.value));
  }

  // ---------------------------------------------------------------- what a resolution means

  lemma {:induction false} KeepSplits(ids: seq<string>, left: set<string>, right: set<string>)
    requires left !! right
    ensures multiset(Keep(ids, left)) + multiset(Keep(ids, right)) == multiset(Keep(ids, left + right))
  {
    if ids != [] { KeepSplits(ids[..|ids| - 1], left, right); }
  }

  lemma {:induction false} KeepAll(ids: seq<string>, wanted: set<string>)
    requires Elements(ids) <= wanted
    ensures Keep(ids, wanted) == ids
  {
    if ids != [] {
      assert ids == ids[..|ids| - 1] + [ids[|ids| - 1]];
      assert ids[|ids| - 1] in Elements(ids);
      assert Elements(ids[..|ids| - 1]) <= Elements(ids);
      KeepAll(ids[..|ids| - 1], wanted);
    }
  }

  /** The outcome lists split the pending approval ids and the deferred ids: none is lost, none is
      listed twice. */
  lemma OutcomesPartition(r: Resolved, executed: seq<string>, st: RunState, approvals: map<string, Decision>,
                          deferred: map<string, DeferredResult>, pending: Dict<PendingReturn>)
    requires pending.Valid() && Resolves(r, executed, st, approvals, deferred, pending)
    ensures multiset(r.approved) + multiset(r.denied) == multiset(FirstSeen(ApprovalIds(st)))
    ensures multiset(r.completed) + multiset(r.failed) + multiset(r.cancelled) == multiset(pending.keys)
  {
    var ids := FirstSeen(ApprovalIds(st));
    KeepSplits(ids, ApprovedIn(approvals), DeniedIn(approvals));
    KeepAll(ids, ApprovedIn(approvals) + DeniedIn(approvals));
    var s, e, c := WithStatus(deferred, Succeeded), WithStatus(deferred, Errored), WithStatus(deferred, Dropped);
    KeepSplits(pending.keys, s, e);
    KeepSplits(pending.keys, s + e, c);
    KeepAll(pending.keys, s + e + c);
  }

  /** Two spellings of one canonical id never get through, whatever else was decided. */
  lemma AliasesAreDuplicates(aliases: Aliases, st: RunState, results: Results, i: nat, j: nat)
    requires
      || (i < j < |results.approvals| && CanonicalApproval(aliases, st.runId, results.approvals[i].0)
                                      == CanonicalApproval(aliases, st.runId, results.approvals[j].0))
      || (i < j < |results.deferred| && CanonicalDeferred(aliases, st.runId, results.deferred[i].id)
                                     == CanonicalDeferred(aliases, st.runId, results.deferred[j].id))
    requires st.status == Waiting && (st.approvals != [] || st.deferred != [])
    ensures Validate(aliases, st, results).Fail? && Validate(aliases, st, results).error.Duplicate?
  {
    var approvals := Keys(ApprovalPairs(aliases, st, results));
    var deferred := Keys(DeferredPairs(aliases, st, results));
    assert (i < j < |approvals| && approvals[i] == approvals[j]) || (i < j < |deferred| && deferred[i] == deferred[j]);
  }

  /** Answers come from the decisions as they were given: an approval runs the call that its id stands for
      with the given arguments, a denial gives its reason, a deferred result its status and response to
      the call that was deferred. */
  lemma DecisionsAreAnswered(aliases: Aliases, st: RunState, results: Results, r: Resolved, executed: seq<string>,
        i: nat)
    requires Gathering(aliases, st, results).Ok?
    requires
      var g := Gathering(aliases, st, results).value;
      && Resolves(r, executed, st, g.approvals.table, g.deferred.table, g.pending)
      && g.approvals.table.Keys == Elements(ApprovalIds(st)) && g.deferred.table.Keys == g.pending.table.Keys
    ensures i < |results.approvals| ==>
      var id := CanonicalApproval(aliases, st.runId, results.approvals[i].0);
      match results.approvals[i].1
      case Approve(arguments) =>
        id in ToolCalls(st) && id in executed && Executed(id, ToolCalls(st)[id], arguments) in r.answers
      case Deny(reason) => id !in executed && Refused(id, reason) in r.answers
    ensures i < |results.deferred| ==>
      var id := CanonicalDeferred(aliases, st.runId, results.deferred[i].id);
      exists p :: p in st.deferred && p.callDeferred && id == "deferred_" + st.runId + "_" + p.callId
        && Settlement(p.callId, results.deferred[i].status, results.deferred[i].response) in r.answers
  {
    var g := Gathering(aliases, st, results).value;
    GatheringHolds(aliases, st, results);
    if i < |results.approvals| { ApprovalAnswered(aliases, st, results, g, r, executed, i); }
    if i < |results.deferred| { DeferredAnswered(aliases, st, results, g, r, executed, i); }
  }

  lemma ApprovalAnswered(aliases: Aliases, st: RunState, results: Results, g: Gathered, r: Resolved,
        executed: seq<string>, i: nat)
    requires GatheredFrom(g, aliases, st, results) && i < |results.approvals|
    requires Resolves(r, executed, st, g.approvals.table, g.deferred.table, g.pending)
    requires g.approvals.table.Keys == Elements(ApprovalIds(st))
    ensures
      var id := CanonicalApproval(aliases, st.runId, results.approvals[i].0);
      match results.approvals[i].1
      case Approve(arguments) =>
        id in ToolCalls(st) && id in executed && Executed(id, ToolCalls(st)[id], arguments) in r.answers
      case Deny(reason) => id !in executed && Refused(id, reason) in r.answers
  {
    var pair := ApprovalPairs(aliases, st, results)[i];
    var id := pair.0;
    assert id in g.approvals.table && g.approvals.table[id] == pair.1 == results.approvals[i].1;
    var ids := FirstSeen(ApprovalIds(st));
    assert id in Elements(ids);
    AnswerListed(r.answers, ids, g.approvals.table, ToolCalls(st), id);
    KeepHas(ids, ApprovedIn(g.approvals.table), id);
  }

  lemma AnswerListed(answers: seq<Return>, ids: seq<string>, table: map<string, Decision>,
                     calls: map<string, ToolCall>, id: string)
    requires |ids| <= |answers| && AnswersApprovals(answers[..|ids|], ids, table, calls) && id in ids
    ensures id in table
    ensures
      match table[id]
      case Approve(arguments) => id in calls && Executed(id, calls[id], arguments) in answers
      case Deny(reason) => Refused(id, reason) in answers
  {
    var k :| 0 <= k < |ids| && ids[k] == id;
    assert answers[..|ids|][k] == answers[k];
  }

  lemma SettlementListed(answers: seq<Return>, n: nat, keys: seq<string>, table: map<string, DeferredResult>,
                         pending: map<string, PendingReturn>, id: string)
    requires n <= |answers| && AnswersDeferred(answers[n..], keys, table, pending) && id in keys
    ensures id in table && id in pending
    ensures Settlement(pending[id].callId, table[id].status, table[id].response) in answers
  {
    var k :| 0 <= k < |keys| && keys[k] == id;
    assert answers[n..][k] == answers[n + k];
  }

  lemma DeferredAnswered(aliases: Aliases, st: RunState, results: Results, g: Gathered, r: Resolved,
        executed: seq<string>, i: nat)
    requires GatheredFrom(g, aliases, st, results) && i < |results.deferred|
    requires Resolves(r, executed, st, g.approvals.table, g.deferred.table, g.pending)
    requires g.deferred.table.Keys == g.pending.table.Keys
    ensures
      var id := CanonicalDeferred(aliases, st.runId, results.deferred[i].id);
      exists p :: p in st.deferred && p.callDeferred && id == "deferred_" + st.runId + "_" + p.callId
        && Settlement(p.callId, results.deferred[i].status, results.deferred[i].response) in r.answers
  {
    var pair := DeferredPairs(aliases, st, results)[i];
    var id := pair.0;
    assert id in g.deferred.table && g.deferred.table[id] == pair.1;
    InKeys(g.pending);
    SettlementListed(r.answers, |FirstSeen(ApprovalIds(st))|, g.pending.keys, g.deferred.table, g.pending.table, id);
    HeldEntries(g.pending, PendingPairs(st.runId, st.deferred), id);
    PendingExactly(st.runId, st.deferred, id, g.pending.table[id]);
  }

  lemma {:induction false} KeepHas(ids: seq<string>, wanted: set<string>, id: string)
    ensures id in Keep(ids, wanted) <==> id in ids && id in wanted
  {
    if ids != [] { KeepHas(ids[..|ids| - 1], wanted, id); }
  }

  /** The outcome lists hold exactly what was decided so, in the order of the pending work. */
  lemma OutcomesAreExact(r: Resolved, executed: seq<string>, st: RunState, approvals: map<string, Decision>,
                         deferred: map<string, DeferredResult>, pending: Dict<PendingReturn>, id: string)
    requires pending.Valid() && Resolves(r, executed, st, approvals, deferred, pending)
    requires approvals.Keys == Elements(ApprovalIds(st)) && deferred.Keys == pending.table.Keys
    ensures id in r.approved <==> id in approvals && approvals[id].Approve?
    ensures id in r.denied <==> id in approvals && approvals[id].Deny?
    ensures id in r.completed <==> id in deferred && deferred[id].status == Succeeded
    ensures id in r.failed <==> id in deferred && deferred[id].status == Errored
    ensures id in r.cancelled <==> id in deferred && deferred[id].status == Dropped
    ensures executed == r.approved
  {
    var ids := FirstSeen(ApprovalIds(st));
    assert id in ids <==> id in Elements(ids);
    InKeys(pending);
    KeepHas(ids, ApprovedIn(approvals), id);
    KeepHas(ids, DeniedIn(approvals), id);
    KeepHas(pending.keys, WithStatus(deferred, Succeeded), id);
    KeepHas(pending.keys, WithStatus(deferred, Errored), id);
    KeepHas(pending.keys, WithStatus(deferred, Dropped), id);
  }

  /** An outcome list keeps the order of the ids it is taken from. */
  lemma {:induction false} KeepOrder(ids: seq<string>, wanted: set<string>, i: nat, j: nat) returns (a: nat, b: nat)
    requires i < j < |Keep(ids, wanted)|
    ensures a < b < |ids| && ids[a] == Keep(ids, wanted)[i] && ids[b] == Keep(ids, wanted)[j]
  {
    var n := |ids| - 1;
    if j < |Keep(ids[..n], wanted)| {
      a, b := KeepOrder(ids[..n], wanted, i, j);
    } else {
      b := n;
      var front := Keep(ids[..n], wanted);
      KeepHas(ids[..n], wanted, front[i]);
      a :| 0 <= a < n && ids[..n][a] == front[i];
    }
  }
}
