/**
  Human decisions for a waiting run: an effect-free preflight (`Validate`) and the effectful
  resolution (`ResolveHitlResults`), two separately written passes that must agree.
*/
module Resolver {
  import opened Basics
  import opened Order

  datatype Status = Starting | Running | Waiting | Completed | Failed | Cancelled

  datatype ExecutionStatus = Queued | InProgress | Suspended | Succeeded | Errored | Dropped {
    predicate Terminal() { Succeeded? || Errored? || Dropped? }
  }

  datatype Decision = Approve(overrides: Option<string>) | Deny(reason: string)

  datatype DeferredResult = DeferredResult(id: string, status: ExecutionStatus, response: string)

  /** A tool return awaiting a decision; `callDeferred` is its control-flow marker. */
  datatype PendingReturn = PendingReturn(callId: string, callDeferred: bool)

  datatype ToolCall = ToolCall(id: string, arguments: string)

  datatype RunState = RunState(
    runId: string,
    status: Status,
    approvals: seq<PendingReturn>,
    deferred: seq<PendingReturn>,
    responseCalls: seq<ToolCall>,
    pendingCalls: seq<ToolCall>)

  /** `approvals` lists an ordered map: its keys ascend strictly. */
  datatype Results = Results(approvals: seq<(string, Decision)>, deferred: seq<DeferredResult>)

  /** Provider-side call ids and the canonical ids they stand for. */
  type Aliases = map<string, string>

  datatype Error =
    | NotWaiting | NoPending
    | Duplicate(id: string)
    | UnknownApproval(id: string) | UnknownDeferred(id: string)
    | MissingApprovals(ids: seq<string>) | MissingDeferred(ids: seq<string>)
    | MissingToolCall(id: string) | NotTerminal(id: string)

  datatype Result<+T> = Ok(value: T) | Fail(error: Error)

  // ---------------------------------------------------------------- canonical ids

  function CanonicalCall(aliases: Aliases, id: string): string {
    if id in aliases then aliases[id] else id
  }

  function ApprovalPrefix(runId: string): string { "approval_" + runId + "_" }
  function DeferredPrefix(runId: string): string { "deferred_" + runId + "_" }

  function CanonicalApproval(aliases: Aliases, runId: string, id: string): string {
    var prefix := ApprovalPrefix(runId);
    CanonicalCall(aliases, if prefix <= id then id[|prefix|..] else id)
  }

  function CanonicalDeferred(aliases: Aliases, runId: string, id: string): string {
    var prefix := DeferredPrefix(runId);
    if prefix <= id then prefix + CanonicalCall(aliases, id[|prefix|..]) else id
  }

  /** The plain, the record-style and an aliased spelling of one call all name the same decision. */
  lemma SpellingsAgree(aliases: Aliases, runId: string, call: string, alias: string)
    requires alias in aliases && aliases[alias] == call && call !in aliases
    requires !(ApprovalPrefix(runId) <= call) && !(ApprovalPrefix(runId) <= alias)
    ensures CanonicalApproval(aliases, runId, call) == call
    ensures CanonicalApproval(aliases, runId, alias) == call
    ensures CanonicalApproval(aliases, runId, ApprovalPrefix(runId) + call) == call
    ensures CanonicalApproval(aliases, runId, ApprovalPrefix(runId) + alias) == call
    ensures CanonicalDeferred(aliases, runId, DeferredPrefix(runId) + alias) == DeferredPrefix(runId) + call
  {
    var p := ApprovalPrefix(runId);
    assert (p + call)[|p|..] == call && (p + alias)[|p|..] == alias;
    var d := DeferredPrefix(runId);
    assert (d + alias)[|d|..] == alias;
  }

  /** What every spelling stands for: the record prefix of an approval is dropped, that of a deferred
      result kept; the call behind it is looked up among the aliases; a deferred id without the prefix is
      its own canonical id. */
  lemma CanonicalIds(aliases: Aliases, runId: string, call: string)
    ensures
      var approval, deferred := "approval_" + runId + "_", "deferred_" + runId + "_";
      var known := if call in aliases then aliases[call] else call;
      && CanonicalApproval(aliases, runId, approval + call) == known
      && CanonicalDeferred(aliases, runId, deferred + call) == deferred + known
      && (!(approval <= call) ==> CanonicalApproval(aliases, runId, call) == known)
      && (!(deferred <= call) ==> CanonicalDeferred(aliases, runId, call) == call)
  {
    var approval, deferred := "approval_" + runId + "_", "deferred_" + runId + "_";
    assert (approval + call)[|approval|..] == call && (deferred + call)[|deferred|..] == call;
  }

  // ---------------------------------------------------------------- ordered maps

  /** An ordered map: sorted keys and a lookup table. */
  datatype Dict<V> = Dict(keys: seq<string>, table: map<string, V>) {
    ghost predicate Valid() { Sorted(keys) && Elements(keys) == table.Keys }
  }

  function Keys<V>(pairs: seq<(string, V)>): (r: seq<string>)
    ensures |r| == |pairs|
    ensures forall i :: 0 <= i < |pairs| ==> r[i] == pairs[i].0
  {
    seq(|pairs|, i requires 0 <= i < |pairs| => pairs[i].0)
  }

  /** `d` holds exactly the given pairs, whose keys are all different. */
  ghost predicate Holds<V>(d: Dict<V>, pairs: seq<(string, V)>) {
    && d.Valid() && AllDistinct(Keys(pairs)) && d.table.Keys == Elements(Keys(pairs))
    && forall i :: 0 <= i < |pairs| ==> pairs[i].0 in d.table && d.table[pairs[i].0] == pairs[i].1
  }

  lemma HoldsSnoc<V>(d: Dict<V>, pairs: seq<(string, V)>, key: string, value: V)
    requires Holds(d, pairs) && key !in d.table
    ensures Holds(Dict(Insert(d.keys, key), d.table[key := value]), pairs + [(key, value)])
  {
    var next := pairs + [(key, value)];
    assert Keys(next) == Keys(pairs) + [key];
    assert Elements(Keys(next)) == Elements(Keys(pairs)) + {key};
    assert forall i :: 0 <= i < |pairs| ==> Keys(pairs)[i] in Elements(Keys(pairs));
  }

  lemma RepeatedKey<V>(d: Dict<V>, pairs: seq<(string, V)>, key: string, value: V)
    requires Holds(d, pairs) && key in d.table
    ensures !AllDistinct(Keys(pairs + [(key, value)]))
  {
    assert key in Elements(Keys(pairs));
    var k :| 0 <= k < |pairs| && Keys(pairs)[k] == key;
    assert Keys(pairs + [(key, value)])[k] == Keys(pairs + [(key, value)])[|pairs|];
  }

  lemma DistinctPrefix<V>(pairs: seq<(string, V)>)
    requires pairs != [] && AllDistinct(Keys(pairs))
    ensures AllDistinct(Keys(pairs[..|pairs| - 1]))
  {
    assert forall i :: 0 <= i < |pairs| - 1 ==> Keys(pairs[..|pairs| - 1])[i] == Keys(pairs)[i];
  }

  /** What collecting pairs one by one yields: the ordered map that holds exactly them, or the
      first repeated key. */
  function Collected<V>(pairs: seq<(string, V)>): (r: Result<Dict<V>>)
    ensures r.Ok? <==> AllDistinct(Keys(pairs))
    ensures r.Ok? ==> Holds(r.value, pairs)
    ensures r.Fail? ==> r.error.Duplicate?
  {
    if pairs == [] then Ok(Dict([], map[]))
    else
      var front, last := pairs[..|pairs| - 1], pairs[|pairs| - 1];
      assert pairs == front + [(last.0, last.1)];
      assert AllDistinct(Keys(pairs)) ==> AllDistinct(Keys(front)) by {
        if AllDistinct(Keys(pairs)) { DistinctPrefix(pairs); }
      }
      match Collected(front)
      case Fail(e) => Fail(e)
      case Ok(d) =>
        if last.0 in d.table then RepeatedKey(d, front, last.0, last.1); Fail(Duplicate(last.0))
        else HoldsSnoc(d, front, last.0, last.1); Ok(Dict(Insert(d.keys, last.0), d.table[last.0 := last.1]))
  }

  lemma {:induction false} CollectedFailsEarly<V>(pairs: seq<(string, V)>, n: nat)
    requires n <= |pairs| && Collected(pairs[..n]).Fail?
    ensures Collected(pairs) == Collected(pairs[..n])
    decreases |pairs|
  {
    if n == |pairs| {
      assert pairs[..n] == pairs;
    } else {
      assert pairs[..|pairs| - 1][..n] == pairs[..n];
      CollectedFailsEarly(pairs[..|pairs| - 1], n);
    }
  }

  lemma CollectedStep<V>(pairs: seq<(string, V)>, i: nat, d: Dict<V>)
    requires i < |pairs| && Collected(pairs[..i]) == Ok(d)
    ensures Collected(pairs[..i + 1]) ==
      if pairs[i].0 in d.table then Fail(Duplicate(pairs[i].0))
      else Ok(Dict(Insert(d.keys, pairs[i].0), d.table[pairs[i].0 := pairs[i].1]))
  {
    assert pairs[..i + 1][..i] == pairs[..i];
  }

  lemma CollectedStops<V>(pairs: seq<(string, V)>, i: nat, d: Dict<V>)
    requires i < |pairs| && Collected(pairs[..i]) == Ok(d) && pairs[i].0 in d.table
    ensures Collected(pairs) == Fail(Duplicate(pairs[i].0))
  {
    var prefix := pairs[..i + 1];
    var stopped: Result<Dict<V>> := Fail(Duplicate(pairs[i].0));
    assert Collected(prefix) == stopped by { CollectedStep(pairs, i, d); }
    assert Collected(pairs) == Collected(prefix) by { CollectedFailsEarly(pairs, i + 1); }
  }

  method CollectUnique<V>(pairs: seq<(string, V)>) returns (r: Result<Dict<V>>)
    ensures r == Collected(pairs)
  {
    var d: Dict<V> := Dict([], map[]);
    var i := 0;
    while i < |pairs|
      invariant 0 <= i <= |pairs|
      invariant Collected(pairs[..i]) == Ok(d)
    {
      var (key, value) := pairs[i];
      if key in d.table {
        CollectedStops(pairs, i, d);
        return Fail(Duplicate(key));
      }
      CollectedStep(pairs, i, d);
      d := Dict(Insert(d.keys, key), d.table[key := value]);
      i := i + 1;
    }
    assert pairs[..i] == pairs;
    r := Ok(d);
  }

  // ---------------------------------------------------------------- what the two passes look at

  function ApprovalPairs(aliases: Aliases, st: RunState, results: Results): seq<(string, Decision)> {
    seq(|results.approvals|, i requires 0 <= i < |results.approvals| =>
      (CanonicalApproval(aliases, st.runId, results.approvals[i].0), results.approvals[i].1))
  }

  function DeferredPairs(aliases: Aliases, st: RunState, results: Results): seq<(string, DeferredResult)> {
    seq(|results.deferred|, i requires 0 <= i < |results.deferred| =>
      var id := CanonicalDeferred(aliases, st.runId, results.deferred[i].id);
      (id, results.deferred[i].(id := id)))
  }

  /** Deferred returns that carry the deferral marker, under their record id. */
  function PendingPairs(runId: string, deferred: seq<PendingReturn>): seq<(string, PendingReturn)> {
    if deferred == [] then []
    else
      var last := deferred[|deferred| - 1];
      PendingPairs(runId, deferred[..|deferred| - 1]) +
      (if last.callDeferred then [(DeferredPrefix(runId) + last.callId, last)] else [])
  }

  /** Exactly the marked returns count as pending, under their record ids. */
  lemma {:induction false} PendingExactly(runId: string, deferred: seq<PendingReturn>, id: string, p: PendingReturn)
    ensures (id, p) in PendingPairs(runId, deferred) <==>
      p in deferred && p.callDeferred && id == "deferred_" + runId + "_" + p.callId
  {
    if deferred != [] {
      var front := deferred[..|deferred| - 1];
      assert deferred == front + [deferred[|deferred| - 1]];
      PendingExactly(runId, front, id, p);
    }
  }

  /** And they collide exactly when two marked returns name the same call. */
  lemma {:induction false} PendingCollide(runId: string, deferred: seq<PendingReturn>)
    ensures AllDistinct(Keys(PendingPairs(runId, deferred))) <==>
      forall i, j :: 0 <= i < j < |deferred| && deferred[i].callDeferred && deferred[j].callDeferred ==>
        deferred[i].callId != deferred[j].callId
  {
    if deferred != [] {
      var n := |deferred| - 1;
      var front, last := deferred[..n], deferred[n];
      assert forall i :: 0 <= i < n ==> front[i] == deferred[i];
      PendingCollide(runId, front);
      if last.callDeferred {
        PendingLast(runId, front, last);
      } else {
        assert PendingPairs(runId, deferred) == PendingPairs(runId, front);
      }
    }
  }

  lemma PendingLast(runId: string, front: seq<PendingReturn>, last: PendingReturn)
    ensures
      var pairs := PendingPairs(runId, front);
      AllDistinct(Keys(pairs + [(DeferredPrefix(runId) + last.callId, last)])) <==>
        AllDistinct(Keys(pairs)) && forall i :: 0 <= i < |front| && front[i].callDeferred ==>
          front[i].callId != last.callId
  {
    var pairs := PendingPairs(runId, front);
    var id := DeferredPrefix(runId) + last.callId;
    var all := pairs + [(id, last)];
    assert Keys(all) == Keys(pairs) + [id];
    assert forall i :: 0 <= i < |pairs| ==> Keys(all)[i] == Keys(pairs)[i];
    forall i | 0 <= i < |front| && front[i].callDeferred && front[i].callId == last.callId ensures id in Keys(pairs) {
      PendingExactly(runId, front, id, front[i]);
      var k :| 0 <= k < |pairs| && pairs[k] == (id, front[i]);
      assert Keys(pairs)[k] == id;
    }
    if id in Keys(pairs) {
      var k :| 0 <= k < |pairs| && Keys(pairs)[k] == id;
      var p := pairs[k].1;
      assert pairs[k] == (id, p);
      PendingExactly(runId, front, id, p);
      var d := DeferredPrefix(runId);
      assert (d + p.callId)[|d|..] == p.callId && (d + last.callId)[|d|..] == last.callId;
      assert Keys(all)[k] == Keys(all)[|pairs|];
    }
  }

  function ApprovalIds(st: RunState): seq<string> {
    seq(|st.approvals|, i requires 0 <= i < |st.approvals| => st.approvals[i].callId)
  }

  /** Calls of the latest response, overridden by the pending ones. */
  function CallsById(calls: seq<ToolCall>, onto: map<string, ToolCall>): map<string, ToolCall> {
    if calls == [] then onto else CallsById(calls[1..], onto[calls[0].id := calls[0]])
  }

  function ToolCalls(st: RunState): map<string, ToolCall> {
    CallsById(st.pendingCalls, CallsById(st.responseCalls, map[]))
  }

  ghost predicate LastWithId(calls: seq<ToolCall>, call: ToolCall) {
    exists i :: 0 <= i < |calls| && calls[i] == call && forall j :: i < j < |calls| ==> calls[j].id != call.id
  }

  ghost predicate Mentions(calls: seq<ToolCall>, id: string) { exists i :: 0 <= i < |calls| && calls[i].id == id }

  lemma {:induction false} CallsByIdPicks(calls: seq<ToolCall>, onto: map<string, ToolCall>, id: string)
    ensures id in CallsById(calls, onto) <==> Mentions(calls, id) || id in onto
    ensures Mentions(calls, id) ==> CallsById(calls, onto)[id].id == id && LastWithId(calls, CallsById(calls, onto)[id])
    ensures !Mentions(calls, id) && id in onto ==> CallsById(calls, onto)[id] == onto[id]
  {
    if calls != [] {
      var rest := calls[1..];
      CallsByIdPicks(rest, onto[calls[0].id := calls[0]], id);
      assert calls == [calls[0]] + rest;
      if Mentions(rest, id) {
        var last := CallsById(calls, onto)[id];
        var i :| 0 <= i < |rest| && rest[i] == last && forall j :: i < j < |rest| ==> rest[j].id != last.id;
        assert calls[i + 1] == last && forall j :: i + 1 < j < |calls| ==> calls[j].id == rest[j - 1].id;
      } else {
        assert forall j :: 0 < j < |calls| ==> calls[j].id == rest[j - 1].id;
      }
    }
  }

  /** The call an approval runs: the last pending call of that id, or else the last one of the
      latest response. */
  lemma CallThatRuns(st: RunState, id: string)
    ensures id in ToolCalls(st) <==> Mentions(st.pendingCalls, id) || Mentions(st.responseCalls, id)
    ensures id in ToolCalls(st) ==>
      && ToolCalls(st)[id].id == id
      && LastWithId(if Mentions(st.pendingCalls, id) then st.pendingCalls else st.responseCalls, ToolCalls(st)[id])
  {
    CallsByIdPicks(st.responseCalls, map[], id);
    CallsByIdPicks(st.pendingCalls, CallsById(st.responseCalls, map[]), id);
  }

  // ---------------------------------------------------------------- the condition both decide

  ghost predicate Executable(pairs: seq<(string, Decision)>, calls: map<string, ToolCall>) {
    forall i :: 0 <= i < |pairs| && pairs[i].1.Approve? ==> pairs[i].0 in calls
  }

  ghost predicate Settled(pairs: seq<(string, DeferredResult)>) {
    forall i :: 0 <= i < |pairs| ==> pairs[i].1.status.Terminal()
  }

  /** Decisions and pending work match one to one, every approved call can be found and every
      deferred result is terminal. */
  ghost predicate Resolvable(aliases: Aliases, st: RunState, results: Results) {
    var approvals := ApprovalPairs(aliases, st, results);
    var deferred := DeferredPairs(aliases, st, results);
    var pending := PendingPairs(st.runId, st.deferred);
    && st.status == Waiting && (st.approvals != [] || st.deferred != [])
    && AllDistinct(Keys(approvals)) && AllDistinct(Keys(deferred)) && AllDistinct(Keys(pending))
    && Elements(Keys(approvals)) == Elements(ApprovalIds(st))
    && Elements(Keys(deferred)) == Elements(Keys(pending))
    && Executable(approvals, ToolCalls(st))
    && Settled(deferred)
  }

  // ---------------------------------------------------------------- preflight

  function FirstOutside(keys: seq<string>, allowed: set<string>): (r: Option<string>)
    ensures r.None? <==> Elements(keys) <= allowed
    ensures r.Some? ==> r.value in keys && r.value !in allowed
  {
    if keys == [] then None
    else
      assert Elements(keys) == {keys[0]} + Elements(keys[1..]) by { assert keys == [keys[0]] + keys[1..]; }
      if keys[0] !in allowed then Some(keys[0]) else FirstOutside(keys[1..], allowed)
  }

  function Missing(ids: seq<string>, given: set<string>): (r: seq<string>)
    ensures Elements(r) == Elements(ids) - given
    ensures r == [] <==> Elements(ids) <= given
  {
    if ids == [] then []
    else
      assert Elements(ids) == {ids[0]} + Elements(ids[1..]) by { assert ids == [ids[0]] + ids[1..]; }
      var rest := Missing(ids[1..], given);
      assert Elements([ids[0]] + rest) == {ids[0]} + Elements(rest);
      if ids[0] in given then rest else [ids[0]] + rest
  }

  function FirstUncallable(keys: seq<string>, table: map<string, Decision>,
        calls: map<string, ToolCall>): (r: Option<string>)
    requires Elements(keys) <= table.Keys
    ensures r.None? <==> forall k :: k in keys && table[k].Approve? ==> k in calls
  {
    if keys == [] then None
    else
      assert Elements(keys) == {keys[0]} + Elements(keys[1..]) by { assert keys == [keys[0]] + keys[1..]; }
      assert keys[0] in Elements(keys);
      if table[keys[0]].Approve? && keys[0] !in calls then Some(keys[0])
      else FirstUncallable(keys[1..], table, calls)
  }

  function FirstOpen(keys: seq<string>, table: map<string, DeferredResult>): (r: Option<string>)
    requires Elements(keys) <= table.Keys
    ensures r.None? <==> forall k :: k in keys ==> k in table && table[k].status.Terminal()
  {
    if keys == [] then None
    else
      assert Elements(keys) == {keys[0]} + Elements(keys[1..]) by { assert keys == [keys[0]] + keys[1..]; }
      assert keys[0] in Elements(keys);
      if !table[keys[0]].status.Terminal() then Some(keys[0]) else FirstOpen(keys[1..], table)
  }

  /** The decisions and the pending work, each under canonical ids. */
  datatype Gathered = Gathered(approvals: Dict<Decision>, deferred: Dict<DeferredResult>,
        pending: Dict<PendingReturn>) {
    ghost predicate Valid() { approvals.Valid() && deferred.Valid() && pending.Valid() }
  }

  function Gathering(aliases: Aliases, st: RunState, results: Results): (r: Result<Gathered>)
    ensures r.Ok? ==> r.value.Valid()
    ensures !Late(r)
  {
    if st.status != Waiting then Fail(NotWaiting)
    else if st.approvals == [] && st.deferred == [] then Fail(NoPending)
    else
      var approvals := Collected(ApprovalPairs(aliases, st, results));
      if approvals.Fail? then Fail(approvals.error) else
      var deferred := Collected(DeferredPairs(aliases, st, results));
      if deferred.Fail? then Fail(deferred.error) else
      var pending := Collected(PendingPairs(st.runId, st.deferred));
      if pending.Fail? then Fail(pending.error) else
      Ok(Gathered(approvals.value, deferred.value, pending.value))
  }

  /** Checks decisions without running anything. */
  function Validate(aliases: Aliases, st: RunState, results: Results): Result<()> {
    match Gathering(aliases, st, results)
    case Fail(e) => Fail(e)
    case Ok(g) => ValidateMatch(g.approvals, g.deferred, SortedSet(ApprovalIds(st)), g.pending, ToolCalls(st))
  }

  /** The unknown and missing checks. */
  function MatchIds(approvals: Dict<Decision>, deferred: Dict<DeferredResult>, approvalIds: seq<string>,
                    pending: Dict<PendingReturn>): (r: Result<()>)
    requires approvals.Valid() && deferred.Valid() && pending.Valid() && Sorted(approvalIds)
    ensures r.Ok? <==> approvals.table.Keys == Elements(approvalIds) && deferred.table.Keys == pending.table.Keys
    ensures !Late(r)
  {
    var strangeApproval := FirstOutside(approvals.keys, Elements(approvalIds));
    if strangeApproval.Some? then Fail(UnknownApproval(strangeApproval.value)) else
    var strangeDeferred := FirstOutside(deferred.keys, pending.table.Keys);
    if strangeDeferred.Some? then Fail(UnknownDeferred(strangeDeferred.value)) else
    var missingApprovals := Missing(approvalIds, approvals.table.Keys);
    if missingApprovals != [] then Fail(MissingApprovals(missingApprovals)) else
    var missingDeferred := Missing(pending.keys, deferred.table.Keys);
    if missingDeferred != [] then Fail(MissingDeferred(missingDeferred)) else Ok(())
  }

  /** An error that the effectful pass may only find after some calls ran. */
  predicate Late<T>(r: Result<T>) {
    r.Fail? && (r.error.MissingToolCall? || r.error.NotTerminal?)
  }

  function ValidateMatch(approvals: Dict<Decision>, deferred: Dict<DeferredResult>, approvalIds: seq<string>,
                         pending: Dict<PendingReturn>, calls: map<string, ToolCall>): Result<()>
    requires approvals.Valid() && deferred.Valid() && pending.Valid() && Sorted(approvalIds)
  {
    var ids := MatchIds(approvals, deferred, approvalIds, pending);
    if ids.Fail? then ids else
    var uncallable := FirstUncallable(approvals.keys, approvals.table, calls);
    if uncallable.Some? then Fail(MissingToolCall(uncallable.value)) else
    var open := FirstOpen(deferred.keys, deferred.table);
    if open.Some? then Fail(NotTerminal(open.value)) else Ok(())
  }

  /** What the collected maps say about the lists they were collected from. */
  ghost predicate Matched(approvals: Dict<Decision>, deferred: Dict<DeferredResult>, approvalIds: seq<string>,
                    pending: Dict<PendingReturn>, calls: map<string, ToolCall>)
  {
    && approvals.table.Keys == Elements(approvalIds)
    && deferred.table.Keys == pending.table.Keys
    && (forall k :: k in approvals.table && approvals.table[k].Approve? ==> k in calls)
    && (forall k :: k in deferred.table ==> deferred.table[k].status.Terminal())
  }

  lemma InKeys<V>(d: Dict<V>)
    requires d.Valid()
    ensures forall k :: k in d.keys <==> k in d.table
  {
    assert forall k :: k in d.keys <==> k in Elements(d.keys);
  }

  lemma ValidateMatchDecides(approvals: Dict<Decision>, deferred: Dict<DeferredResult>, approvalIds: seq<string>,
                             pending: Dict<PendingReturn>, calls: map<string, ToolCall>)
    requires approvals.Valid() && deferred.Valid() && pending.Valid() && Sorted(approvalIds)
    ensures ValidateMatch(approvals, deferred, approvalIds, pending, calls).Ok?
        <==> Matched(approvals, deferred, approvalIds, pending, calls)
  {
    InKeys(approvals);
    InKeys(deferred);
  }

  /** A property of every collected entry is one of every listed pair. */
  lemma HeldEntries<V>(d: Dict<V>, pairs: seq<(string, V)>, k: string)
    requires Holds(d, pairs) && k in d.table
    ensures exists i :: 0 <= i < |pairs| && pairs[i] == (k, d.table[k])
  {
    assert k in Elements(Keys(pairs));
    var i :| 0 <= i < |pairs| && Keys(pairs)[i] == k;
    assert pairs[i] == (k, d.table[k]);
  }

  lemma ExecutableEntries(d: Dict<Decision>, pairs: seq<(string, Decision)>, calls: map<string, ToolCall>)
    requires Holds(d, pairs)
    ensures Executable(pairs, calls) <==> forall k :: k in d.table && d.table[k].Approve? ==> k in calls
  {
    forall k | k in d.table && d.table[k].Approve? && Executable(pairs, calls) ensures k in calls {
      HeldEntries(d, pairs, k);
    }
  }

  lemma SettledEntries(d: Dict<DeferredResult>, pairs: seq<(string, DeferredResult)>)
    requires Holds(d, pairs)
    ensures Settled(pairs) <==> forall k :: k in d.table ==> d.table[k].status.Terminal()
  {
    forall k | k in d.table && Settled(pairs) ensures d.table[k].status.Terminal() {
      HeldEntries(d, pairs, k);
    }
  }

  lemma MatchedMeansResolvable(aliases: Aliases, st: RunState, results: Results, g: Gathered)
    requires Gathering(aliases, st, results) == Ok(g)
    ensures Matched(g.approvals, g.deferred, SortedSet(ApprovalIds(st)), g.pending, ToolCalls(st))
        <==> Resolvable(aliases, st, results)
  {
    ExecutableEntries(g.approvals, ApprovalPairs(aliases, st, results), ToolCalls(st));
    SettledEntries(g.deferred, DeferredPairs(aliases, st, results));
  }

  /** The preflight accepts exactly the resolvable decision sets. */
  lemma PreflightDecides(aliases: Aliases, st: RunState, results: Results)
    ensures Validate(aliases, st, results).Ok? <==> Resolvable(aliases, st, results)
  {
    var r := Gathering(aliases, st, results);
    if r.Ok? {
      var g := r.value;
      ValidateMatchDecides(g.approvals, g.deferred, SortedSet(ApprovalIds(st)), g.pending, ToolCalls(st));
      MatchedMeansResolvable(aliases, st, results, g);
    }
  }

  // ---------------------------------------------------------------- why a decision set is refused

  /** The first repeated id: it was there before, and nothing before it repeats. */
  ghost predicate FirstRepeated(keys: seq<string>, id: string) {
    exists j :: 0 <= j < |keys| && keys[j] == id && id in keys[..j] && AllDistinct(keys[..j])
  }

  lemma FirstRepeatedExtends(keys: seq<string>, n: nat, id: string)
    requires n <= |keys| && FirstRepeated(keys[..n], id)
    ensures FirstRepeated(keys, id)
  {
    var j :| 0 <= j < n && keys[..n][j] == id && id in keys[..n][..j] && AllDistinct(keys[..n][..j]);
    assert keys[..n][..j] == keys[..j] && keys[j] == id;
  }

  lemma LastRepeats(keys: seq<string>)
    requires keys != [] && AllDistinct(keys[..|keys| - 1]) && keys[|keys| - 1] in Elements(keys[..|keys| - 1])
    ensures FirstRepeated(keys, keys[|keys| - 1])
  {
  }

  lemma {:induction false} DuplicateIsFirst<V>(pairs: seq<(string, V)>)
    requires Collected(pairs).Fail?
    ensures FirstRepeated(Keys(pairs), Collected(pairs).error.id)
  {
    var n := |pairs| - 1;
    var front := pairs[..n];
    assert Keys(front) == Keys(pairs)[..n];
    match Collected(front)
    case Fail(e) =>
      DuplicateIsFirst(front);
      FirstRepeatedExtends(Keys(pairs), n, e.id);
    case Ok(d) => LastRepeats(Keys(pairs));
  }

  /** The first id in order that is bad. */
  ghost predicate FirstBad(keys: seq<string>, bad: set<string>, id: string) {
    exists i :: 0 <= i < |keys| && keys[i] == id && id in bad && forall j :: 0 <= j < i ==> keys[j] !in bad
  }

  lemma {:induction false} OutsideIsFirst(keys: seq<string>, allowed: set<string>)
    requires FirstOutside(keys, allowed).Some?
    ensures FirstBad(keys, Elements(keys) - allowed, FirstOutside(keys, allowed).value)
  {
    if keys[0] in allowed {
      OutsideIsFirst(keys[1..], allowed);
      FirstBadShifts(keys, Elements(keys[1..]) - allowed, Elements(keys) - allowed, FirstOutside(keys, allowed).value);
    }
  }

  lemma FirstBadShifts(keys: seq<string>, rest: set<string>, bad: set<string>, id: string)
    requires keys != [] && keys[0] !in bad && FirstBad(keys[1..], rest, id)
    requires forall k :: k in keys[1..] ==> (k in rest <==> k in bad)
    ensures FirstBad(keys, bad, id)
  {
    var i :| 0 <= i < |keys[1..]| && keys[1..][i] == id && id in rest && forall j :: 0 <= j < i ==>
      keys[1..][j] !in rest;
    assert keys[i + 1] == id;
    forall j | 0 <= j < i + 1 ensures keys[j] !in bad {
      if j > 0 { assert keys[1..][j - 1] == keys[j]; }
    }
  }

  function Uncallable(table: map<string, Decision>, calls: map<string, ToolCall>): set<string> {
    set k | k in table && table[k].Approve? && k !in calls
  }

  function Open(table: map<string, DeferredResult>): set<string> { set k | k in table && !table[k].status.Terminal() }

  lemma {:induction false} UncallableIsFirst(keys: seq<string>, table: map<string, Decision>, calls: map<string,
        ToolCall>)
    requires Elements(keys) <= table.Keys && FirstUncallable(keys, table, calls).Some?
    ensures FirstBad(keys, Uncallable(table, calls), FirstUncallable(keys, table, calls).value)
  {
    assert keys[0] in Elements(keys);
    if !table[keys[0]].Approve? || keys[0] in calls {
      assert Elements(keys[1..]) <= Elements(keys);
      UncallableIsFirst(keys[1..], table, calls);
      FirstBadShifts(keys, Uncallable(table, calls), Uncallable(table, calls),
          FirstUncallable(keys, table, calls).value);
    }
  }

  lemma {:induction false} OpenIsFirst(keys: seq<string>, table: map<string, DeferredResult>)
    requires Elements(keys) <= table.Keys && FirstOpen(keys, table).Some?
    ensures FirstBad(keys, Open(table), FirstOpen(keys, table).value)
  {
    assert keys[0] in Elements(keys);
    if table[keys[0]].status.Terminal() {
      assert Elements(keys[1..]) <= Elements(keys);
      OpenIsFirst(keys[1..], table);
      FirstBadShifts(keys, Open(table), Open(table), FirstOpen(keys, table).value);
    }
  }

  lemma {:induction false} MissingSorted(ids: seq<string>, given: set<string>)
    requires Sorted(ids)
    ensures Sorted(Missing(ids, given))
  {
    if ids != [] {
      MissingSorted(ids[1..], given);
      var rest := Missing(ids[1..], given);
      forall j | 0 <= j < |rest| ensures Less(ids[0], rest[j]) {
        assert rest[j] in Elements(rest);
        assert rest[j] in Elements(ids[1..]);
        var i :| 0 <= i < |ids[1..]| && ids[1..][i] == rest[j];
        assert ids[i + 1] == rest[j];
      }
    }
  }

  /** Each refusal and the one defect it names, in the order in which defects are looked for. */
  ghost predicate Reason(error: Error, aliases: Aliases, st: RunState, results: Results) {
    var approvals, deferred := Keys(ApprovalPairs(aliases, st, results)), Keys(DeferredPairs(aliases, st, results));
    var pending := Keys(PendingPairs(st.runId, st.deferred));
    var distinct := AllDistinct(approvals) && AllDistinct(deferred) && AllDistinct(pending);
    var work := st.approvals != [] || st.deferred != [];
    var approvalIds := Elements(ApprovalIds(st));
    match error
    case NotWaiting => st.status != Waiting
    case NoPending => st.status == Waiting && !work
    case Duplicate(id) =>
      && st.status == Waiting && work
      && (if !AllDistinct(approvals) then FirstRepeated(approvals, id)
          else if !AllDistinct(deferred) then FirstRepeated(deferred, id)
          else FirstRepeated(pending, id))
    case UnknownApproval(id) =>
      st.status == Waiting && work && distinct && Least(Elements(approvals) - approvalIds, id)
    case UnknownDeferred(id) =>
      && st.status == Waiting && work && distinct && Elements(approvals) <= approvalIds
      && Least(Elements(deferred) - Elements(pending), id)
    case MissingApprovals(ids) =>
      && st.status == Waiting && work && distinct && Elements(approvals) <= approvalIds
      && Elements(deferred) <= Elements(pending)
      && ids != [] && Sorted(ids) && Elements(ids) == approvalIds - Elements(approvals)
    case MissingDeferred(ids) =>
      && st.status == Waiting && distinct && Elements(approvals) == approvalIds
      && Elements(deferred) <= Elements(pending)
      && ids != [] && Sorted(ids) && Elements(ids) == Elements(pending) - Elements(deferred)
    case MissingToolCall(id) =>
      && Paired(aliases, st, results)
      && Least(set i | 0 <= i < |approvals| && results.approvals[i].1.Approve? && approvals[i] !in ToolCalls(st)
               :: approvals[i], id)
    case NotTerminal(id) =>
      && Paired(aliases, st, results) && Executable(ApprovalPairs(aliases, st, results), ToolCalls(st))
      && Least(set i | 0 <= i < |deferred| && !results.deferred[i].status.Terminal() :: deferred[i], id)
  }

  /** Decisions and pending work match one to one. */
  ghost predicate Paired(aliases: Aliases, st: RunState, results: Results) {
    var approvals, deferred := Keys(ApprovalPairs(aliases, st, results)), Keys(DeferredPairs(aliases, st, results));
    var pending := Keys(PendingPairs(st.runId, st.deferred));
    && st.status == Waiting && AllDistinct(approvals) && AllDistinct(deferred) && AllDistinct(pending)
    && Elements(approvals) == Elements(ApprovalIds(st)) && Elements(deferred) == Elements(pending)
  }

  ghost predicate Least(ids: set<string>, id: string) {
    id in ids && forall other :: other in ids ==> other == id || Less(id, other)
  }

  lemma FirstIsLeast(keys: seq<string>, bad: set<string>, id: string)
    requires Sorted(keys) && bad <= Elements(keys) && FirstBad(keys, bad, id)
    ensures Least(bad, id)
  {
    var i :| 0 <= i < |keys| && keys[i] == id && id in bad && forall j :: 0 <= j < i ==> keys[j] !in bad;
    forall other | other in bad ensures other == id || Less(id, other) {
      assert other in Elements(keys);
      var k :| 0 <= k < |keys| && keys[k] == other;
    }
  }

  lemma UncallableListed(d: Dict<Decision>, pairs: seq<(string, Decision)>, calls: map<string, ToolCall>)
    requires Holds(d, pairs)
    ensures Uncallable(d.table, calls) == set i | 0 <= i < |pairs| && pairs[i].1.Approve?
            && pairs[i].0 !in calls :: pairs[i].0
  {
    forall k | k in Uncallable(d.table, calls)
      ensures exists i :: 0 <= i < |pairs| && pairs[i].1.Approve? && pairs[i].0 !in calls && pairs[i].0 == k
    {
      HeldEntries(d, pairs, k);
    }
  }

  lemma OpenListed(d: Dict<DeferredResult>, pairs: seq<(string, DeferredResult)>)
    requires Holds(d, pairs)
    ensures Open(d.table) == set i | 0 <= i < |pairs| && !pairs[i].1.status.Terminal() :: pairs[i].0
  {
    forall k | k in Open(d.table)
      ensures exists i :: 0 <= i < |pairs| && !pairs[i].1.status.Terminal() && pairs[i].0 == k
    {
      HeldEntries(d, pairs, k);
    }
  }

  lemma GatheringReason(aliases: Aliases, st: RunState, results: Results)
    requires Gathering(aliases, st, results).Fail?
    ensures Reason(Gathering(aliases, st, results).error, aliases, st, results)
  {
    if st.status == Waiting && (st.approvals != [] || st.deferred != []) {
      var approvals, deferred := ApprovalPairs(aliases, st, results), DeferredPairs(aliases, st, results);
      var pending := PendingPairs(st.runId, st.deferred);
      if Collected(approvals).Fail? { DuplicateIsFirst(approvals); }
      else if Collected(deferred).Fail? { DuplicateIsFirst(deferred); }
      else { DuplicateIsFirst(pending); }
    }
  }

  /** The collected maps hold exactly the given decisions and the pending work. */
  ghost predicate GatheredFrom(g: Gathered, aliases: Aliases, st: RunState, results: Results) {
    && st.status == Waiting && (st.approvals != [] || st.deferred != [])
    && Holds(g.approvals, ApprovalPairs(aliases, st, results))
    && Holds(g.deferred, DeferredPairs(aliases, st, results))
    && Holds(g.pending, PendingPairs(st.runId, st.deferred))
  }

  lemma GatheringHolds(aliases: Aliases, st: RunState, results: Results)
    requires Gathering(aliases, st, results).Ok?
    ensures GatheredFrom(Gathering(aliases, st, results).value, aliases, st, results)
  {
  }

  lemma UnknownReason(aliases: Aliases, st: RunState, results: Results, g: Gathered)
    requires GatheredFrom(g, aliases, st, results)
    ensures
      var r := MatchIds(g.approvals, g.deferred, SortedSet(ApprovalIds(st)), g.pending);
      r.Fail? && (r.error.UnknownApproval? || r.error.UnknownDeferred?) ==> Reason(r.error, aliases, st, results)
  {
    var ids := SortedSet(ApprovalIds(st));
    var strange := FirstOutside(g.approvals.keys, Elements(ids));
    if strange.Some? {
      OutsideIsFirst(g.approvals.keys, Elements(ids));
      FirstIsLeast(g.approvals.keys, Elements(g.approvals.keys) - Elements(ids), strange.value);
    } else if FirstOutside(g.deferred.keys, g.pending.table.Keys).Some? {
      OutsideIsFirst(g.deferred.keys, g.pending.table.Keys);
      FirstIsLeast(g.deferred.keys, Elements(g.deferred.keys) - g.pending.table.Keys,
          FirstOutside(g.deferred.keys, g.pending.table.Keys).value);
    }
  }

  lemma MissingReason(aliases: Aliases, st: RunState, results: Results, g: Gathered)
    requires GatheredFrom(g, aliases, st, results)
    ensures
      var r := MatchIds(g.approvals, g.deferred, SortedSet(ApprovalIds(st)), g.pending);
      r.Fail? && (r.error.MissingApprovals? || r.error.MissingDeferred?) ==> Reason(r.error, aliases, st, results)
  {
    var ids := SortedSet(ApprovalIds(st));
    if Missing(ids, g.approvals.table.Keys) != [] {
      MissingSorted(ids, g.approvals.table.Keys);
    } else {
      MissingSorted(g.pending.keys, g.deferred.table.Keys);
    }
  }

  lemma MatchReason(aliases: Aliases, st: RunState, results: Results, g: Gathered)
    requires GatheredFrom(g, aliases, st, results)
    ensures
      var r := MatchIds(g.approvals, g.deferred, SortedSet(ApprovalIds(st)), g.pending);
      if r.Fail? then Reason(r.error, aliases, st, results) else Paired(aliases, st, results)
  {
    UnknownReason(aliases, st, results, g);
    MissingReason(aliases, st, results, g);
  }

  /** A refusal names the first defect there is, so that a caller can read off from it what has been
      found in order. */
  lemma RefusalsHaveReasons(aliases: Aliases, st: RunState, results: Results)
    requires Validate(aliases, st, results).Fail?
    ensures Reason(Validate(aliases, st, results).error, aliases, st, results)
  {
    var r := Gathering(aliases, st, results);
    if r.Fail? {
      GatheringReason(aliases, st, results);
    } else {
      var g := r.value;
      GatheringHolds(aliases, st, results);
      MatchReason(aliases, st, results, g);
      if MatchIds(g.approvals, g.deferred, SortedSet(ApprovalIds(st)), g.pending).Ok? {
        LateReason(aliases, st, results, g);
      }
    }
  }

  lemma LateReason(aliases: Aliases, st: RunState, results: Results, g: Gathered)
    requires Gathering(aliases, st, results) == Ok(g) && Paired(aliases, st, results)
    ensures FirstUncallable(g.approvals.keys, g.approvals.table, ToolCalls(st)).Some? ==>
      Reason(MissingToolCall(FirstUncallable(g.approvals.keys, g.approvals.table, ToolCalls(st)).value),
             aliases, st, results)
    ensures FirstUncallable(g.approvals.keys, g.approvals.table, ToolCalls(st)).None?
            && FirstOpen(g.deferred.keys, g.deferred.table).Some? ==>
      Reason(NotTerminal(FirstOpen(g.deferred.keys, g.deferred.table).value), aliases, st, results)
  {
    var calls := ToolCalls(st);
    InKeys(g.approvals);
    InKeys(g.deferred);
    if FirstUncallable(g.approvals.keys, g.approvals.table, calls).Some? {
      UncallableIsFirst(g.approvals.keys, g.approvals.table, calls);
      FirstIsLeast(g.approvals.keys, Uncallable(g.approvals.table, calls),
          FirstUncallable(g.approvals.keys, g.approvals.table, calls).value);
      UncallableListed(g.approvals, ApprovalPairs(aliases, st, results), calls);
      SameUncallable(aliases, st, results);
    } else if FirstOpen(g.deferred.keys, g.deferred.table).Some? {
      ExecutableEntries(g.approvals, ApprovalPairs(aliases, st, results), calls);
      OpenIsFirst(g.deferred.keys, g.deferred.table);
      FirstIsLeast(g.deferred.keys, Open(g.deferred.table), FirstOpen(g.deferred.keys, g.deferred.table).value);
      OpenListed(g.deferred, DeferredPairs(aliases, st, results));
      SameOpen(aliases, st, results);
    }
  }

  lemma SameUncallable(aliases: Aliases, st: RunState, results: Results)
    ensures
      var pairs := ApprovalPairs(aliases, st, results);
      var keys := Keys(pairs);
      (set i | 0 <= i < |pairs| && pairs[i].1.Approve? && pairs[i].0 !in ToolCalls(st) :: pairs[i].0)
      == set i | 0 <= i < |keys| && results.approvals[i].1.Approve? && keys[i] !in ToolCalls(st) :: keys[i]
  {
    var pairs := ApprovalPairs(aliases, st, results);
    var keys := Keys(pairs);
    assert forall i :: 0 <= i < |keys| ==> keys[i] == pairs[i].0 && pairs[i].1 == results.approvals[i].1;
  }

  lemma SameOpen(aliases: Aliases, st: RunState, results: Results)
    ensures
      var pairs := DeferredPairs(aliases, st, results);
      var keys := Keys(pairs);
      (set i | 0 <= i < |pairs| && !pairs[i].1.status.Terminal() :: pairs[i].0)
      == set i | 0 <= i < |keys| && !results.deferred[i].status.Terminal() :: keys[i]
  {
    var pairs := DeferredPairs(aliases, st, results);
    var keys := Keys(pairs);
    assert forall i :: 0 <= i < |keys| ==> keys[i] == pairs[i].0 && pairs[i].1.status == results.deferred[i].status;
  }
}
