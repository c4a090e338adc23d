/** Releasing packages: the declared order is checked against the dependency graph, then packages are
    uploaded in that order with bounded retries. */
module Publish {
  import opened Basics
  import opened Order

  type Graph = map<string, set<string>>

  // ---------------------------------------------------------------- the order check

  /** Position a name gets when positions are inserted front to back: the last one wins. */
  function Positions(packages: seq<string>): (r: map<string, nat>)
    ensures forall p :: p in r <==> p in packages
    ensures forall p :: p in r ==> r[p] < |packages| && packages[r[p]] == p
    ensures forall p :: p in r ==> forall j :: r[p] < j < |packages| ==> packages[j] != p
  {
    if packages == [] then map[]
    else
      var n := |packages| - 1;
      assert packages == packages[..n] + [packages[n]];
      Positions(packages[..n])[packages[n] := n]
  }

  ghost predicate InOrder(positions: map<string, nat>, p: string, d: string) {
    p in positions && d in positions && positions[d] < positions[p]
  }

  /** Every declared package is listed, after each of its dependencies. */
  ghost predicate Topological(packages: seq<string>, graph: Graph) {
    forall p :: p in graph ==>
      p in packages && forall d :: d in graph[p] ==> Before(packages, d, p)
  }

  ghost predicate Before(packages: seq<string>, d: string, p: string) {
    exists i, j :: 0 <= i < j < |packages| && packages[i] == d && packages[j] == p
  }

  lemma InOrderMeansTopological(packages: seq<string>, graph: Graph)
    requires AllDistinct(packages)
    ensures Topological(packages, graph) <==>
      forall p :: p in graph ==> p in packages && forall d :: d in graph[p] ==> InOrder(Positions(packages), p, d)
  {
    forall p, d | p in graph && d in graph[p]
      ensures InOrder(Positions(packages), p, d) <==> Before(packages, d, p)
    {
      InOrderMeansBefore(packages, p, d);
    }
  }

  lemma InOrderMeansBefore(packages: seq<string>, p: string, d: string)
    requires AllDistinct(packages)
    ensures InOrder(Positions(packages), p, d) <==> Before(packages, d, p)
  {
    var pos := Positions(packages);
    if InOrder(pos, p, d) {
      assert packages[pos[d]] == d && packages[pos[p]] == p;
    }
    if Before(packages, d, p) {
      var i, j :| 0 <= i < j < |packages| && packages[i] == d && packages[j] == p;
      assert pos[d] == i && pos[p] == j;
    }
  }

  method ValidatePublishDependencyOrder(packages: seq<string>, graph: Graph) returns (ok: bool)
    ensures ok <==> forall p :: p in graph ==>
      p in packages && forall d :: d in graph[p] ==> InOrder(Positions(packages), p, d)
    ensures AllDistinct(packages) ==> (ok <==> Topological(packages, graph))
  {
    if AllDistinct(packages) { InOrderMeansTopological(packages, graph); }
    var positions := Positions(packages);
    var rest := graph.Keys;
    while rest != {}
      invariant rest <= graph.Keys
      invariant forall p :: p in graph && p !in rest ==>
        p in packages && forall d :: d in graph[p] ==> InOrder(positions, p, d)
      decreases |rest|
    {
      var package :| package in rest;
      rest := rest - {package};
      if package !in positions {
        return false;
      }
      var dependencies := graph[package];
      while dependencies != {}
        invariant dependencies <= graph[package]
        invariant forall d :: d in graph[package] && d !in dependencies ==> InOrder(positions, package, d)
        decreases |dependencies|
      {
        var dependency :| dependency in dependencies;
        dependencies := dependencies - {dependency};
        if dependency !in positions || positions[dependency] >= positions[package] {
          assert !InOrder(positions, package, dependency);
          return false;
        }
      }
    }
    ok := true;
  }

  ghost predicate Path(graph: Graph, path: seq<string>) {
    |path| >= 2 && forall i :: 0 <= i < |path| - 1 ==> path[i] in graph && path[i + 1] in graph[path[i]]
  }

  /** Along dependency edges positions go strictly down. */
  lemma {:induction false} PathsDescend(packages: seq<string>, graph: Graph, path: seq<string>)
    requires EdgesDescend(Positions(packages), graph) && Path(graph, path)
    ensures InOrder(Positions(packages), path[0], path[|path| - 1])
  {
    assert path[0] in graph && path[0 + 1] in graph[path[0]];
    if |path| > 2 {
      var rest := path[1..];
      assert forall i :: 0 <= i < |rest| ==> rest[i] == path[i + 1];
      PathsDescend(packages, graph, rest);
    }
  }

  ghost predicate EdgesDescend(positions: map<string, nat>, graph: Graph) {
    forall p, d :: p in graph && d in graph[p] ==> InOrder(positions, p, d)
  }

  lemma TopologicalDescends(packages: seq<string>, graph: Graph)
    requires AllDistinct(packages) && Topological(packages, graph)
    ensures EdgesDescend(Positions(packages), graph)
  {
    InOrderMeansTopological(packages, graph);
  }

  /** An accepted order rules out dependency cycles of every length. */
  lemma AcceptedGraphIsAcyclic(packages: seq<string>, graph: Graph, path: seq<string>)
    requires AllDistinct(packages) && Topological(packages, graph) && Path(graph, path)
    ensures path[0] != path[|path| - 1]
  {
    TopologicalDescends(packages, graph);
    PathsDescend(packages, graph, path);
  }

  // ---------------------------------------------------------------- retry delay

  /** A Retry-After value (section 10.2.3 of RFC 9110): seconds, or a point in time. */
  datatype RetryAfter = Seconds(n: nat) | At(time: nat)

  function RetryDelay(header: Option<RetryAfter>, now: nat, default: nat): nat {
    match header
    case None => default
    case Some(Seconds(n)) => n
    case Some(At(time)) => if time <= now then 1 else time - now
  }

  function Clamp(x: nat, low: nat, high: nat): nat
    requires low <= high
  {
    if x < low then low else if x > high then high else x
  }

  function Max(a: nat, b: nat): nat { if a >= b then a else b }

  // ---------------------------------------------------------------- the publish loop

  datatype Outcome = Uploaded | AlreadyThere | Rejected(header: Option<RetryAfter>, now: nat)

  datatype Event =
    | Skipped(package: string)
    | Tried(package: string, attempt: nat, outcome: Outcome)
    | Waited(package: string, seconds: nat)

  datatype Policy = Policy(retries: nat, delay: nat, maxDelay: nat)

  /** What the registry answers: `known` before publishing, `reply` to each attempt. */
  datatype Registry = Registry(known: string -> bool, reply: (string, nat) -> Outcome)

  function Wait(policy: Policy, outcome: Outcome): nat
    requires outcome.Rejected?
  {
    Clamp(RetryDelay(outcome.header, outcome.now, policy.delay), 1, Max(policy.maxDelay, 1))
  }

  function Attempts(policy: Policy, registry: Registry, p: string, attempt: nat): (seq<Event>, bool)
    requires attempt >= 1
    decreases Max(policy.retries, attempt) - attempt
  {
    var outcome := registry.reply(p, attempt);
    var tried := [Tried(p, attempt, outcome)];
    if !outcome.Rejected? then (tried, true)
    else if attempt >= policy.retries then (tried, false)
    else
      var (rest, ok) := Attempts(policy, registry, p, attempt + 1);
      (tried + [Waited(p, Wait(policy, outcome))] + rest, ok)
  }

  function PublishOne(policy: Policy, registry: Registry, p: string): (seq<Event>, bool) {
    if registry.known(p) then ([Skipped(p)], true) else Attempts(policy, registry, p, 1)
  }

  function PublishAll(policy: Policy, registry: Registry, packages: seq<string>): (seq<Event>, bool) {
    if packages == [] then ([], true)
    else
      var n := |packages| - 1;
      var (log, ok) := PublishAll(policy, registry, packages[..n]);
      if !ok then (log, false)
      else
        var (more, done) := PublishOne(policy, registry, packages[n]);
        (log + more, done)
  }

  lemma {:induction false} StopsEarly(policy: Policy, registry: Registry, packages: seq<string>, n: nat)
    requires n <= |packages| && !PublishAll(policy, registry, packages[..n]).1
    ensures PublishAll(policy, registry, packages) == PublishAll(policy, registry, packages[..n])
    decreases |packages|
  {
    if n == |packages| {
      assert packages[..n] == packages;
    } else {
      assert packages[..|packages| - 1][..n] == packages[..n];
      StopsEarly(policy, registry, packages[..|packages| - 1], n);
    }
  }

  method RunPublish(policy: Policy, registry: Registry, packages: seq<string>) returns (log: seq<Event>, ok: bool)
    ensures (log, ok) == PublishAll(policy, registry, packages)
  {
    log := [];
    var i := 0;
    while i < |packages|
      invariant 0 <= i <= |packages|
      invariant (log, true) == PublishAll(policy, registry, packages[..i])
    {
      var package := packages[i];
      assert packages[..i + 1][..i] == packages[..i];
      ghost var before := log;
      if registry.known(package) {
        log := log + [Skipped(package)];
      } else {
        var attempt := 1;
        while true
          invariant attempt >= 1
          invariant before + PublishOne(policy, registry, package).0
            == log + Attempts(policy, registry, package, attempt).0
          invariant PublishOne(policy, registry, package).1 == Attempts(policy, registry, package, attempt).1
          decreases Max(policy.retries, attempt) - attempt
        {
          var outcome := registry.reply(package, attempt);
          log := log + [Tried(package, attempt, outcome)];
          if !outcome.Rejected? {
            break;
          }
          if attempt >= policy.retries {
            StopsEarly(policy, registry, packages, i + 1);
            return log, false;
          }
          log := log + [Waited(package, Wait(policy, outcome))];
          attempt := attempt + 1;
        }
      }
      i := i + 1;
    }
    assert packages[..i] == packages;
    ok := true;
  }

  // ---------------------------------------------------------------- what every run satisfies

  predicate Present(e: Event, p: string) {
    e.package == p && (e.Skipped? || (e.Tried? && !e.outcome.Rejected?))
  }

  ghost predicate PresentIn(log: seq<Event>, p: string) { exists i :: 0 <= i < |log| && Present(log[i], p) }

  function CountTries(log: seq<Event>, p: string): nat {
    if log == [] then 0
    else CountTries(log[..|log| - 1], p) + (if log[|log| - 1].Tried? && log[|log| - 1].package == p then 1 else 0)
  }

  lemma {:induction false} CountConcat(a: seq<Event>, b: seq<Event>, p: string)
    ensures CountTries(a + b, p) == CountTries(a, p) + CountTries(b, p)
  {
    if b == [] {
      assert a + b == a;
    } else {
      assert (a + b)[..|a + b| - 1] == a + b[..|b| - 1];
      CountConcat(a, b[..|b| - 1], p);
    }
  }

  /** Events about one package, with bounded waits. */
  ghost predicate Bounded(log: seq<Event>, policy: Policy) {
    forall i :: 0 <= i < |log| && log[i].Waited? ==> 1 <= log[i].seconds <= Max(1, policy.maxDelay)
  }

  ghost predicate About(log: seq<Event>, p: string) { forall i :: 0 <= i < |log| ==> log[i].package == p }

  lemma PresentTail(head: seq<Event>, rest: seq<Event>, p: string)
    requires forall i :: 0 <= i < |head| ==> !Present(head[i], p)
    ensures PresentIn(head + rest, p) <==> PresentIn(rest, p)
  {
    if PresentIn(head + rest, p) {
      var i :| 0 <= i < |head + rest| && Present((head + rest)[i], p);
      assert i >= |head| && rest[i - |head|] == (head + rest)[i];
    }
    if PresentIn(rest, p) {
      PresentGrows(head, rest, p);
    }
  }

  lemma {:induction false} AttemptsAreCounted(policy: Policy, registry: Registry, p: string, attempt: nat)
    requires attempt >= 1
    ensures var log := Attempts(policy, registry, p, attempt).0;
      About(log, p) && Bounded(log, policy) && CountTries(log, p) + attempt <= Max(policy.retries, attempt) + 1
    decreases Max(policy.retries, attempt) - attempt
  {
    var outcome := registry.reply(p, attempt);
    var tried := [Tried(p, attempt, outcome)];
    assert CountTries(tried, p) == 1 by { assert tried[..0] == []; }
    if outcome.Rejected? && attempt < policy.retries {
      AttemptsAreCounted(policy, registry, p, attempt + 1);
      var wait := [Waited(p, Wait(policy, outcome))];
      assert CountTries(wait, p) == 0 by { assert wait[..0] == []; }
      CountConcat(tried, wait, p);
      CountConcat(tried + wait, Attempts(policy, registry, p, attempt + 1).0, p);
    }
  }

  lemma {:induction false} AttemptsSucceed(policy: Policy, registry: Registry, p: string, attempt: nat)
    requires attempt >= 1
    ensures var (log, ok) := Attempts(policy, registry, p, attempt); ok <==> PresentIn(log, p)
    decreases Max(policy.retries, attempt) - attempt
  {
    var outcome := registry.reply(p, attempt);
    var tried := [Tried(p, attempt, outcome)];
    if outcome.Rejected? && attempt < policy.retries {
      AttemptsSucceed(policy, registry, p, attempt + 1);
      var head := tried + [Waited(p, Wait(policy, outcome))];
      PresentTail(head, Attempts(policy, registry, p, attempt + 1).0, p);
    } else {
      assert Present(tried[0], p) <==> !outcome.Rejected?;
    }
  }

  lemma PublishOneEffect(policy: Policy, registry: Registry, p: string)
    ensures var (log, ok) := PublishOne(policy, registry, p);
      && About(log, p) && Bounded(log, policy)
      && CountTries(log, p) <= Max(policy.retries, 1)
      && (ok <==> PresentIn(log, p))
  {
    if registry.known(p) {
      var log := [Skipped(p)];
      assert log[..0] == [] && CountTries(log, p) == 0;
      assert Present(log[0], p);
    } else {
      AttemptsAreCounted(policy, registry, p, 1);
      AttemptsSucceed(policy, registry, p, 1);
    }
  }

  lemma {:induction false} NoTriesElsewhere(log: seq<Event>, q: string, p: string)
    requires About(log, q) && p != q
    ensures CountTries(log, p) == 0
  {
    if log != [] { NoTriesElsewhere(log[..|log| - 1], q, p); }
  }

  lemma PresentGrows(log: seq<Event>, more: seq<Event>, p: string)
    requires PresentIn(log, p) || PresentIn(more, p)
    ensures PresentIn(log + more, p)
  {
    if PresentIn(log, p) {
      var i :| 0 <= i < |log| && Present(log[i], p);
      assert (log + more)[i] == log[i];
    } else {
      var i :| 0 <= i < |more| && Present(more[i], p);
      assert (log + more)[|log| + i] == more[i];
    }
  }

  /** At most max(retries, 1) uploads per package, every wait between 1 second and the limit, and
      success exactly when every listed package is present in the registry. */
  lemma {:induction false} RunIsBounded(policy: Policy, registry: Registry, packages: seq<string>)
    requires AllDistinct(packages)
    ensures var (log, ok) := PublishAll(policy, registry, packages);
      && Bounded(log, policy)
      && (forall p :: CountTries(log, p) <= if p in packages then Max(policy.retries, 1) else 0)
      && (ok <==> forall i :: 0 <= i < |packages| ==> PresentIn(log, packages[i]))
      && (forall i :: 0 <= i < |log| ==> log[i].package in packages)
  {
    if packages != [] {
      var n := |packages| - 1;
      var front, last := packages[..n], packages[n];
      assert packages == front + [last] && last !in front;
      RunIsBounded(policy, registry, front);
      PublishOneEffect(policy, registry, last);
      var (log, ok) := PublishAll(policy, registry, front);
      var (more, done) := PublishOne(policy, registry, last);
      if ok {
        forall p ensures CountTries(log + more, p) <= if p in packages then Max(policy.retries, 1) else 0 {
          CountConcat(log, more, p);
          if p != last { NoTriesElsewhere(more, last, p); }
        }
        SuccessStep(log, more, front, last, done);
      } else {
        var i :| 0 <= i < |front| && !PresentIn(log, front[i]);
        assert packages[i] == front[i];
      }
    }
  }

  lemma SuccessStep(log: seq<Event>, more: seq<Event>, front: seq<string>, last: string, done: bool)
    requires forall i :: 0 <= i < |front| ==> PresentIn(log, front[i])
    requires forall i :: 0 <= i < |log| ==> log[i].package in front
    requires last !in front && (done <==> PresentIn(more, last))
    ensures done <==> forall i :: 0 <= i < |front + [last]| ==> PresentIn(log + more, (front + [last])[i])
  {
    forall i | 0 <= i < |front| ensures PresentIn(log + more, front[i]) { PresentGrows(log, more, front[i]); }
    if done { PresentGrows(log, more, last); }
    if PresentIn(log + more, last) {
      var i :| 0 <= i < |log + more| && Present((log + more)[i], last);
      assert i >= |log| && more[i - |log|] == (log + more)[i];
    }
    assert (front + [last])[|front|] == last;
  }

  /** What one more package adds to a run, if it is reached. */
  lemma LastPackage(policy: Policy, registry: Registry, front: seq<string>, last: string)
    requires AllDistinct(front)
    ensures
      var (log, ok) := PublishAll(policy, registry, front);
      var all := PublishAll(policy, registry, front + [last]).0;
      && log <= all && (forall i :: 0 <= i < |log| ==> log[i].package in front)
      && (|all| > |log| ==> forall i :: 0 <= i < |front| ==> PresentIn(log, front[i]))
      && (forall i :: |log| <= i < |all| ==> all[i].package == last)
  {
    assert (front + [last])[..|front|] == front;
    RunIsBounded(policy, registry, front);
    PublishOneEffect(policy, registry, last);
  }

  /** Whenever a package is uploaded, everything listed before it is already present. */
  lemma {:induction false} EarlierPackagesFirst(policy: Policy, registry: Registry, packages: seq<string>, i: nat,
        q: nat, p: nat)
    requires AllDistinct(packages) && q < p < |packages|
    requires i < |PublishAll(policy, registry, packages).0|
             && PublishAll(policy, registry, packages).0[i].package == packages[p]
    ensures PresentIn(PublishAll(policy, registry, packages).0[..i], packages[q])
  {
    var n := |packages| - 1;
    var front, last := packages[..n], packages[n];
    assert packages == front + [last];
    var log := PublishAll(policy, registry, front).0;
    var all := PublishAll(policy, registry, packages).0;
    LastPackage(policy, registry, front, last);
    if i < |log| {
      assert all[i] == log[i] && log[i].package in front;
      assert p < n;
      EarlierPackagesFirst(policy, registry, front, i, q, p);
      assert all[..i] == log[..i];
    } else {
      assert PresentIn(log, front[q]) by { assert packages[p] == packages[n]; }
      assert all[..i] == log + all[|log|..i];
      PresentGrows(log, all[|log|..i], front[q]);
    }
  }

  /** After an accepted order, every direct or indirect dependency of a package is in the registry
      before any upload of it is tried. */
  lemma DependenciesPublishedFirst(policy: Policy, registry: Registry, packages: seq<string>, graph: Graph,
        path: seq<string>, i: nat)
    requires AllDistinct(packages) && Topological(packages, graph) && Path(graph, path)
    requires i < |PublishAll(policy, registry, packages).0|
    requires PublishAll(policy, registry, packages).0[i].Tried?
             && PublishAll(policy, registry, packages).0[i].package == path[0]
    ensures PresentIn(PublishAll(policy, registry, packages).0[..i], path[|path| - 1])
  {
    TopologicalDescends(packages, graph);
    PathsDescend(packages, graph, path);
    var pos := Positions(packages);
    EarlierPackagesFirst(policy, registry, packages, i, pos[path[|path| - 1]], pos[path[0]]);
  }

  // ---------------------------------------------------------------- every event of a run

  /** The wait after a rejection: what Retry-After asks for, the policy's delay without it; at least one
      second, also for a time that has passed, and at most the limit. */
  predicate DueWait(seconds: nat, policy: Policy, header: Option<RetryAfter>, now: nat) {
    var limit := if policy.maxDelay == 0 then 1 else policy.maxDelay;
    var asked :=
      match header
      case None => policy.delay
      case Some(Seconds(n)) => n
      case Some(At(time)) => if now < time then time - now else 1;
    seconds == if asked == 0 then 1 else if asked > limit then limit else asked
  }

  lemma WaitIsDue(policy: Policy, outcome: Outcome)
    requires outcome.Rejected?
    ensures DueWait(Wait(policy, outcome), policy, outcome.header, outcome.now)
  {
  }

  /** All attempts before this one were rejected. */
  ghost predicate RejectedBefore(registry: Registry, p: string, attempt: nat) {
    forall b :: 1 <= b < attempt ==> registry.reply(p, b).Rejected?
  }

  /** What an event must be, given the one before it. */
  ghost predicate Explained(policy: Policy, registry: Registry, log: seq<Event>, i: nat)
    requires i < |log|
  {
    match log[i]
    case Skipped(p) => registry.known(p)
    case Tried(p, attempt, outcome) =>
      && !registry.known(p) && outcome == registry.reply(p, attempt)
      && 1 <= attempt <= Max(policy.retries, 1) && RejectedBefore(registry, p, attempt)
      && (attempt > 1 ==> i > 0 && log[i - 1].Waited? && log[i - 1].package == p)
    case Waited(p, seconds) =>
      && i > 0 && log[i - 1].Tried? && log[i - 1].package == p && log[i - 1].outcome.Rejected?
      && log[i - 1].attempt < policy.retries
      && DueWait(seconds, policy, log[i - 1].outcome.header, log[i - 1].outcome.now)
  }

  ghost predicate AllExplained(policy: Policy, registry: Registry, log: seq<Event>) {
    forall i :: 0 <= i < |log| ==> Explained(policy, registry, log, i)
  }

  /** Logs can be put together where the second one starts afresh. */
  lemma ExplainedConcat(policy: Policy, registry: Registry, a: seq<Event>, b: seq<Event>)
    requires AllExplained(policy, registry, a) && AllExplained(policy, registry, b)
    ensures AllExplained(policy, registry, a + b)
  {
    forall i | 0 <= i < |a + b| ensures Explained(policy, registry, a + b, i) {
      if i < |a| {
        assert Explained(policy, registry, a, i);
      } else {
        assert Explained(policy, registry, b, i - |a|);
        assert i > |a| ==> (a + b)[i - 1] == b[i - |a| - 1];
      }
    }
  }

  /** Attempts from a later one on, behind the wait that leads to it. */
  lemma {:induction false} AttemptsExplained(policy: Policy, registry: Registry, p: string, attempt: nat,
        lead: seq<Event>)
    requires attempt >= 1 && !registry.known(p) && RejectedBefore(registry, p, attempt)
             && attempt <= Max(policy.retries, 1)
    requires AllExplained(policy, registry, lead)
    requires attempt > 1 ==> lead != [] && lead[|lead| - 1].Waited? && lead[|lead| - 1].package == p
    ensures AllExplained(policy, registry, lead + Attempts(policy, registry, p, attempt).0)
    decreases Max(policy.retries, attempt) - attempt
  {
    var outcome := registry.reply(p, attempt);
    var tried := lead + [Tried(p, attempt, outcome)];
    ExplainedSnoc(policy, registry, lead, Tried(p, attempt, outcome));
    if outcome.Rejected? && attempt < policy.retries {
      var wait := Waited(p, Wait(policy, outcome));
      WaitIsDue(policy, outcome);
      ExplainedSnoc(policy, registry, tried, wait);
      var rest := Attempts(policy, registry, p, attempt + 1).0;
      AttemptsExplained(policy, registry, p, attempt + 1, tried + [wait]);
      assert tried + [wait] + rest == lead + ([Tried(p, attempt, outcome)] + [wait] + rest);
    }
  }

  lemma ExplainedSnoc(policy: Policy, registry: Registry, log: seq<Event>, e: Event)
    requires AllExplained(policy, registry, log) && Explained(policy, registry, log + [e], |log|)
    ensures AllExplained(policy, registry, log + [e])
  {
    forall i | 0 <= i < |log| ensures Explained(policy, registry, log + [e], i) {
      assert Explained(policy, registry, log, i);
    }
  }

  lemma OneExplained(policy: Policy, registry: Registry, p: string)
    ensures AllExplained(policy, registry, PublishOne(policy, registry, p).0)
  {
    if !registry.known(p) {
      AttemptsExplained(policy, registry, p, 1, []);
      assert [] + Attempts(policy, registry, p, 1).0 == Attempts(policy, registry, p, 1).0;
    }
  }

  /** Every event of every run: a package is skipped only if the registry knows it; an upload is the next
      attempt of an unknown package all of whose earlier attempts were rejected, with what the registry
      replies; a wait follows a rejected attempt that is not the last, for as long as is due. */
  lemma {:induction false} EventsAreExplained(policy: Policy, registry: Registry, packages: seq<string>)
    ensures AllExplained(policy, registry, PublishAll(policy, registry, packages).0)
  {
    if packages != [] {
      var n := |packages| - 1;
      EventsAreExplained(policy, registry, packages[..n]);
      OneExplained(policy, registry, packages[n]);
      ExplainedConcat(policy, registry, PublishAll(policy, registry, packages[..n]).0,
          PublishOne(policy, registry, packages[n]).0);
    }
  }

  /** Some permitted attempt is not rejected. */
  ghost predicate Obtainable(policy: Policy, registry: Registry, p: string) {
    registry.known(p) || exists a :: 1 <= a <= Max(policy.retries, 1) && !registry.reply(p, a).Rejected?
  }

  lemma {:induction false} AttemptsSucceedExactly(policy: Policy, registry: Registry, p: string, attempt: nat)
    requires 1 <= attempt <= Max(policy.retries, 1) && RejectedBefore(registry, p, attempt)
    ensures Attempts(policy, registry, p, attempt).1 <==>
      exists a :: 1 <= a <= Max(policy.retries, 1) && !registry.reply(p, a).Rejected?
    decreases Max(policy.retries, attempt) - attempt
  {
    if registry.reply(p, attempt).Rejected? && attempt < policy.retries {
      AttemptsSucceedExactly(policy, registry, p, attempt + 1);
    }
  }

  /** A run succeeds exactly when every package is known already or one of its permitted attempts is
      accepted: no attempt is given up early. */
  lemma {:induction false} RunSucceedsExactly(policy: Policy, registry: Registry, packages: seq<string>)
    ensures PublishAll(policy, registry, packages).1 <==>
      forall i :: 0 <= i < |packages| ==> Obtainable(policy, registry, packages[i])
  {
    if packages != [] {
      var n := |packages| - 1;
      RunSucceedsExactly(policy, registry, packages[..n]);
      assert forall i :: 0 <= i < n ==> packages[..n][i] == packages[i];
      if !registry.known(packages[n]) { AttemptsSucceedExactly(policy, registry, packages[n], 1); }
    }
  }
}
