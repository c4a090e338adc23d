/** Two reachability searches over dependency maps: a stack search that reports a witness path, and a
    recursive one whose calls share one set of visited jobs. */
module Graph {
  import opened Basics

  type Edges = map<string, seq<string>>

  function Successors(g: Edges, v: string): seq<string> { if v in g then g[v] else [] }

  /** A walk along edges, of any length. */
  ghost predicate Walk(g: Edges, path: seq<string>) {
    path != [] && forall i :: 0 <= i < |path| - 1 ==> path[i + 1] in Successors(g, path[i])
  }

  /** A walk with at least one edge between two ends. */
  ghost predicate PathBetween(g: Edges, path: seq<string>, from: string, to: string) {
    Walk(g, path) && |path| >= 2 && path[0] == from && path[|path| - 1] == to
  }

  ghost predicate Reaches(g: Edges, from: string, to: string) {
    exists path :: PathBetween(g, path, from, to)
  }

  lemma WalkSnoc(g: Edges, path: seq<string>, next: string)
    requires Walk(g, path) && next in Successors(g, path[|path| - 1])
    ensures PathBetween(g, path + [next], path[0], next)
  {
    var longer := path + [next];
    forall i | 0 <= i < |longer| - 1 ensures longer[i + 1] in Successors(g, longer[i]) {
      assert longer[i] == path[i];
      assert i < |path| - 1 ==> longer[i + 1] == path[i + 1];
    }
  }

  lemma EdgeReaches(g: Edges, v: string, w: string)
    requires w in Successors(g, v)
    ensures Reaches(g, v, w)
  {
    WalkSnoc(g, [v], w);
  }

  lemma EdgeThenReaches(g: Edges, v: string, w: string, to: string)
    requires w in Successors(g, v) && Reaches(g, w, to)
    ensures Reaches(g, v, to)
  {
    var path :| PathBetween(g, path, w, to);
    var longer := [v] + path;
    forall i | 0 <= i < |longer| - 1 ensures longer[i + 1] in Successors(g, longer[i]) {
      assert i > 0 ==> longer[i] == path[i - 1];
      assert longer[i + 1] == path[i];
    }
    assert PathBetween(g, longer, v, to);
  }

  /** Edges from `done` stay inside `known` and never hit the target. */
  ghost predicate Explored(g: Edges, done: set<string>, known: set<string>, target: string) {
    forall v :: v in done ==> Expanded(g, v, known, target)
  }

  ghost predicate Expanded(g: Edges, v: string, known: set<string>, target: string) {
    forall w :: w in Successors(g, v) ==> w != target && w in known
  }

  lemma ExploredMore(g: Edges, done: set<string>, known: set<string>, more: set<string>, target: string)
    requires Explored(g, done, known, target) && known <= more
    ensures Explored(g, done, more, target)
  {
    forall v | v in done ensures Expanded(g, v, more, target) { assert Expanded(g, v, known, target); }
  }

  lemma {:induction false} WalkStaysInside(g: Edges, visited: set<string>, target: string, path: seq<string>, i: nat)
    requires Explored(g, visited, visited, target) && Walk(g, path) && path[0] in visited && i < |path|
    ensures path[i] in visited
    ensures i > 0 ==> path[i] != target
  {
    if i > 0 {
      WalkStaysInside(g, visited, target, path, i - 1);
      assert path[i - 1 + 1] in Successors(g, path[i - 1]);
    }
  }

  lemma ExploredMeansUnreachable(g: Edges, visited: set<string>, from: string, target: string)
    requires from in visited && Explored(g, visited, visited, target)
    ensures !Reaches(g, from, target)
  {
    forall path | PathBetween(g, path, from, target) ensures false {
      WalkStaysInside(g, visited, target, path, |path| - 1);
    }
  }

  // ---------------------------------------------------------------- the stack search

  function Ends(pending: seq<(string, seq<string>)>): set<string> { set i | 0 <= i < |pending| :: pending[i].0 }

  ghost predicate Trails(g: Edges, source: string, pending: seq<(string, seq<string>)>) {
    forall i :: 0 <= i < |pending| ==> Trail(g, source, pending[i])
  }

  ghost predicate Trail(g: Edges, source: string, entry: (string, seq<string>)) {
    Walk(g, entry.1) && entry.1[0] == source && entry.1[|entry.1| - 1] == entry.0
  }

  lemma EndsSnoc(pending: seq<(string, seq<string>)>, entry: (string, seq<string>))
    ensures Ends(pending + [entry]) == Ends(pending) + {entry.0}
  {
    assert (pending + [entry])[|pending|] == entry;
    forall v | v in Ends(pending) ensures v in Ends(pending + [entry]) {
      var i :| 0 <= i < |pending| && pending[i].0 == v;
      assert (pending + [entry])[i] == pending[i];
    }
  }

  /** What is known while the stack is `pending`. */
  ghost predicate Searching(g: Edges, source: string, target: string, visited: set<string>,
        pending: seq<(string, seq<string>)>)
  {
    && Trails(g, source, pending)
    && source in visited + Ends(pending)
    && Explored(g, visited, visited + Ends(pending), target)
  }

  /** Pushes the successors of a newly visited node, or stops at the target. */
  method Expand(g: Edges, source: string, target: string, current: string, path: seq<string>,
        pending: seq<(string, seq<string>)>)
    returns (next: seq<(string, seq<string>)>, evidence: Option<seq<string>>)
    requires Trails(g, source, pending) && Trail(g, source, (current, path))
    ensures evidence.Some? ==> PathBetween(g, evidence.value, source, target)
    ensures evidence.None? ==>
      Trails(g, source, next) && Ends(pending) <= Ends(next) && Expanded(g, current, Ends(next), target)
    ensures current !in g ==> next == pending && evidence.None?
  {
    next, evidence := pending, None;
    var successors := Successors(g, current);
    var i := 0;
    while i < |successors|
      invariant 0 <= i <= |successors|
      invariant Trails(g, source, next) && Ends(pending) <= Ends(next)
      invariant forall k :: 0 <= k < i ==> successors[k] != target && successors[k] in Ends(next)
      invariant i == 0 ==> next == pending
    {
      var dependencyPath := path + [successors[i]];
      WalkSnoc(g, path, successors[i]);
      if successors[i] == target {
        return next, Some(dependencyPath);
      }
      EndsSnoc(next, (successors[i], dependencyPath));
      next := next + [(successors[i], dependencyPath)];
      i := i + 1;
    }
  }

  /** Reports a path of at least one edge from source to target exactly when there is one. */
  method EnsureNoPath(g: Edges, source: string, target: string) returns (evidence: Option<seq<string>>)
    ensures evidence.Some? ==> PathBetween(g, evidence.value, source, target)
    ensures evidence.None? <==> !Reaches(g, source, target)
  {
    var pending := [(source, [source])];
    var visited: set<string> := {};
    assert pending[0].0 in Ends(pending);
    while pending != []
      invariant Searching(g, source, target, visited, pending)
      decreases g.Keys - visited, |pending|
    {
      var (current, path) := pending[|pending| - 1];
      ghost var before := pending;
      pending := pending[..|pending| - 1];
      assert before == pending + [(current, path)];
      EndsSnoc(pending, (current, path));
      assert Trail(g, source, before[|before| - 1]);
      if current in visited {
        assert visited + Ends(before) == visited + Ends(pending);
        continue;
      }
      ghost var known := visited + Ends(before);
      pending, evidence := Expand(g, source, target, current, path, pending);
      if evidence.Some? {
        return;
      }
      VisitKeeps(g, target, visited, known, current, Ends(pending));
      visited := visited + {current};
    }
    assert Ends(pending) == {} && visited + Ends(pending) == visited;
    ExploredMeansUnreachable(g, visited, source, target);
    evidence := None;
  }

  lemma VisitKeeps(g: Edges, target: string, visited: set<string>, known: set<string>, current: string,
        ends: set<string>)
    requires Explored(g, visited, known, target) && Expanded(g, current, ends, target)
             && known <= visited + {current} + ends
    ensures Explored(g, visited + {current}, visited + {current} + ends, target)
  {
    ExploredMore(g, visited, known, visited + {current} + ends, target);
  }

  // ---------------------------------------------------------------- the recursive search

  /** The visited set that all calls of one search share. */
  class Seen {
    var jobs: set<string>

    constructor ()
      ensures jobs == {}
    {
      jobs := {};
    }

    method Insert(job: string) returns (added: bool)
      modifies this
      ensures jobs == old(jobs) + {job} && added == (job !in old(jobs))
    {
      added := job !in jobs;
      jobs := jobs + {job};
    }
  }

  /** Finding the dependency is always right; not finding it means that everything newly seen was
      explored in full. */
  method DependsOn(g: Edges, job: string, dependency: string, seen: Seen) returns (found: bool)
    modifies seen
    ensures old(seen.jobs) <= seen.jobs && job in seen.jobs
    ensures found ==> Reaches(g, job, dependency)
    ensures !found ==> Explored(g, seen.jobs - old(seen.jobs), seen.jobs, dependency)
    decreases g.Keys - seen.jobs
  {
    var added := seen.Insert(job);
    if !added {
      return false;
    }
    if job !in g {
      return false;
    }
    var candidates := g[job];
    var i := 0;
    while i < |candidates|
      invariant 0 <= i <= |candidates|
      invariant old(seen.jobs) + {job} <= seen.jobs
      invariant forall k :: 0 <= k < i ==> candidates[k] != dependency && candidates[k] in seen.jobs
      invariant Explored(g, seen.jobs - old(seen.jobs) - {job}, seen.jobs, dependency)
    {
      if candidates[i] == dependency {
        EdgeReaches(g, job, dependency);
        return true;
      }
      ghost var before := seen.jobs;
      assert g.Keys - seen.jobs < g.Keys - old(seen.jobs);
      var deeper := DependsOn(g, candidates[i], dependency, seen);
      if deeper {
        EdgeThenReaches(g, job, candidates[i], dependency);
        return true;
      }
      ExploredMore(g, before - old(seen.jobs) - {job}, before, seen.jobs, dependency);
      i := i + 1;
    }
    assert Expanded(g, job, seen.jobs, dependency);
    return false;
  }

  /** Started with nothing seen, the recursive search decides the same question as the stack search. */
  method ReleaseJobDependsOn(g: Edges, job: string, dependency: string) returns (found: bool)
    ensures found <==> Reaches(g, job, dependency)
  {
    var seen := new Seen();
    found := DependsOn(g, job, dependency, seen);
    if !found {
      assert seen.jobs - {} == seen.jobs;
      ExploredMeansUnreachable(g, seen.jobs, job, dependency);
    }
  }
}
