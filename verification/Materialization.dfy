/**
  Versioned evidence of how an agent was materialized, and the decision whether a continuation may
  run under different evidence. The digest is an abstract function of the fingerprinted fields.
*/
module Materialization {
  import opened Basics
  import opened Order

  const UNBOUND: string := "sha256:unbound"
  const CURRENT: nat := 2

  /** What a fingerprint is computed from; version 1 predates the host bindings. */
  datatype Input =
    | Legacy(version: nat, spec: string, model: string, toolsets: seq<string>, policy: string, environment: string)
    | Full(version: nat, spec: string, model: string, toolsets: seq<string>, policy: string, environment: string,
           runtime: string, workspace: string)

  type Digest = Input -> string

  ghost predicate CollisionFree(digest: Digest) { forall x, y :: digest(x) == digest(y) ==> x == y }

  datatype Evidence = Evidence(
    version: nat, spec: string, model: string, toolsets: seq<string>, policy: string, environment: string,
    runtime: string, workspace: string, fingerprint: string)
  {
    function LegacyInput(): Input { Legacy(version, spec, model, toolsets, policy, environment) }
    function FullInput(): Input { Full(version, spec, model, toolsets, policy, environment, runtime, workspace) }

    predicate FingerprintIsValid(digest: Digest) {
      if version == CURRENT then fingerprint == digest(FullInput())
      else if version == 1 then runtime == UNBOUND && workspace == UNBOUND && fingerprint == digest(LegacyInput())
      else false
    }

    function Refreshed(digest: Digest): Evidence { this.(fingerprint := digest(FullInput())) }

    function WithAdditionalToolset(identity: string, digest: Digest): Evidence {
      this.(toolsets := SortedSet(toolsets + [identity])).Refreshed(digest)
    }
  }

  function New(spec: string, model: string, toolsets: seq<string>, policy: string, environment: string,
        digest: Digest): Evidence
  {
    Evidence(CURRENT, spec, model, SortedSet(toolsets), policy, environment, UNBOUND, UNBOUND, "").Refreshed(digest)
  }

  // ---------------------------------------------------------------- building evidence

  /** Toolset identities form a set: neither their order nor repetition shows in the evidence. */
  lemma ToolsetsAreASet(spec: string, model: string, xs: seq<string>, ys: seq<string>, policy: string,
        environment: string, digest: Digest)
    requires Elements(xs) == Elements(ys)
    ensures New(spec, model, xs, policy, environment, digest) == New(spec, model, ys, policy, environment, digest)
  {
    SortedUnique(SortedSet(xs), SortedSet(ys));
  }

  /** Adding toolsets one by one is the same as starting with all of them, in any order. */
  lemma AddingToolset(spec: string, model: string, xs: seq<string>, identity: string, policy: string,
        environment: string, digest: Digest)
    ensures New(spec, model, xs, policy, environment, digest).WithAdditionalToolset(identity, digest)
         == New(spec, model, xs + [identity], policy, environment, digest)
  {
    var s := SortedSet(xs);
    assert Elements(s + [identity]) == Elements(s) + {identity};
    assert Elements(xs + [identity]) == Elements(xs) + {identity};
    SortedUnique(SortedSet(s + [identity]), SortedSet(xs + [identity]));
  }

  /** A rebuilt record verifies exactly when it is of the current version. */
  lemma RefreshedIsValid(e: Evidence, digest: Digest)
    requires CollisionFree(digest)
    ensures e.Refreshed(digest).FingerprintIsValid(digest) <==> e.version == CURRENT
  {
    assert digest(e.FullInput()) == digest(e.LegacyInput()) ==> e.FullInput() == e.LegacyInput();
  }

  /** Fingerprints identify verified records. */
  lemma FingerprintIdentifies(a: Evidence, b: Evidence, digest: Digest)
    requires CollisionFree(digest) && a.FingerprintIsValid(digest) && b.FingerprintIsValid(digest)
    ensures a.fingerprint == b.fingerprint <==> a == b
  {
    var x := if a.version == CURRENT then a.FullInput() else a.LegacyInput();
    var y := if b.version == CURRENT then b.FullInput() else b.LegacyInput();
    assert digest(x) == digest(y) ==> x == y;
  }

  // ---------------------------------------------------------------- storing and loading

  /** A metadata value: the two evidence shapes, or something else that may carry a version. */
  datatype Json =
    | LegacyRecord(version: nat, spec: string, model: string, toolsets: seq<string>, policy: string,
                   environment: string, fingerprint: string)
    | FullRecord(evidence: Evidence)
    | OtherValue(versionField: Option<nat>)

  const KEY: string := "starweaver.agent.materialization"

  type Metadata = map<string, Json>

  datatype Loaded = Found(evidence: Evidence) | Absent | Malformed | InvalidFingerprint

  function VersionOf(value: Json): Option<nat> {
    match value
    case LegacyRecord(version, _, _, _, _, _, _) => Some(version)
    case FullRecord(e) => Some(e.version)
    case OtherValue(version) => version
  }

  function InsertInto(e: Evidence, metadata: Metadata): Metadata {
    metadata[KEY := if e.version == 1
                    then LegacyRecord(1, e.spec, e.model, e.toolsets, e.policy, e.environment, e.fingerprint)
                    else FullRecord(e)]
  }

  function FromMetadata(metadata: Metadata, digest: Digest): Loaded {
    if KEY !in metadata then Absent
    else
      var value := metadata[KEY];
      if VersionOf(value) == Some(1) then
        match value
        case LegacyRecord(version, spec, model, toolsets, policy, environment, fingerprint) =>
          if fingerprint == digest(Legacy(version, spec, model, toolsets, policy, environment))
          then Found(Evidence(version, spec, model, toolsets, policy, environment, UNBOUND, UNBOUND, fingerprint))
          else InvalidFingerprint
        case _ => Malformed
      else
        match value
        case FullRecord(e) => if e.FingerprintIsValid(digest) then Found(e) else InvalidFingerprint
        case _ => Malformed
  }

  /** Evidence survives storing and loading exactly when its fingerprint verifies. */
  lemma StoreThenLoad(e: Evidence, metadata: Metadata, digest: Digest)
    ensures FromMetadata(InsertInto(e, metadata), digest) == Found(e) <==> e.FingerprintIsValid(digest)
    ensures forall k :: k != KEY ==> (k in InsertInto(e, metadata) <==> k in metadata)
    ensures forall k :: k != KEY && k in metadata ==> InsertInto(e, metadata)[k] == metadata[k]
  {
    assert InsertInto(e, metadata)[KEY] ==
      if e.version == 1 then LegacyRecord(1, e.spec, e.model, e.toolsets, e.policy, e.environment, e.fingerprint)
      else FullRecord(e);
  }

  /** Whatever loads verifies, and storing it again leaves the metadata as it was: a version 1 record
      keeps its original shape when it is copied forward. */
  lemma LoadThenStore(metadata: Metadata, digest: Digest)
    requires FromMetadata(metadata, digest).Found?
    ensures FromMetadata(metadata, digest).evidence.FingerprintIsValid(digest)
    ensures InsertInto(FromMetadata(metadata, digest).evidence, metadata) == metadata
  {
    var value := metadata[KEY];
    assert metadata == metadata[KEY := value];
  }

  // ---------------------------------------------------------------- continuation decisions

  datatype Mode = Preserve | Compatible | Switch

  datatype FieldName = SpecField | ModelField | ToolsetsField | PolicyField | EnvironmentField | RuntimeField
                     | WorkspaceField | SourceEvidence

  datatype FieldValue = Text(text: string) | Texts(texts: seq<string>) | Missing

  datatype Drift = Drift(field: FieldName, source: FieldValue, target: FieldValue)

  datatype Decision = Decision(
    mode: Mode, source: Option<string>, target: string, drift: seq<Drift>, allowed: bool)

  function FieldOf(e: Evidence, f: FieldName): FieldValue {
    match f
    case SpecField => Text(e.spec)
    case ModelField => Text(e.model)
    case ToolsetsField => Texts(e.toolsets)
    case PolicyField => Text(e.policy)
    case EnvironmentField => Text(e.environment)
    case RuntimeField => Text(e.runtime)
    case WorkspaceField => Text(e.workspace)
    case SourceEvidence => Missing
  }

  const FIELDS: seq<FieldName> :=
    [SpecField, ModelField, ToolsetsField, PolicyField, EnvironmentField, RuntimeField, WorkspaceField]

  /** A version 1 source cannot establish parity of the host bindings. */
  predicate Drifts(s: Evidence, t: Evidence, f: FieldName) {
    FieldOf(s, f) != FieldOf(t, f) || (s.version == 1 && (f == RuntimeField || f == WorkspaceField))
  }

  function DriftOver(s: Evidence, t: Evidence, fields: seq<FieldName>): seq<Drift> {
    if fields == [] then []
    else
      var f := fields[|fields| - 1];
      DriftOver(s, t, fields[..|fields| - 1])
      + (if Drifts(s, t, f) then [Drift(f, FieldOf(s, f), FieldOf(t, f))] else [])
  }

  function DriftOf(source: Option<Evidence>, t: Evidence): seq<Drift> {
    if source.None? then [Drift(SourceEvidence, Missing, Text("verified"))] else DriftOver(source.value, t, FIELDS)
  }

  predicate OnlySpec(drift: seq<Drift>) { forall i :: 0 <= i < |drift| ==> drift[i].field == SpecField }

  predicate Allows(mode: Mode, known: bool, drift: seq<Drift>) {
    match mode
    case Preserve => known && drift == []
    case Compatible => known && OnlySpec(drift)
    case Switch => true
  }

  function Assess(source: Option<Evidence>, t: Evidence, mode: Mode): Decision {
    var drift := DriftOf(source, t);
    Decision(mode, if source.Some? then Some(source.value.fingerprint) else None, t.fingerprint, drift,
             Allows(mode, source.Some?, drift))
  }

  method PushDrift(drift: seq<Drift>, s: Evidence, t: Evidence, f: FieldName, ghost done: seq<FieldName>)
      returns (r: seq<Drift>)
    requires drift == DriftOver(s, t, done)
    ensures r == DriftOver(s, t, done + [f])
  {
    assert (done + [f])[..|done|] == done;
    r := drift;
    if Drifts(s, t, f) {
      r := r + [Drift(f, FieldOf(s, f), FieldOf(t, f))];
    }
  }

  method CollectDrift(s: Evidence, t: Evidence) returns (drift: seq<Drift>)
    ensures drift == DriftOver(s, t, FIELDS)
  {
    drift := PushDrift([], s, t, SpecField, []);
    drift := PushDrift(drift, s, t, ModelField, [] + [SpecField]);
    drift := PushDrift(drift, s, t, ToolsetsField, [] + [SpecField] + [ModelField]);
    drift := PushDrift(drift, s, t, PolicyField, [] + [SpecField] + [ModelField] + [ToolsetsField]);
    drift := PushDrift(drift, s, t, EnvironmentField,
        [] + [SpecField] + [ModelField] + [ToolsetsField] + [PolicyField]);
    ghost var bound := [] + [SpecField] + [ModelField] + [ToolsetsField] + [PolicyField] + [EnvironmentField];
    drift := PushDrift(drift, s, t, RuntimeField, bound);
    drift := PushDrift(drift, s, t, WorkspaceField, bound + [RuntimeField]);
    assert bound + [RuntimeField] + [WorkspaceField] == FIELDS;
  }

  method AssessContinuation(source: Option<Evidence>, t: Evidence, mode: Mode) returns (d: Decision)
    ensures d == Assess(source, t, mode)
  {
    var drift := [];
    if source.Some? {
      drift := CollectDrift(source.value, t);
    } else {
      drift := [Drift(SourceEvidence, Missing, Text("verified"))];
    }
    d := Decision(mode, if source.Some? then Some(source.value.fingerprint) else None, t.fingerprint, drift,
                  Allows(mode, source.Some?, drift));
  }

  predicate Validates(d: Decision, source: Option<Evidence>, t: Evidence) {
    d.allowed && d == Assess(source, t, d.mode)
  }

  // ---------------------------------------------------------------- what a decision means

  /** Same in everything that the drift report looks at, apart from the listed exceptions. */
  ghost predicate SameExcept(s: Evidence, t: Evidence, exceptions: set<FieldName>) {
    forall f :: f in FIELDS && f !in exceptions ==> !Drifts(s, t, f)
  }

  ghost predicate Reported(drift: seq<Drift>, f: FieldName) { exists i :: 0 <= i < |drift| && drift[i].field == f }

  /** The report lists exactly the drifting fields. */
  lemma {:induction false} ReportIsExact(s: Evidence, t: Evidence, fields: seq<FieldName>, f: FieldName)
    ensures Reported(DriftOver(s, t, fields), f) <==> f in fields && Drifts(s, t, f)
  {
    if fields != [] {
      var n := |fields| - 1;
      var front, last := DriftOver(s, t, fields[..n]), fields[n];
      assert fields == fields[..n] + [last];
      ReportIsExact(s, t, fields[..n], f);
      var all := DriftOver(s, t, fields);
      if Reported(front, f) {
        var i :| 0 <= i < |front| && front[i].field == f;
        assert all[i].field == f;
      }
      if f == last && Drifts(s, t, last) {
        assert all[|front|].field == f;
      }
      if Reported(all, f) && !(f == last && Drifts(s, t, last)) {
        var i :| 0 <= i < |all| && all[i].field == f;
        assert front[i].field == f;
      }
    }
  }

  lemma AllowedMeansSame(s: Evidence, t: Evidence)
    ensures Assess(Some(s), t, Preserve).allowed <==> SameExcept(s, t, {})
    ensures Assess(Some(s), t, Compatible).allowed <==> SameExcept(s, t, {SpecField})
  {
    var drift := DriftOver(s, t, FIELDS);
    forall f ensures Reported(drift, f) <==> f in FIELDS && Drifts(s, t, f) { ReportIsExact(s, t, FIELDS, f); }
    if SameExcept(s, t, {}) {
      assert drift != [] ==> Reported(drift, drift[0].field);
    }
    if SameExcept(s, t, {SpecField}) {
      assert forall i :: 0 <= i < |drift| ==> Reported(drift, drift[i].field);
    }
    if OnlySpec(drift) {
      forall f | f in FIELDS && f != SpecField ensures !Drifts(s, t, f) {
        assert !Reported(drift, f);
      }
    }
  }

  lemma SameFields(s: Evidence, t: Evidence)
    requires SameExcept(s, t, {})
    ensures s.spec == t.spec && s.model == t.model && s.toolsets == t.toolsets && s.policy == t.policy
    ensures s.environment == t.environment && s.runtime == t.runtime && s.workspace == t.workspace && s.version != 1
  {
    assert !Drifts(s, t, FIELDS[0]) && !Drifts(s, t, FIELDS[1]) && !Drifts(s, t, FIELDS[2]) && !Drifts(s, t, FIELDS[3]);
    assert !Drifts(s, t, FIELDS[4]) && !Drifts(s, t, FIELDS[5]) && !Drifts(s, t, FIELDS[6]);
  }

  /** Between verified records of the current version, Preserve means equal fingerprints. */
  lemma PreserveMeansSameFingerprint(s: Evidence, t: Evidence, digest: Digest)
    requires CollisionFree(digest) && s.FingerprintIsValid(digest) && t.FingerprintIsValid(digest)
    requires s.version == CURRENT && t.version == CURRENT
    ensures Assess(Some(s), t, Preserve).allowed <==> s.fingerprint == t.fingerprint
  {
    AllowedMeansSame(s, t);
    FingerprintIdentifies(s, t, digest);
    if SameExcept(s, t, {}) { SameFields(s, t); }
  }

  /** Over all verified records Preserve misses one case: it does not compare versions, so an unbound
      current source admits a version 1 target with the same fields, whose fingerprint differs. */
  lemma PreserveAllVersions(s: Evidence, t: Evidence, digest: Digest)
    requires CollisionFree(digest) && s.FingerprintIsValid(digest) && t.FingerprintIsValid(digest)
    requires Assess(Some(s), t, Preserve).allowed
    ensures s.fingerprint == t.fingerprint <==> t.version == CURRENT
  {
    AllowedMeansSame(s, t);
    SameFields(s, t);
    FingerprintIdentifies(s, t, digest);
  }

  lemma PreserveAdmitsLegacyTarget(digest: Digest)
    requires CollisionFree(digest)
    ensures var s := New("spec", "model", [], "policy", "local", digest);
      var t := Evidence(1, s.spec, s.model, s.toolsets, s.policy, s.environment, UNBOUND, UNBOUND,
          digest(s.(version := 1).LegacyInput()));
      && s.FingerprintIsValid(digest) && t.FingerprintIsValid(digest)
      && Assess(Some(s), t, Preserve).allowed && s.fingerprint != t.fingerprint
  {
    var s := New("spec", "model", [], "policy", "local", digest);
    var t := Evidence(1, s.spec, s.model, s.toolsets, s.policy, s.environment, UNBOUND, UNBOUND,
        digest(s.(version := 1).LegacyInput()));
    AllowedMeansSame(s, t);
    PreserveAllVersions(s, t, digest);
  }

  /** A source without evidence of its host bindings, or without any, can only be switched. */
  lemma UnboundSourceNeedsSwitch(source: Option<Evidence>, t: Evidence, mode: Mode)
    requires source.None? || source.value.version == 1
    ensures Assess(source, t, mode).allowed <==> mode == Switch
  {
    if source.Some? {
      AllowedMeansSame(source.value, t);
      assert FIELDS[5] == RuntimeField && Drifts(source.value, t, FIELDS[5]);
    }
  }

  lemma CompatibleStep(a: Evidence, b: Evidence, c: Evidence)
    requires Assess(Some(a), b, Compatible).allowed && Assess(Some(b), c, Compatible).allowed
    ensures Assess(Some(a), c, Compatible).allowed
  {
    AllowedMeansSame(a, b);
    AllowedMeansSame(b, c);
    AllowedMeansSame(a, c);
    assert forall f :: f in FIELDS && f != SpecField ==> !Drifts(a, b, f) && !Drifts(b, c, f);
  }

  /** A chain of compatible continuations is one compatible continuation. */
  lemma {:induction false} CompatibleChain(chain: seq<Evidence>)
    requires |chain| >= 2
    requires forall i :: 0 <= i < |chain| - 1 ==> Assess(Some(chain[i]), chain[i + 1], Compatible).allowed
    ensures Assess(Some(chain[0]), chain[|chain| - 1], Compatible).allowed
  {
    var n := |chain| - 1;
    assert Assess(Some(chain[n - 1]), chain[n - 1 + 1], Compatible).allowed;
    if n > 1 {
      var front := chain[..n];
      assert forall i :: 0 <= i < |front| ==> front[i] == chain[i];
      CompatibleChain(front);
      CompatibleStep(chain[0], chain[n - 1], chain[n]);
    }
  }

  ghost predicate Verified(source: Option<Evidence>, digest: Digest) {
    source.Some? ==> source.value.FingerprintIsValid(digest)
  }

  /** A decision made for one source and target validates later exactly when it allowed the
      continuation and is presented with that very source and target again. */
  lemma DecisionIsBound(source: Option<Evidence>, t: Evidence, mode: Mode, source': Option<Evidence>, t': Evidence,
        digest: Digest)
    requires CollisionFree(digest)
    requires Verified(source, digest) && t.FingerprintIsValid(digest)
    requires Verified(source', digest) && t'.FingerprintIsValid(digest)
    ensures Validates(Assess(source, t, mode), source', t') <==>
      Assess(source, t, mode).allowed && source == source' && t == t'
  {
    if source.Some? && source'.Some? { FingerprintIdentifies(source.value, source'.value, digest); }
    FingerprintIdentifies(t, t', digest);
  }

  // ---------------------------------------------------------------- records and reports, spelled out

  /** An entry of the report, if there is something to report. */
  function Entry(drifts: bool, d: Drift): seq<Drift> { if drifts then [d] else [] }

  lemma DriftSteps(s: Evidence, t: Evidence, done: seq<FieldName>, f: FieldName)
    ensures DriftOver(s, t, done + [f]) ==
      DriftOver(s, t, done) + Entry(Drifts(s, t, f), Drift(f, FieldOf(s, f), FieldOf(t, f)))
  {
    assert (done + [f])[..|done|] == done;
  }

  lemma FirstFields(s: Evidence, t: Evidence)
    ensures DriftOver(s, t, [SpecField, ModelField]) ==
      Entry(s.spec != t.spec, Drift(SpecField, Text(s.spec), Text(t.spec)))
      + Entry(s.model != t.model, Drift(ModelField, Text(s.model), Text(t.model)))
  {
    DriftSteps(s, t, [], SpecField);
    DriftSteps(s, t, [SpecField], ModelField);
    assert [] + [SpecField] == [SpecField] && [SpecField] + [ModelField] == [SpecField, ModelField];
  }

  /** The report, entry by entry: each differing field with the source's value and then the target's, in
      the order of the record; the host bindings of a version 1 source always; and the one entry for
      missing evidence. */
  lemma ReportIsSpelledOut(s: Evidence, t: Evidence, mode: Mode)
    ensures
      var d := Assess(Some(s), t, mode);
      && d.mode == mode && d.source == Some(s.fingerprint) && d.target == t.fingerprint
      && d.drift ==
           Entry(s.spec != t.spec, Drift(SpecField, Text(s.spec), Text(t.spec)))
           + Entry(s.model != t.model, Drift(ModelField, Text(s.model), Text(t.model)))
           + Entry(s.toolsets != t.toolsets, Drift(ToolsetsField, Texts(s.toolsets), Texts(t.toolsets)))
           + Entry(s.policy != t.policy, Drift(PolicyField, Text(s.policy), Text(t.policy)))
           + Entry(s.environment != t.environment, Drift(EnvironmentField, Text(s.environment), Text(t.environment)))
           + Entry(s.runtime != t.runtime || s.version == 1, Drift(RuntimeField, Text(s.runtime), Text(t.runtime)))
           + Entry(s.workspace != t.workspace || s.version == 1,
                   Drift(WorkspaceField, Text(s.workspace), Text(t.workspace)))
    ensures Assess(None, t, mode) ==
      Decision(mode, None, t.fingerprint, [Drift(SourceEvidence, Missing, Text("verified"))], mode == Switch)
  {
    FirstFields(s, t);
    var two := [SpecField, ModelField];
    DriftSteps(s, t, two, ToolsetsField);
    DriftSteps(s, t, two + [ToolsetsField], PolicyField);
    var four := two + [ToolsetsField] + [PolicyField];
    DriftSteps(s, t, four, EnvironmentField);
    DriftSteps(s, t, four + [EnvironmentField], RuntimeField);
    DriftSteps(s, t, four + [EnvironmentField] + [RuntimeField], WorkspaceField);
    assert four + [EnvironmentField] + [RuntimeField] + [WorkspaceField] == FIELDS;
  }

  /** A new record: the given identities, sorted toolsets, no host bindings, the current version, and the
      digest of just that. */
  lemma NewRecord(spec: string, model: string, toolsets: seq<string>, policy: string, environment: string,
        digest: Digest)
    ensures
      var e := New(spec, model, toolsets, policy, environment, digest);
      && e.version == 2 && e.spec == spec && e.model == model && e.policy == policy && e.environment == environment
      && e.runtime == "sha256:unbound" && e.workspace == "sha256:unbound"
      && Sorted(e.toolsets) && Elements(e.toolsets) == Elements(toolsets)
      && e.fingerprint == digest(Full(2, spec, model, e.toolsets, policy, environment, e.runtime, e.workspace))
  {
  }

  /** Which metadata loads as what: nothing under the key is absent evidence; a value of the wrong shape
      for its version is malformed; a record whose fingerprint does not verify is invalid. */
  lemma LoadsExactly(metadata: Metadata, digest: Digest)
    ensures
      var loaded := FromMetadata(metadata, digest);
      && (loaded.Absent? <==> KEY !in metadata)
      && (KEY in metadata && metadata[KEY].LegacyRecord? && metadata[KEY].version == 1 ==>
            var r := metadata[KEY];
            if r.fingerprint == digest(Legacy(1, r.spec, r.model, r.toolsets, r.policy, r.environment))
            then loaded == Found(Evidence(1, r.spec, r.model, r.toolsets, r.policy, r.environment,
                                          "sha256:unbound", "sha256:unbound", r.fingerprint))
            else loaded == InvalidFingerprint)
      && (KEY in metadata && metadata[KEY].FullRecord? && metadata[KEY].evidence.version != 1 ==>
            loaded == if metadata[KEY].evidence.FingerprintIsValid(digest)
                      then Found(metadata[KEY].evidence) else InvalidFingerprint)
      && (loaded.Malformed? <==>
            && KEY in metadata
            && (match metadata[KEY]
                case LegacyRecord(version, _, _, _, _, _, _) => version != 1
                case FullRecord(e) => e.version == 1
                case OtherValue(_) => true))
  {
  }
}
