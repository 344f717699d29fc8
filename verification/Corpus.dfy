/** Corpus manifests, the paired plans they expand to, and exact coverage of those plans. */
module Corpus {
  import opened Common
  import opened Bench

  datatype Modality = Text | Image | AudioClip | DocumentFile

  datatype Risk = Low | Medium | High

  datatype Artifact = Artifact(locator: string, mediaType: string, sha256: string)

  datatype Verifier = Verifier(id: string, revision: string, sha256: string)

  datatype Provenance = Provenance(dataset: string, revision: string, license: string)

  datatype Scenario = Scenario(
    id: string,
    family: Family,
    modality: Modality,
    risk: Risk,
    input: Artifact,
    verifier: Verifier,
    provenance: Provenance)

  datatype Manifest = Manifest(
    schemaVersion: nat,
    suite: string,
    suiteRevision: string,
    candidate: Profile,
    primaryModel: string,
    auxiliaryModels: seq<Binding>,
    repetitions: U32,
    scenarios: seq<Scenario>)

  datatype CorpusError =
    | UnsupportedSchema | IncompleteManifest | InvalidScenario | UnsortedOrDuplicateScenario
    | InvalidResult | UnexpectedResult | IncompletePairCoverage | InvalidAuxiliaryModels | InvalidPairedPlan

  // ---------------------------------------------------------------------------
  // Manifest validation
  // ---------------------------------------------------------------------------

  function AllowedRoles(profile: Profile): set<Role> {
    match profile
    case PrimaryOnly => {}
    case FastSlow => {FastDraft, Deliberation}
    case PrimaryCritic => {Critic}
    case PerceptionSpecialist => {Vision, Audio, Document}
  }

  function Rank(role: Role): nat {
    match role
    case Primary => 0
    case FastDraft => 1
    case Deliberation => 2
    case Critic => 3
    case Vision => 4
    case Audio => 5
    case Document => 6
  }

  predicate BindingOk(profile: Profile, bindings: seq<Binding>, i: nat)
    requires i < |bindings|
  {
    && !Blank(bindings[i].model)
    && bindings[i].role in AllowedRoles(profile)
    && (i > 0 ==> Rank(bindings[i - 1].role) < Rank(bindings[i].role))
  }

  predicate AuxiliaryOk(profile: Profile, bindings: seq<Binding>) {
    profile != PrimaryOnly && forall i :: 0 <= i < |bindings| ==> BindingOk(profile, bindings, i)
  }

  /** `validate_auxiliary_models`. */
  method ValidateAuxiliaryModels(profile: Profile, bindings: seq<Binding>) returns (ok: bool)
    ensures ok == AuxiliaryOk(profile, bindings)
  {
    if profile == PrimaryOnly {
      return false;
    }
    hide Blank;
    var allowed := AllowedRoles(profile);
    var prior: Option<nat> := None;
    for i := 0 to |bindings|
      invariant prior == if i == 0 then None else Some(Rank(bindings[i - 1].role))
      invariant forall j :: 0 <= j < i ==> BindingOk(profile, bindings, j)
    {
      var rank := Rank(bindings[i].role);
      if Blank(bindings[i].model) || bindings[i].role !in allowed || (prior.Some? && prior.value >= rank) {
        assert !BindingOk(profile, bindings, i);
        return false;
      }
      prior := Some(rank);
    }
    ok := true;
  }

  function RoleList(bindings: seq<Binding>): (roles: seq<Role>)
    ensures |roles| == |bindings| && forall i :: 0 <= i < |roles| ==> roles[i] == bindings[i].role
  {
    if bindings == [] then [] else RoleList(bindings[..|bindings| - 1]) + [bindings[|bindings| - 1].role]
  }

  /** The lists of auxiliary roles a profile may name, written out. */
  function RoleLists(profile: Profile): set<seq<Role>> {
    match profile
    case PrimaryOnly => {}
    case FastSlow => {[], [FastDraft], [Deliberation], [FastDraft, Deliberation]}
    case PrimaryCritic => {[], [Critic]}
    case PerceptionSpecialist =>
      {[], [Vision], [Audio], [Document], [Vision, Audio], [Vision, Document], [Audio, Document],
       [Vision, Audio, Document]}
  }

  ghost predicate Named(bindings: seq<Binding>) {
    forall i :: 0 <= i < |bindings| ==> !Blank(bindings[i].model)
  }

  lemma {:induction false} RanksGrow(profile: Profile, bindings: seq<Binding>, i: nat)
    requires AuxiliaryOk(profile, bindings) && i < |bindings|
    ensures Rank(bindings[i].role) >= Rank(bindings[0].role) + i
  {
    hide Blank, Rank;
    if i > 0 {
      assert BindingOk(profile, bindings, i);
      RanksGrow(profile, bindings, i - 1);
    }
  }

  lemma AuxiliaryIsShort(profile: Profile, bindings: seq<Binding>)
    requires AuxiliaryOk(profile, bindings)
    ensures |bindings| <= 3
  {
    hide Blank;
    if bindings != [] {
      var last := |bindings| - 1;
      assert BindingOk(profile, bindings, 0) && BindingOk(profile, bindings, last);
      RanksGrow(profile, bindings, last);
    }
  }

  lemma AuxiliaryListed(profile: Profile, bindings: seq<Binding>)
    requires AuxiliaryOk(profile, bindings)
    ensures Named(bindings) && RoleList(bindings) in RoleLists(profile)
  {
    hide Blank, RoleList;
    AuxiliaryIsShort(profile, bindings);
    var roles, n := RoleList(bindings), |bindings|;
    forall i | 0 <= i < n ensures BindingOk(profile, bindings, i) && !Blank(bindings[i].model) {
    }
    if n > 0 { assert BindingOk(profile, bindings, 0); }
    if n > 1 { assert BindingOk(profile, bindings, 1); }
    if n > 2 { assert BindingOk(profile, bindings, 2); }
    assert n == 0 ==> roles == [];
    assert n == 1 ==> roles == [roles[0]];
    assert n == 2 ==> roles == [roles[0], roles[1]];
    assert n == 3 ==> roles == [roles[0], roles[1], roles[2]];
  }

  lemma ListedAuxiliary(profile: Profile, bindings: seq<Binding>)
    requires Named(bindings) && RoleList(bindings) in RoleLists(profile)
    ensures AuxiliaryOk(profile, bindings)
  {
    hide Blank, RoleList;
    var roles := RoleList(bindings);
    assert |roles| <= 3 && profile != PrimaryOnly;
    forall i | 0 <= i < |bindings| ensures BindingOk(profile, bindings, i) {
      assert roles[i] == bindings[i].role;
      if i > 0 { assert roles[i - 1] == bindings[i - 1].role; }
    }
  }

  /** Auxiliary models pass exactly when all are named and their roles are one of the written-out lists. */
  lemma AuxiliaryIff(profile: Profile, bindings: seq<Binding>)
    ensures AuxiliaryOk(profile, bindings) <==> Named(bindings) && RoleList(bindings) in RoleLists(profile)
  {
    hide AuxiliaryOk, Named, RoleLists, RoleList;
    if AuxiliaryOk(profile, bindings) { AuxiliaryListed(profile, bindings); }
    if Named(bindings) && RoleList(bindings) in RoleLists(profile) { ListedAuxiliary(profile, bindings); }
  }

  predicate ValidSha256(s: string) {
    |s| == 64 && forall i :: 0 <= i < |s| ==> '0' <= s[i] <= '9' || 'a' <= s[i] <= 'f'
  }

  function RequiredRole(m: Modality): Option<Role> {
    match m
    case Text => None
    case Image => Some(Vision)
    case AudioClip => Some(Audio)
    case DocumentFile => Some(Document)
  }

  /** `validate_scenario`. */
  predicate ScenarioOk(s: Scenario, candidate: Profile, auxiliary: seq<Binding>) {
    && !Blank(s.id)
    && !Blank(s.input.locator) && !Blank(s.input.mediaType)
    && !Blank(s.verifier.id) && !Blank(s.verifier.revision)
    && !Blank(s.provenance.dataset) && !Blank(s.provenance.revision) && !Blank(s.provenance.license)
    && ValidSha256(s.input.sha256) && ValidSha256(s.verifier.sha256)
    && (s.family == CognitiveRouting || s.family == MultimodalPerception)
    && (candidate == PerceptionSpecialist <==> s.modality != Text)
    && (s.family == MultimodalPerception ==> s.modality != Text)
    && (RequiredRole(s.modality).Some? ==> RequiredRole(s.modality).value in Roles(auxiliary))
  }

  /** Rust's order on strings: by character, a proper prefix first. */
  predicate StrLess(a: string, b: string) {
    b != [] && (a == [] || a[0] < b[0] || (a[0] == b[0] && StrLess(a[1..], b[1..])))
  }

  lemma {:induction false} StrLessTransitive(a: string, b: string, c: string)
    requires StrLess(a, b) && StrLess(b, c)
    ensures StrLess(a, c) && a != c
  {
    if a == [] {
    } else {
      if a[0] == b[0] && b[0] == c[0] {
        StrLessTransitive(a[1..], b[1..], c[1..]);
      }
      if a == c {
        StrLessAsymmetric(a, b);
      }
    }
  }

  lemma {:induction false} StrLessAsymmetric(a: string, b: string)
    requires StrLess(a, b)
    ensures !StrLess(b, a) && a != b
  {
    if a != [] && a[0] == b[0] {
      StrLessAsymmetric(a[1..], b[1..]);
    }
  }

  /** The first problem among the first `n` scenarios. */
  function ScenariosError(m: Manifest, n: nat): Option<CorpusError>
    requires n <= |m.scenarios|
  {
    if n == 0 then None
    else if ScenariosError(m, n - 1).Some? then ScenariosError(m, n - 1)
    else if !ScenarioOk(m.scenarios[n - 1], m.candidate, m.auxiliaryModels) then Some(InvalidScenario)
    else if n > 1 && !StrLess(m.scenarios[n - 2].id, m.scenarios[n - 1].id) then Some(UnsortedOrDuplicateScenario)
    else None
  }

  predicate Incomplete(m: Manifest) {
    || Blank(m.suite) || Blank(m.suiteRevision) || m.repetitions == 0 || m.scenarios == []
    || m.candidate == PrimaryOnly || Blank(m.primaryModel) || m.auxiliaryModels == []
  }

  /** `CorpusManifest::validate`; `None` is success. */
  function ManifestError(m: Manifest): Option<CorpusError> {
    if m.schemaVersion != 1 then Some(UnsupportedSchema)
    else if Incomplete(m) then Some(IncompleteManifest)
    else if !AuxiliaryOk(m.candidate, m.auxiliaryModels) then Some(InvalidAuxiliaryModels)
    else ScenariosError(m, |m.scenarios|)
  }

  lemma {:induction false} ScenariosStayFailed(m: Manifest, n: nat, k: nat)
    requires n <= k <= |m.scenarios| && ScenariosError(m, n).Some?
    ensures ScenariosError(m, k) == ScenariosError(m, n)
    decreases k
  {
    hide ScenarioOk, StrLess;
    if n < k { ScenariosStayFailed(m, n, k - 1); }
  }

  method ValidateManifest(m: Manifest) returns (r: Option<CorpusError>)
    ensures r == ManifestError(m)
  {
    if m.schemaVersion != 1 {
      return Some(UnsupportedSchema);
    }
    if Incomplete(m) {
      return Some(IncompleteManifest);
    }
    hide Blank, ScenarioOk, StrLess, AuxiliaryOk, Incomplete;
    var ok := ValidateAuxiliaryModels(m.candidate, m.auxiliaryModels);
    if !ok {
      return Some(InvalidAuxiliaryModels);
    }
    var prior: Option<string> := None;
    for i := 0 to |m.scenarios|
      invariant prior == if i == 0 then None else Some(m.scenarios[i - 1].id)
      invariant ScenariosError(m, i).None?
    {
      var scenario := m.scenarios[i];
      if !ScenarioOk(scenario, m.candidate, m.auxiliaryModels) {
        ScenariosStayFailed(m, i + 1, |m.scenarios|);
        return Some(InvalidScenario);
      }
      if prior.Some? && !StrLess(prior.value, scenario.id) {
        ScenariosStayFailed(m, i + 1, |m.scenarios|);
        return Some(UnsortedOrDuplicateScenario);
      }
      prior := Some(scenario.id);
    }
    r := None;
  }

  /** Scenario identifiers of a manifest that passes are strictly increasing, hence distinct. */
  lemma {:induction false} ScenarioIdsIncrease(m: Manifest, i: nat, j: nat, n: nat)
    requires i < j < n <= |m.scenarios| && ScenariosError(m, n).None?
    ensures StrLess(m.scenarios[i].id, m.scenarios[j].id) && m.scenarios[i].id != m.scenarios[j].id
    decreases n, j
  {
    hide ScenarioOk, StrLess;
    if n > j + 1 {
      ScenarioIdsIncrease(m, i, j, n - 1);
    } else {
      assert StrLess(m.scenarios[j - 1].id, m.scenarios[j].id);
      if i < j - 1 {
        ScenarioIdsIncrease(m, i, j - 1, n - 1);
        StrLessTransitive(m.scenarios[i].id, m.scenarios[j - 1].id, m.scenarios[j].id);
      } else {
        StrLessAsymmetric(m.scenarios[i].id, m.scenarios[j].id);
      }
    }
  }

  lemma {:induction false} ScenariosAreOk(m: Manifest, n: nat, i: nat)
    requires i < n <= |m.scenarios| && ScenariosError(m, n).None?
    ensures ScenarioOk(m.scenarios[i], m.candidate, m.auxiliaryModels)
  {
    hide ScenarioOk, StrLess;
    if i < n - 1 { ScenariosAreOk(m, n - 1, i); }
  }

  /** The scenarios of a manifest pass exactly when each is valid and their identifiers strictly increase. */
  lemma ScenariosPassIff(m: Manifest)
    ensures ScenariosError(m, |m.scenarios|).None? <==>
            && (forall i :: 0 <= i < |m.scenarios| ==> ScenarioOk(m.scenarios[i], m.candidate, m.auxiliaryModels))
            && (forall i, j :: 0 <= i < j < |m.scenarios| ==> StrLess(m.scenarios[i].id, m.scenarios[j].id))
  {
    hide ScenarioOk, StrLess, ScenariosError;
    var n := |m.scenarios|;
    if ScenariosError(m, n).None? {
      forall i | 0 <= i < n ensures ScenarioOk(m.scenarios[i], m.candidate, m.auxiliaryModels) {
        ScenariosAreOk(m, n, i);
      }
      forall i, j | 0 <= i < j < n ensures StrLess(m.scenarios[i].id, m.scenarios[j].id) {
        ScenarioIdsIncrease(m, i, j, n);
      }
    } else {
      ScenarioAtFault(m, n);
    }
  }

  lemma {:induction false} ScenarioAtFault(m: Manifest, n: nat)
    requires n <= |m.scenarios| && ScenariosError(m, n).Some?
    ensures (exists i :: 0 <= i < n && !ScenarioOk(m.scenarios[i], m.candidate, m.auxiliaryModels))
            || exists i, j :: 0 <= i < j < n && !StrLess(m.scenarios[i].id, m.scenarios[j].id)
  {
    hide ScenarioOk, StrLess;
    if ScenariosError(m, n - 1).Some? {
      ScenarioAtFault(m, n - 1);
    }
  }

  /** A manifest passes exactly when nothing is missing, its roles fit, and its scenarios are valid and sorted. */
  lemma ManifestPassesIff(m: Manifest)
    ensures ManifestError(m).None? <==>
            && m.schemaVersion == 1 && !Blank(m.suite) && !Blank(m.suiteRevision) && !Blank(m.primaryModel)
            && m.repetitions > 0 && m.scenarios != [] && m.candidate != PrimaryOnly && m.auxiliaryModels != []
            && AuxiliaryOk(m.candidate, m.auxiliaryModels)
            && (forall i :: 0 <= i < |m.scenarios| ==> ScenarioOk(m.scenarios[i], m.candidate, m.auxiliaryModels))
            && (forall i, j :: 0 <= i < j < |m.scenarios| ==> StrLess(m.scenarios[i].id, m.scenarios[j].id))
  {
    hide ScenarioOk, StrLess, ScenariosError, AuxiliaryOk, Blank;
    ScenariosPassIff(m);
  }

  /** In a manifest that passes, what is perceived fits who perceives it, and everything is pinned by digest. */
  lemma ScenariosFit(m: Manifest, i: nat)
    requires ManifestError(m).None? && i < |m.scenarios|
    ensures var s := m.scenarios[i];
            && (s.modality == Text <==> m.candidate != PerceptionSpecialist)
            && (s.modality == Image ==> Binds(m.auxiliaryModels, Vision))
            && (s.modality == AudioClip ==> Binds(m.auxiliaryModels, Audio))
            && (s.modality == DocumentFile ==> Binds(m.auxiliaryModels, Document))
            && s.family in {CognitiveRouting, MultimodalPerception}
            && (s.family == MultimodalPerception ==> m.candidate == PerceptionSpecialist)
            && |s.input.sha256| == |s.verifier.sha256| == 64
            && !Blank(s.id) && !Blank(s.input.locator) && !Blank(s.input.mediaType) && !Blank(s.verifier.id)
            && !Blank(s.verifier.revision) && !Blank(s.provenance.dataset) && !Blank(s.provenance.revision)
            && !Blank(s.provenance.license)
  {
    hide ScenariosError, AuxiliaryOk, Blank;
    ScenariosAreOk(m, |m.scenarios|, i);
  }

  // ---------------------------------------------------------------------------
  // Paired plans
  // ---------------------------------------------------------------------------

  function CoordinateFor(m: Manifest, s: Scenario, run: U32, cognition: Profile, models: seq<Binding>): Coordinate {
    Coordinate(m.suite, m.suiteRevision, s.id, s.family, SingleAgent, ReadOnlyShared, NoFailure, cognition, models, run)
  }

  /** The first `n` repetitions of one scenario. */
  function RunsOf(m: Manifest, s: Scenario, n: nat, cognition: Profile, models: seq<Binding>): (cs: seq<Coordinate>)
    requires n <= U32_MAX
    ensures |cs| == n
  {
    if n == 0 then [] else RunsOf(m, s, n - 1, cognition, models) + [CoordinateFor(m, s, n, cognition, models)]
  }

  /** All repetitions of the first `k` scenarios. */
  function PlanOf(m: Manifest, k: nat, cognition: Profile, models: seq<Binding>): (cs: seq<Coordinate>)
    requires k <= |m.scenarios|
    ensures |cs| == k * m.repetitions
  {
    if k == 0 then []
    else PlanOf(m, k - 1, cognition, models) + RunsOf(m, m.scenarios[k - 1], m.repetitions, cognition, models)
  }

  function BaselineModels(m: Manifest): seq<Binding> {
    [Binding(Primary, m.primaryModel)]
  }

  function CandidateModels(m: Manifest): seq<Binding> {
    [Binding(Primary, m.primaryModel)] + m.auxiliaryModels
  }

  function BaselinePlan(m: Manifest): seq<Coordinate> {
    PlanOf(m, |m.scenarios|, PrimaryOnly, BaselineModels(m))
  }

  function CandidatePlan(m: Manifest): seq<Coordinate> {
    PlanOf(m, |m.scenarios|, m.candidate, CandidateModels(m))
  }

  /** `CorpusManifest::paired_plans`. */
  function PairedPlans(m: Manifest): Result<(seq<Coordinate>, seq<Coordinate>), CorpusError> {
    if ManifestError(m).Some? then Err(ManifestError(m).value)
    else if PlanError(PLAN_SCHEMA, BaselinePlan(m)).Some? then Err(InvalidPairedPlan)
    else if PlanError(PLAN_SCHEMA, CandidatePlan(m)).Some? then Err(InvalidPairedPlan)
    else Ok((BaselinePlan(m), CandidatePlan(m)))
  }

  /** The expansion loops of `paired_plans`. */
  method ExpandPlans(m: Manifest) returns (baseline: seq<Coordinate>, candidate: seq<Coordinate>)
    ensures baseline == BaselinePlan(m) && candidate == CandidatePlan(m)
  {
    baseline, candidate := [], [];
    for k := 0 to |m.scenarios|
      invariant baseline == PlanOf(m, k, PrimaryOnly, BaselineModels(m))
      invariant candidate == PlanOf(m, k, m.candidate, CandidateModels(m))
    {
      var s := m.scenarios[k];
      var b, c := baseline, candidate;
      for run := 1 to m.repetitions + 1
        invariant baseline == b + RunsOf(m, s, run - 1, PrimaryOnly, BaselineModels(m))
        invariant candidate == c + RunsOf(m, s, run - 1, m.candidate, CandidateModels(m))
      {
        baseline := baseline + [CoordinateFor(m, s, run, PrimaryOnly, BaselineModels(m))];
        candidate := candidate + [CoordinateFor(m, s, run, m.candidate, CandidateModels(m))];
      }
    }
  }

  method MakePairedPlans(m: Manifest) returns (r: Result<(seq<Coordinate>, seq<Coordinate>), CorpusError>)
    ensures r == PairedPlans(m)
  {
    hide ManifestError, PlanError;
    var invalid := ValidateManifest(m);
    if invalid.Some? {
      return Err(invalid.value);
    }
    var baseline, candidate := ExpandPlans(m);
    var b := ValidatePlan(PLAN_SCHEMA, baseline);
    if b.Some? {
      return Err(InvalidPairedPlan);
    }
    var c := ValidatePlan(PLAN_SCHEMA, candidate);
    if c.Some? {
      return Err(InvalidPairedPlan);
    }
    r := Ok((baseline, candidate));
  }

  /** A coordinate of one repetition of one of the first `k` scenarios. */
  ghost predicate Planned(m: Manifest, k: nat, cognition: Profile, models: seq<Binding>, c: Coordinate, i: nat,
                          run: U32)
  {
    && i < k <= |m.scenarios|
    && 1 <= run <= m.repetitions
    && c == CoordinateFor(m, m.scenarios[i], run, cognition, models)
  }

  lemma {:induction false} InRuns(m: Manifest, s: Scenario, n: nat, cognition: Profile, models: seq<Binding>,
                                  c: Coordinate)
    requires n <= U32_MAX
    ensures c in RunsOf(m, s, n, cognition, models) <==>
            1 <= c.runOrdinal <= n && c == CoordinateFor(m, s, c.runOrdinal, cognition, models)
  {
    hide CoordinateFor;
    if n > 0 { InRuns(m, s, n - 1, cognition, models, c); }
    CoordinateForRun(m, s, n, cognition, models);
  }

  lemma CoordinateForRun(m: Manifest, s: Scenario, run: U32, cognition: Profile, models: seq<Binding>)
    ensures CoordinateFor(m, s, run, cognition, models).runOrdinal == run
    ensures CoordinateFor(m, s, run, cognition, models).scenarioId == s.id
  {
  }

  /** A plan holds exactly the repetitions of its scenarios. */
  lemma {:induction false} InPlan(m: Manifest, k: nat, cognition: Profile, models: seq<Binding>, c: Coordinate)
    requires k <= |m.scenarios|
    ensures c in PlanOf(m, k, cognition, models) <==>
            exists i: nat :: Planned(m, k, cognition, models, c, i, c.runOrdinal)
  {
    hide CoordinateFor, RunsOf;
    if k > 0 {
      var j := k - 1;
      InPlan(m, j, cognition, models, c);
      InRuns(m, m.scenarios[j], m.repetitions, cognition, models, c);
      if i: nat :| Planned(m, j, cognition, models, c, i, c.runOrdinal) {
        assert Planned(m, k, cognition, models, c, i, c.runOrdinal);
      }
      if c in RunsOf(m, m.scenarios[j], m.repetitions, cognition, models) {
        assert Planned(m, k, cognition, models, c, j, c.runOrdinal);
      }
      if i: nat :| Planned(m, k, cognition, models, c, i, c.runOrdinal) {
        if i < j {
          assert Planned(m, j, cognition, models, c, i, c.runOrdinal);
        }
      }
    }
  }

  /** What stands in a plan, field by field: the manifest's suite, one scenario, one repetition, one arm. */
  lemma InPlanIff(m: Manifest, cognition: Profile, models: seq<Binding>, c: Coordinate)
    ensures c in PlanOf(m, |m.scenarios|, cognition, models) <==>
            && c.suite == m.suite && c.suiteRevision == m.suiteRevision
            && c.topology == SingleAgent && c.workspace == ReadOnlyShared && c.failurePoint == NoFailure
            && c.cognition == cognition && c.models == models && 1 <= c.runOrdinal <= m.repetitions
            && exists i ::
                 0 <= i < |m.scenarios| && c.scenarioId == m.scenarios[i].id && c.family == m.scenarios[i].family
  {
    hide PlanOf;
    var n := |m.scenarios|;
    InPlan(m, n, cognition, models, c);
    if i: nat :| i < n && c == CoordinateFor(m, m.scenarios[i], c.runOrdinal, cognition, models) {
      assert 1 <= c.runOrdinal <= m.repetitions ==> Planned(m, n, cognition, models, c, i, c.runOrdinal);
    }
    forall i: nat | i < n && c.scenarioId == m.scenarios[i].id && c.family == m.scenarios[i].family
      ensures (c.suite == m.suite && c.suiteRevision == m.suiteRevision && c.topology == SingleAgent &&
               c.workspace == ReadOnlyShared && c.failurePoint == NoFailure && c.cognition == cognition &&
               c.models == models) ==> c == CoordinateFor(m, m.scenarios[i], c.runOrdinal, cognition, models)
    {
    }
  }

  lemma {:induction false} RunsDistinct(m: Manifest, s: Scenario, n: nat, cognition: Profile, models: seq<Binding>)
    requires n <= U32_MAX
    ensures NoDuplicates(RunsOf(m, s, n, cognition, models))
  {
    if n > 0 {
      RunsDistinct(m, s, n - 1, cognition, models);
      InRuns(m, s, n - 1, cognition, models, CoordinateFor(m, s, n, cognition, models));
    }
  }

  lemma AppendDistinct<T>(a: seq<T>, b: seq<T>)
    requires NoDuplicates(a) && NoDuplicates(b)
    requires forall x :: x in a ==> x !in b
    ensures NoDuplicates(a + b)
  {
    forall i, j | 0 <= i < j < |a + b| ensures (a + b)[i] != (a + b)[j] {
      if i < |a| && |a| <= j {
        assert (a + b)[i] in a && (a + b)[j] in b;
      }
    }
  }

  lemma {:induction false} PlanDistinct(m: Manifest, k: nat, cognition: Profile, models: seq<Binding>)
    requires k <= |m.scenarios| && ScenariosError(m, |m.scenarios|).None?
    ensures NoDuplicates(PlanOf(m, k, cognition, models))
  {
    hide RunsOf, ScenariosError, NoDuplicates;
    if k == 0 {
      EmptyDistinct<Coordinate>();
    } else {
      var before := PlanOf(m, k - 1, cognition, models);
      var runs := RunsOf(m, m.scenarios[k - 1], m.repetitions, cognition, models);
      PlanDistinct(m, k - 1, cognition, models);
      RunsDistinct(m, m.scenarios[k - 1], m.repetitions, cognition, models);
      forall c | c in before ensures c !in runs {
        InPlan(m, k - 1, cognition, models, c);
        InRuns(m, m.scenarios[k - 1], m.repetitions, cognition, models, c);
        var j := k - 1;
        var i: nat :| Planned(m, j, cognition, models, c, i, c.runOrdinal);
        ScenarioIdsIncrease(m, i, k - 1, |m.scenarios|);
      }
      AppendDistinct(before, runs);
    }
  }

  lemma EmptyDistinct<T>()
    ensures NoDuplicates<T>([])
  {
  }

  // ---------------------------------------------------------------------------
  // When the plans are valid
  // ---------------------------------------------------------------------------

  /** Auxiliary roles come in strictly increasing rank. */
  lemma {:induction false} AuxiliaryRanks(profile: Profile, bindings: seq<Binding>, i: nat, j: nat)
    requires AuxiliaryOk(profile, bindings) && i < j < |bindings|
    ensures Rank(bindings[i].role) < Rank(bindings[j].role)
    decreases j
  {
    hide Rank, Blank;
    assert BindingOk(profile, bindings, j);
    if i < j - 1 { AuxiliaryRanks(profile, bindings, i, j - 1); }
  }

  /** The one gap between manifest and plan validation: a specialist for documents only. */
  predicate DocumentOnly(m: Manifest) {
    m.candidate == PerceptionSpecialist && Roles(m.auxiliaryModels) == {Document}
  }

  lemma CandidateRoles(m: Manifest)
    requires AuxiliaryOk(m.candidate, m.auxiliaryModels)
    ensures Roles(CandidateModels(m)) == {Primary} + Roles(m.auxiliaryModels)
    ensures |Roles(CandidateModels(m))| == |CandidateModels(m)|
  {
    var models := CandidateModels(m);
    forall i, j | 0 <= i < j < |models| ensures models[i].role != models[j].role {
      assert BindingOk(m.candidate, m.auxiliaryModels, j - 1);
      if i > 0 { AuxiliaryRanks(m.candidate, m.auxiliaryModels, i - 1, j - 1); }
    }
    DistinctRolesCount(models);
    forall role ensures role in Roles(models) <==> role in {Primary} + Roles(m.auxiliaryModels) {
      assert models[0].role == Primary;
      if role in Roles(m.auxiliaryModels) {
        var i :| 0 <= i < |m.auxiliaryModels| && m.auxiliaryModels[i].role == role;
        assert models[i + 1].role == role;
      }
    }
  }

  /** The candidate profile accepts its models unless it only reads documents. */
  lemma CandidateAccepts(m: Manifest)
    requires AuxiliaryOk(m.candidate, m.auxiliaryModels) && m.auxiliaryModels != []
    ensures AcceptsRoles(m.candidate, Roles(CandidateModels(m))) <==> !DocumentOnly(m)
  {
    var aux := Roles(m.auxiliaryModels);
    forall role | role in aux ensures role in AllowedRoles(m.candidate) {
      var i :| 0 <= i < |m.auxiliaryModels| && m.auxiliaryModels[i].role == role;
      assert BindingOk(m.candidate, m.auxiliaryModels, i);
    }
    var first := m.auxiliaryModels[0].role;
    assert first in aux;
    CandidateRoles(m);
    var roles := Roles(CandidateModels(m));
    assert Primary !in aux && |roles| == 1 + |aux|;
    assert |aux| >= 1 by { assert aux != {}; }
    match m.candidate {
      case PrimaryCritic => assert aux == {Critic};
      case PerceptionSpecialist => assert Vision !in aux && Audio !in aux ==> aux == {Document};
      case _ =>
    }
  }

  /** Coordinates a manifest expands to are valid exactly when their models fit the profile. */
  lemma PlannedCoordinateValid(m: Manifest, i: nat, run: U32, cognition: Profile, models: seq<Binding>)
    requires ManifestError(m).None? && i < |m.scenarios| && 1 <= run
    requires models != [] && models[0].role == Primary && |Roles(models)| == |models|
    requires forall k :: 0 <= k < |models| ==> !Blank(models[k].model)
    ensures CoordinateError(CoordinateFor(m, m.scenarios[i], run, cognition, models)).None? <==>
            AcceptsRoles(cognition, Roles(models))
  {
    hide ScenariosError, AuxiliaryOk, AcceptsRoles, Blank, ValidSha256;
    ScenariosAreOk(m, |m.scenarios|, i);
  }

  /** All coordinates of a plan are valid exactly when its models fit the profile. */
  lemma PlanValidIff(m: Manifest, cognition: Profile, models: seq<Binding>)
    requires ManifestError(m).None?
    requires models != [] && models[0].role == Primary && |Roles(models)| == |models|
    requires forall k :: 0 <= k < |models| ==> !Blank(models[k].model)
    ensures PlanError(PLAN_SCHEMA, PlanOf(m, |m.scenarios|, cognition, models)).None? <==>
            AcceptsRoles(cognition, Roles(models))
  {
    hide CoordinateError, AcceptsRoles, Blank, CoordinateFor, ScenariosError, AuxiliaryOk, CoordinatesError, PlanOf;
    var n := |m.scenarios|;
    var plan := PlanOf(m, n, cognition, models);
    PlanNonEmpty(m, cognition, models);
    PlanPassesIff(PLAN_SCHEMA, plan);
    PlanDistinct(m, n, cognition, models);
    var first := CoordinateFor(m, m.scenarios[0], 1, cognition, models);
    CoordinateForRun(m, m.scenarios[0], 1, cognition, models);
    InPlan(m, n, cognition, models, first);
    assert Planned(m, n, cognition, models, first, 0, 1);
    PlannedCoordinateValid(m, 0, 1, cognition, models);
    forall k | 0 <= k < |plan|
      ensures CoordinateError(plan[k]).None? <==> AcceptsRoles(cognition, Roles(models))
    {
      InPlan(m, n, cognition, models, plan[k]);
      var i: nat :| Planned(m, n, cognition, models, plan[k], i, plan[k].runOrdinal);
      PlannedCoordinateValid(m, i, plan[k].runOrdinal, cognition, models);
    }
  }

  lemma PlanNonEmpty(m: Manifest, cognition: Profile, models: seq<Binding>)
    requires ManifestError(m).None?
    ensures PlanOf(m, |m.scenarios|, cognition, models) != []
    ensures m.repetitions > 0 && m.scenarios != [] && ScenariosError(m, |m.scenarios|).None?
    ensures AuxiliaryOk(m.candidate, m.auxiliaryModels) && m.auxiliaryModels != [] && m.candidate != PrimaryOnly
    ensures !Blank(m.primaryModel)
  {
    hide ScenariosError, AuxiliaryOk, Blank, PlanOf;
    Product(|m.scenarios|, m.repetitions);
  }

  lemma Product(a: nat, b: nat)
    requires 0 < a && 0 < b
    ensures 0 < a * b
  {
  }

  lemma CandidateModelsNamed(m: Manifest)
    requires AuxiliaryOk(m.candidate, m.auxiliaryModels) && !Blank(m.primaryModel)
    ensures forall k :: 0 <= k < |CandidateModels(m)| ==> !Blank(CandidateModels(m)[k].model)
  {
    hide Blank, Rank;
    forall k | 0 <= k < |CandidateModels(m)| ensures !Blank(CandidateModels(m)[k].model) {
      if k > 0 { assert BindingOk(m.candidate, m.auxiliaryModels, k - 1); }
    }
  }

  /**
    For every manifest that passes validation: `paired_plans` yields two plans without
    duplicates, each of scenarios times repetitions coordinates, except that it refuses
    exactly the perception specialists whose only auxiliary role is `Document`.
   */
  lemma PairedPlansFailIff(m: Manifest)
    requires ManifestError(m).None?
    ensures PairedPlans(m) == Err(InvalidPairedPlan) <==> DocumentOnly(m)
    ensures !DocumentOnly(m) ==> PairedPlans(m) == Ok((BaselinePlan(m), CandidatePlan(m)))
    ensures |BaselinePlan(m)| == |CandidatePlan(m)| == |m.scenarios| * m.repetitions
    ensures NoDuplicates(BaselinePlan(m)) && NoDuplicates(CandidatePlan(m))
  {
    hide PlanOf, PlanError, ScenariosError, AuxiliaryOk, Blank, DocumentOnly, NoDuplicates, AcceptsRoles, Roles,
         Incomplete, ManifestError;
    PlanNonEmpty(m, PrimaryOnly, BaselineModels(m));
    BaselineRoles(m);
    PlanValidIff(m, PrimaryOnly, BaselineModels(m));
    CandidateRoles(m);
    CandidateAccepts(m);
    CandidateModelsNamed(m);
    PlanValidIff(m, m.candidate, CandidateModels(m));
    PlanDistinct(m, |m.scenarios|, PrimaryOnly, BaselineModels(m));
    PlanDistinct(m, |m.scenarios|, m.candidate, CandidateModels(m));
  }

  lemma BaselineRoles(m: Manifest)
    ensures |Roles(BaselineModels(m))| == |BaselineModels(m)|
    ensures AcceptsRoles(PrimaryOnly, Roles(BaselineModels(m)))
  {
    assert BaselineModels(m)[0].role == Primary;
    assert Roles(BaselineModels(m)) == {Primary};
  }

  // ---------------------------------------------------------------------------
  // Exact coverage
  // ---------------------------------------------------------------------------

  /** `exact_coordinates`: the coordinates of valid results that do not repeat one. */
  function ExactCoordinates(results: seq<BenchResult>): Result<set<Coordinate>, CorpusError> {
    if results == [] then Ok({})
    else
      var before, last := ExactCoordinates(results[..|results| - 1]), results[|results| - 1];
      if before.Err? then before
      else if ResultError(last).Some? then Err(InvalidResult)
      else if last.coordinate in before.value then Err(UnexpectedResult)
      else Ok(before.value + {last.coordinate})
  }

  lemma {:induction false} ExactStaysFailed(results: seq<BenchResult>, n: nat)
    requires n <= |results| && ExactCoordinates(results[..n]).Err?
    ensures ExactCoordinates(results) == ExactCoordinates(results[..n])
    decreases |results|
  {
    if n < |results| {
      assert results[..|results| - 1][..n] == results[..n];
      ExactStaysFailed(results[..|results| - 1], n);
    } else {
      assert results[..n] == results;
    }
  }

  method CollectExactCoordinates(results: seq<BenchResult>) returns (r: Result<set<Coordinate>, CorpusError>)
    ensures r == ExactCoordinates(results)
  {
    hide ResultError;
    var coordinates: set<Coordinate> := {};
    for i := 0 to |results|
      invariant ExactCoordinates(results[..i]) == Ok(coordinates)
    {
      var next := results[..i + 1];
      assert next[..|next| - 1] == results[..i] && next[|next| - 1] == results[i];
      if ResultError(results[i]).Some? {
        ExactStaysFailed(results, i + 1);
        return Err(InvalidResult);
      }
      if results[i].coordinate in coordinates {
        ExactStaysFailed(results, i + 1);
        return Err(UnexpectedResult);
      }
      coordinates := coordinates + {results[i].coordinate};
    }
    assert results[..|results|] == results;
    r := Ok(coordinates);
  }

  function AsSet(cs: seq<Coordinate>): set<Coordinate> {
    set i | 0 <= i < |cs| :: cs[i]
  }

  /** `validate_pair_coverage`; `None` is success. */
  function CoverageError(m: Manifest, baseline: seq<BenchResult>, candidate: seq<BenchResult>): Option<CorpusError> {
    var plans := PairedPlans(m);
    if plans.Err? then Some(plans.error)
    else
      var b, c := ExactCoordinates(baseline), ExactCoordinates(candidate);
      if b.Err? then Some(b.error)
      else if c.Err? then Some(c.error)
      else if b.value != AsSet(plans.value.0) || c.value != AsSet(plans.value.1) then Some(IncompletePairCoverage)
      else None
  }

  method ValidatePairCoverage(m: Manifest, baseline: seq<BenchResult>, candidate: seq<BenchResult>)
    returns (r: Option<CorpusError>)
    ensures r == CoverageError(m, baseline, candidate)
  {
    hide PairedPlans, ExactCoordinates;
    var plans := MakePairedPlans(m);
    if plans.Err? {
      return Some(plans.error);
    }
    var b := CollectExactCoordinates(baseline);
    if b.Err? {
      return Some(b.error);
    }
    var c := CollectExactCoordinates(candidate);
    if c.Err? {
      return Some(c.error);
    }
    if b.value != AsSet(plans.value.0) || c.value != AsSet(plans.value.1) {
      return Some(IncompletePairCoverage);
    }
    r := None;
  }

  /** Every one of the results is valid and sits at a coordinate of its own, and `cs` are those coordinates. */
  ghost predicate Exactly(results: seq<BenchResult>, cs: set<Coordinate>) {
    && (forall i :: 0 <= i < |results| ==> ResultError(results[i]).None? && results[i].coordinate in cs)
    && (forall i, j :: 0 <= i < j < |results| ==> results[i].coordinate != results[j].coordinate)
    && (forall c :: c in cs ==> At(results, c))
    && |cs| == |results|
  }

  ghost predicate At(results: seq<BenchResult>, c: Coordinate) {
    exists i :: 0 <= i < |results| && results[i].coordinate == c
  }

  lemma ExactlyNothing()
    ensures Exactly([], {}) && EachAtItsOwn([])
  {
  }

  lemma ExactlySnoc(init: seq<BenchResult>, cs: set<Coordinate>, last: BenchResult)
    requires Exactly(init, cs) && ResultError(last).None? && last.coordinate !in cs
    ensures Exactly(init + [last], cs + {last.coordinate})
  {
    hide ResultError;
    var all := init + [last];
    forall c | c in cs + {last.coordinate} ensures At(all, c) {
      if c == last.coordinate {
        assert all[|init|].coordinate == c;
      } else {
        assert At(init, c);
        var i :| 0 <= i < |init| && init[i].coordinate == c;
        assert all[i].coordinate == c;
      }
    }
  }

  /** All results valid, no two at one coordinate. */
  ghost predicate EachAtItsOwn(results: seq<BenchResult>) {
    && (forall i :: 0 <= i < |results| ==> ResultError(results[i]).None?)
    && (forall i, j :: 0 <= i < j < |results| ==> results[i].coordinate != results[j].coordinate)
  }

  lemma EachAtItsOwnSnoc(init: seq<BenchResult>, cs: set<Coordinate>, last: BenchResult)
    requires Exactly(init, cs)
    ensures EachAtItsOwn(init + [last]) <==> ResultError(last).None? && last.coordinate !in cs
  {
    hide ResultError;
    var all := init + [last];
    assert all[|init|] == last && forall i :: 0 <= i < |init| ==> all[i] == init[i];
    if last.coordinate in cs {
      assert At(init, last.coordinate);
      var i :| 0 <= i < |init| && init[i].coordinate == last.coordinate;
      assert all[i].coordinate == all[|init|].coordinate;
    }
  }

  lemma EachAtItsOwnInit(results: seq<BenchResult>)
    requires EachAtItsOwn(results) && results != []
    ensures EachAtItsOwn(results[..|results| - 1])
  {
    hide ResultError;
  }

  /**
    Results are accepted exactly when all are valid and no two share a coordinate, and then
    the set returned holds their coordinates and no others.
   */
  lemma {:induction false} ExactCoordinatesIff(results: seq<BenchResult>)
    ensures ExactCoordinates(results).Ok? <==> EachAtItsOwn(results)
    ensures ExactCoordinates(results).Ok? ==> Exactly(results, ExactCoordinates(results).value)
  {
    hide Exactly, ResultError, EachAtItsOwn;
    if results == [] {
      ExactlyNothing();
    } else {
      var init, last := results[..|results| - 1], results[|results| - 1];
      assert results == init + [last];
      ExactCoordinatesIff(init);
      if EachAtItsOwn(results) {
        EachAtItsOwnInit(results);
      }
      if ExactCoordinates(init).Ok? {
        var cs := ExactCoordinates(init).value;
        EachAtItsOwnSnoc(init, cs, last);
        if ResultError(last).None? && last.coordinate !in cs {
          ExactlySnoc(init, cs, last);
        }
      }
    }
  }

  ghost predicate CoversExactly(results: seq<BenchResult>, plan: seq<Coordinate>) {
    && EachAtItsOwn(results)
    && (forall i :: 0 <= i < |results| ==> results[i].coordinate in plan)
    && (forall i :: 0 <= i < |plan| ==> At(results, plan[i]))
  }

  lemma CoversIff(results: seq<BenchResult>, plan: seq<Coordinate>)
    ensures (ExactCoordinates(results).Ok? && ExactCoordinates(results).value == AsSet(plan)) <==>
            CoversExactly(results, plan)
  {
    hide ResultError, ExactCoordinates;
    ExactCoordinatesIff(results);
    if ExactCoordinates(results).Ok? && CoversExactly(results, plan) {
      var cs := ExactCoordinates(results).value;
      forall c ensures c in cs <==> c in AsSet(plan) {
        if c in cs {
          assert At(results, c);
          var i :| 0 <= i < |results| && results[i].coordinate == c;
        }
        if c in AsSet(plan) {
          assert At(results, c);
          var i :| 0 <= i < |results| && results[i].coordinate == c;
        }
      }
      assert cs == AsSet(plan);
    }
    if ExactCoordinates(results).Ok? && ExactCoordinates(results).value == AsSet(plan) {
      forall i | 0 <= i < |plan| ensures At(results, plan[i]) {
        assert plan[i] in AsSet(plan);
      }
    }
  }

  /**
    Coverage passes exactly when the manifest is valid, is not documents only, and each arm
    has one valid result at every coordinate of its plan and none elsewhere.
   */
  lemma CoverageIff(m: Manifest, baseline: seq<BenchResult>, candidate: seq<BenchResult>)
    ensures CoverageError(m, baseline, candidate).None? <==>
            && ManifestError(m).None? && !DocumentOnly(m)
            && CoversExactly(baseline, BaselinePlan(m)) && CoversExactly(candidate, CandidatePlan(m))
  {
    hide ManifestError, PlanError, BaselinePlan, CandidatePlan, ExactCoordinates, CoversExactly, AsSet, DocumentOnly;
    if ManifestError(m).None? { PairedPlansFailIff(m); }
    CoversIff(baseline, BaselinePlan(m));
    CoversIff(candidate, CandidatePlan(m));
  }
}
