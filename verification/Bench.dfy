/** Benchmark coordinates, results and plans, with their validation. */
module Bench {
  import opened Common

  datatype Family =
    | CrashRecovery | MultiAgentCoordination | WorkspaceConcurrency
    | CognitiveRouting | MultimodalPerception | DoctorExperiment

  datatype FailurePoint =
    | NoFailure | TurnPrepared | ModelStarted | ModelCommitted | ToolStarted | ToolCommitted
    | PerceptionMediaPersisted | PerceptionInferenceStarted | PerceptionInferenceCompleted
    | PerceptionArtifactPersisted | CognitionPromptPersisted | CognitionInferenceStarted
    | CognitionInferenceCompleted | CognitionArtifactPersisted | ResultPersisted
    | MailboxDelivered | WorkflowTransitioned | WorkspaceMergeStarted

  datatype Topology = SingleAgent | ForkTree | PeerMesh | ModeratorSwarm

  datatype WorkspaceProfile = ReadOnlyShared | IsolatedWorktrees

  datatype Profile = PrimaryOnly | FastSlow | PrimaryCritic | PerceptionSpecialist

  datatype Role = Primary | FastDraft | Deliberation | Critic | Vision | Audio | Document

  datatype Binding = Binding(role: Role, model: string)

  datatype Coordinate = Coordinate(
    suite: string,
    suiteRevision: string,
    scenarioId: string,
    family: Family,
    topology: Topology,
    workspace: WorkspaceProfile,
    failurePoint: FailurePoint,
    cognition: Profile,
    models: seq<Binding>,
    runOrdinal: U32)

  datatype BenchError =
    | IncompleteCoordinate | InvalidModels | CognitionModelMismatch | InvalidCognitionMetrics
    | UnexpectedFailurePoint | InvalidReward | SpuriousRecovery | DuplicateCoordinate | InvalidPlan

  function Roles(models: seq<Binding>): set<Role> {
    set i | 0 <= i < |models| :: models[i].role
  }

  predicate AcceptsRoles(profile: Profile, roles: set<Role>) {
    match profile
    case PrimaryOnly => |roles| == 1 && Primary in roles
    case FastSlow =>
      |roles| >= 2 && roles <= {Primary, FastDraft, Deliberation} && (FastDraft in roles || Deliberation in roles)
    case PrimaryCritic => |roles| == 2 && Critic in roles
    case PerceptionSpecialist =>
      |roles| >= 2 && roles <= {Primary, Vision, Audio, Document} && (Vision in roles || Audio in roles)
  }

  /** `RuntimeBenchCoordinate::validate`; `None` is success. */
  function CoordinateError(c: Coordinate): Option<BenchError> {
    if Blank(c.suite) || Blank(c.suiteRevision) || Blank(c.scenarioId) || c.models == [] || c.runOrdinal == 0 then
      Some(IncompleteCoordinate)
    else if (exists i :: 0 <= i < |c.models| && Blank(c.models[i].model)) || |Roles(c.models)| != |c.models| then
      Some(InvalidModels)
    else if Primary !in Roles(c.models) || !AcceptsRoles(c.cognition, Roles(c.models)) then
      Some(CognitionModelMismatch)
    else if c.family != CrashRecovery && c.failurePoint != NoFailure then
      Some(UnexpectedFailurePoint)
    else
      None
  }

  /** A verifier reward: a floating-point number, finite or not. */
  datatype Reward = Finite(value: real) | NonFinite

  /** The fields of a result that validation and the gate read. */
  datatype BenchResult = BenchResult(
    coordinate: Coordinate,
    verifierReward: Option<Reward>,
    usefulCompletion: bool,
    invariantViolations: U32,
    duplicateEffects: U32,
    userVisibleFailures: U32,
    recovered: bool,
    durationMillis: U64,
    inputTokens: U64,
    outputTokens: U64,
    modelCalls: U32,
    primaryModelCalls: U32,
    auxiliaryModelCalls: U32,
    perceptionCalls: U32,
    doctorAutoApplied: U32)

  /** `RuntimeBenchResult::validate`. */
  function ResultError(r: BenchResult): Option<BenchError> {
    if CoordinateError(r.coordinate).Some? then CoordinateError(r.coordinate)
    else if r.verifierReward == Some(NonFinite) then Some(InvalidReward)
    else if r.recovered && r.coordinate.failurePoint == NoFailure then Some(SpuriousRecovery)
    else if || r.primaryModelCalls == 0
            || r.primaryModelCalls + r.auxiliaryModelCalls > U32_MAX
            || r.primaryModelCalls + r.auxiliaryModelCalls != r.modelCalls
            || (r.coordinate.cognition == PrimaryOnly && r.auxiliaryModelCalls != 0)
            || r.perceptionCalls > r.modelCalls
            || (r.coordinate.cognition == PerceptionSpecialist && r.perceptionCalls == 0)
    then Some(InvalidCognitionMetrics)
    else None
  }

  predicate RuntimeSafe(r: BenchResult) {
    && r.usefulCompletion
    && r.invariantViolations == 0
    && r.duplicateEffects == 0
    && r.userVisibleFailures == 0
    && r.doctorAutoApplied == 0
  }

  /** Safe means useful, with no incident of any kind. */
  lemma SafeIff(r: BenchResult)
    ensures RuntimeSafe(r) <==>
            && r.usefulCompletion
            && r.invariantViolations + r.duplicateEffects + r.userVisibleFailures + r.doctorAutoApplied == 0
  {
  }

  ghost predicate NoDuplicates<T>(s: seq<T>) {
    forall i, j :: 0 <= i < j < |s| ==> s[i] != s[j]
  }

  /** The first problem among a plan's coordinates, in plan order. */
  function CoordinatesError(cs: seq<Coordinate>): Option<BenchError> {
    if cs == [] then None
    else
      var init, c := cs[..|cs| - 1], cs[|cs| - 1];
      if CoordinatesError(init).Some? then CoordinatesError(init)
      else if CoordinateError(c).Some? then CoordinateError(c)
      else if c in init then Some(DuplicateCoordinate)
      else None
  }

  const PLAN_SCHEMA: U32 := 2

  /** `RuntimeBenchPlan::validate`. */
  function PlanError(schemaVersion: U32, cs: seq<Coordinate>): Option<BenchError> {
    if schemaVersion != PLAN_SCHEMA || cs == [] then Some(InvalidPlan) else CoordinatesError(cs)
  }

  method ValidatePlan(schemaVersion: U32, cs: seq<Coordinate>) returns (r: Option<BenchError>)
    ensures r == PlanError(schemaVersion, cs)
  {
    if schemaVersion != PLAN_SCHEMA || cs == [] {
      return Some(InvalidPlan);
    }
    hide CoordinateError;
    var identities: set<Coordinate> := {};
    for i := 0 to |cs|
      invariant identities == set j | 0 <= j < i :: cs[j]
      invariant CoordinatesError(cs[..i]).None?
    {
      var init, next := cs[..i], cs[..i + 1];
      assert next[..|next| - 1] == init && next[|next| - 1] == cs[i];
      assert cs[i] in identities <==> cs[i] in init;
      r := CoordinateError(cs[i]);
      if r.None? && cs[i] in identities {
        r := Some(DuplicateCoordinate);
      }
      if r.Some? {
        assert CoordinatesError(next) == r;
        StaysFailed(cs, i + 1);
        return;
      }
      identities := identities + {cs[i]};
    }
    assert cs[..|cs|] == cs;
    r := None;
  }

  /** The first problem in a prefix is the first problem. */
  lemma {:induction false} StaysFailed(cs: seq<Coordinate>, n: nat)
    requires n <= |cs| && CoordinatesError(cs[..n]).Some?
    ensures CoordinatesError(cs) == CoordinatesError(cs[..n])
    decreases |cs|
  {
    if n < |cs| {
      assert cs[..|cs| - 1][..n] == cs[..n];
      StaysFailed(cs[..|cs| - 1], n);
    } else {
      assert cs[..n] == cs;
    }
  }

  lemma {:induction false} CoordinatesPassIff(cs: seq<Coordinate>)
    ensures CoordinatesError(cs).None? <==>
            NoDuplicates(cs) && forall i :: 0 <= i < |cs| ==> CoordinateError(cs[i]).None?
  {
    hide CoordinateError;
    if cs != [] {
      var init, c := cs[..|cs| - 1], cs[|cs| - 1];
      CoordinatesPassIff(init);
      assert cs == init + [c];
      assert forall i :: 0 <= i < |init| ==> init[i] == cs[i];
    }
  }

  /** A plan passes exactly when its schema is current, it is not empty, every coordinate is valid and none repeats. */
  lemma PlanPassesIff(schemaVersion: U32, cs: seq<Coordinate>)
    ensures PlanError(schemaVersion, cs).None? <==>
            && schemaVersion == 2 && cs != [] && NoDuplicates(cs)
            && forall i :: 0 <= i < |cs| ==> CoordinateError(cs[i]).None?
  {
    hide CoordinateError, CoordinatesError;
    CoordinatesPassIff(cs);
  }

  /** Distinct roles are counted once each. */
  lemma {:induction false} DistinctRolesCount(models: seq<Binding>)
    requires forall i, j :: 0 <= i < j < |models| ==> models[i].role != models[j].role
    ensures |Roles(models)| == |models|
  {
    if models != [] {
      var init, last := models[..|models| - 1], models[|models| - 1];
      DistinctRolesCount(init);
      assert Roles(models) == Roles(init) + {last.role};
      assert last.role !in Roles(init);
    }
  }

  predicate RolesDiffer(models: seq<Binding>) {
    forall i, j :: 0 <= i < j < |models| ==> models[i].role != models[j].role
  }

  lemma RolesSnoc(init: seq<Binding>, last: Binding)
    ensures Roles(init + [last]) == Roles(init) + {last.role}
    ensures RolesDiffer(init + [last]) <==> RolesDiffer(init) && last.role !in Roles(init)
  {
    var all := init + [last];
    assert all[|init|] == last && forall i :: 0 <= i < |init| ==> all[i] == init[i];
    if RolesDiffer(all) {
      forall i | 0 <= i < |init| ensures init[i].role != last.role {
        assert all[i].role != all[|init|].role;
      }
    }
  }

  /** Counting roles as a set tells whether one is bound twice. */
  lemma {:induction false} RolesCountIff(models: seq<Binding>)
    ensures |Roles(models)| <= |models| && (|Roles(models)| == |models| <==> RolesDiffer(models))
  {
    hide RolesDiffer, Roles;
    if models == [] {
      NoRoles();
    } else {
      var init, last := models[..|models| - 1], models[|models| - 1];
      assert models == init + [last];
      RolesCountIff(init);
      RolesSnoc(init, last);
      if last.role in Roles(init) {
        assert Roles(init) + {last.role} == Roles(init);
      }
    }
  }

  lemma NoRoles()
    ensures Roles([]) == {} && RolesDiffer([])
  {
  }

  predicate Binds(models: seq<Binding>, role: Role) {
    exists i :: 0 <= i < |models| && models[i].role == role
  }

  predicate BindsOnly(models: seq<Binding>, roles: set<Role>) {
    forall i :: 0 <= i < |models| ==> models[i].role in roles
  }

  /** The bindings a cognition profile runs with, besides the primary model. */
  predicate Suits(profile: Profile, models: seq<Binding>) {
    match profile
    case PrimaryOnly => |models| == 1
    case FastSlow =>
      BindsOnly(models, {Primary, FastDraft, Deliberation}) && (Binds(models, FastDraft) || Binds(models, Deliberation))
    case PrimaryCritic => |models| == 2 && Binds(models, Critic)
    case PerceptionSpecialist =>
      BindsOnly(models, {Primary, Vision, Audio, Document}) && (Binds(models, Vision) || Binds(models, Audio))
  }

  lemma TwoRoles(roles: set<Role>, a: Role, b: Role)
    requires a in roles && b in roles && a != b
    ensures |roles| >= 2
  {
    assert {a, b} <= roles;
    CardinalityMonotone({a, b}, roles);
  }

  lemma {:induction false} CardinalityMonotone(small: set<Role>, large: set<Role>)
    requires small <= large
    ensures |small| <= |large|
    decreases small
  {
    if small != {} {
      var x :| x in small;
      CardinalityMonotone(small - {x}, large - {x});
    }
  }

  lemma AcceptsIff(profile: Profile, models: seq<Binding>)
    requires Binds(models, Primary) && |Roles(models)| == |models|
    ensures AcceptsRoles(profile, Roles(models)) <==> Suits(profile, models)
  {
    var roles := Roles(models);
    assert forall r :: r in roles <==> Binds(models, r);
    forall r: Role | r in roles && r != Primary ensures |roles| >= 2 {
      TwoRoles(roles, Primary, r);
    }
    assert BindsOnly(models, {Primary, FastDraft, Deliberation}) <==> roles <= {Primary, FastDraft, Deliberation};
    assert BindsOnly(models, {Primary, Vision, Audio, Document}) <==> roles <= {Primary, Vision, Audio, Document};
  }

  /** A coordinate is valid exactly under these conditions on its names and its list of bindings. */
  lemma CoordinateValidIff(c: Coordinate)
    ensures CoordinateError(c).None? <==>
            && !Blank(c.suite) && !Blank(c.suiteRevision) && !Blank(c.scenarioId) && c.runOrdinal > 0
            && (forall i :: 0 <= i < |c.models| ==> !Blank(c.models[i].model))
            && (forall i, j :: 0 <= i < j < |c.models| ==> c.models[i].role != c.models[j].role)
            && Binds(c.models, Primary) && Suits(c.cognition, c.models)
            && (c.failurePoint != NoFailure ==> c.family == CrashRecovery)
  {
    hide Blank, AcceptsRoles, Suits;
    RolesCountIff(c.models);
    assert Primary in Roles(c.models) <==> Binds(c.models, Primary);
    if Binds(c.models, Primary) && |Roles(c.models)| == |c.models| {
      AcceptsIff(c.cognition, c.models);
    }
  }

  /** A result is valid exactly under these conditions. */
  lemma ResultValidIff(r: BenchResult)
    ensures ResultError(r).None? <==>
            && CoordinateError(r.coordinate).None?
            && (r.verifierReward.Some? ==> r.verifierReward.value.Finite?)
            && (r.recovered ==> r.coordinate.failurePoint != NoFailure)
            && r.primaryModelCalls > 0 && r.modelCalls == r.primaryModelCalls + r.auxiliaryModelCalls
            && (r.coordinate.cognition == PrimaryOnly ==> r.auxiliaryModelCalls == 0)
            && r.perceptionCalls <= r.modelCalls
            && (r.coordinate.cognition == PerceptionSpecialist ==> r.perceptionCalls > 0)
  {
    hide CoordinateError;
  }
}
