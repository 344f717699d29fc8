/** Trajectories in the ATIF format, and their validation. */
module Atif {
  import opened Common
  import opened Capability

  datatype Source = System | User | AgentSource

  datatype ToolCall = ToolCall(id: string, functionName: string, arguments: seq<Field>)

  datatype ObservationResult = ObservationResult(sourceCallId: Option<string>, content: Option<string>, isError: bool)

  datatype Metrics = Metrics(promptTokens: U64, completionTokens: U64, cachedTokens: Option<U64>)

  datatype FinalMetrics = FinalMetrics(
    totalPromptTokens: U64, totalCompletionTokens: U64, totalCachedTokens: Option<U64>, totalSteps: U32)

  datatype Step = Step(
    stepId: U32,
    source: Source,
    modelName: Option<string>,
    message: string,
    reasoning: Option<string>,
    toolCalls: Option<seq<ToolCall>>,
    observation: Option<seq<ObservationResult>>,
    metrics: Option<Metrics>,
    llmCallCount: Option<U32>)

  datatype Trajectory = Trajectory(
    schemaVersion: string,
    modelName: Option<string>,
    steps: seq<Step>,
    finalMetrics: Option<FinalMetrics>)

  datatype AtifError = UnsupportedVersion | NoSteps | StepIdsNotSequential | ModelFieldsOnPlainStep | UnknownToolCall

  const ATIF_VERSION := "ATIF-v1.7"

  /** `index as u32 + 1`, wrapping. */
  function ExpectedId(index: nat): U32 {
    (index % 0x1_0000_0000 + 1) % 0x1_0000_0000
  }

  predicate HasModelFields(s: Step) {
    s.modelName.Some? || s.reasoning.Some? || s.toolCalls.Some? || s.metrics.Some?
  }

  function CallsOf(s: Step): seq<ToolCall> {
    if s.toolCalls.Some? then s.toolCalls.value else []
  }

  function ResultsOf(s: Step): seq<ObservationResult> {
    if s.observation.Some? then s.observation.value else []
  }

  predicate Names(calls: seq<ToolCall>, id: string) {
    exists i :: 0 <= i < |calls| && calls[i].id == id
  }

  predicate ResultKnown(calls: seq<ToolCall>, r: ObservationResult) {
    r.sourceCallId.Some? ==> Names(calls, r.sourceCallId.value)
  }

  predicate ResultsKnown(calls: seq<ToolCall>, results: seq<ObservationResult>) {
    forall i :: 0 <= i < |results| ==> ResultKnown(calls, results[i])
  }

  predicate IdsSequential(steps: seq<Step>) {
    forall i :: 0 <= i < |steps| ==> steps[i].stepId == ExpectedId(i)
  }

  /** The first problem of a single step. */
  function StepError(s: Step): Option<AtifError> {
    if s.source != AgentSource && HasModelFields(s) then Some(ModelFieldsOnPlainStep)
    else if !ResultsKnown(CallsOf(s), ResultsOf(s)) then Some(UnknownToolCall)
    else None
  }

  function StepsError(steps: seq<Step>): Option<AtifError> {
    if steps == [] then None
    else if StepsError(steps[..|steps| - 1]).Some? then StepsError(steps[..|steps| - 1])
    else StepError(steps[|steps| - 1])
  }

  /** `Trajectory::validate`; `None` is success. */
  function ValidationError(t: Trajectory): Option<AtifError> {
    if t.schemaVersion != ATIF_VERSION then Some(UnsupportedVersion)
    else if t.steps == [] then Some(NoSteps)
    else if !IdsSequential(t.steps) then Some(StepIdsNotSequential)
    else StepsError(t.steps)
  }

  lemma {:induction false} StepsValidIff(steps: seq<Step>)
    ensures StepsError(steps).None? <==> forall i :: 0 <= i < |steps| ==> StepError(steps[i]).None?
  {
    hide StepError;
    if steps != [] {
      var init := steps[..|steps| - 1];
      StepsValidIff(init);
      assert steps == init + [steps[|steps| - 1]];
      assert forall i :: 0 <= i < |init| ==> init[i] == steps[i];
    }
  }
}
