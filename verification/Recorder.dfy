/** The trajectory recorder: one ATIF step for each model iteration of an agent run. */
module Recorder {
  import opened Common
  import opened Capability
  import opened Usage
  import opened Atif

  datatype AgentEvent =
    | IterationStart
    | TextChunk(text: string)
    | ThinkingChunk(text: string)
    | ToolCallStart(id: string, name: string, input: Json)
    | ToolCallEnd(id: string, output: string, isError: bool)
    | ToolRejected(id: string, reason: string)
    | IterationEnd(usage: TokenUsage)
    | Done(usage: TokenUsage)
    | Error(error: string)
    | Untracked

  datatype RecorderError =
    | IterationStartedTwice | OutsideIteration | EndedBeforeStart | DoneBeforeEnd
    | NonObjectToolArguments | AgentFailed(error: string) | Incomplete | InvalidAtif(reason: AtifError)

  datatype AgentStep = AgentStep(
    message: string,
    reasoning: string,
    toolCalls: seq<ToolCall>,
    results: seq<ObservationResult>)

  const BLANK_STEP := AgentStep("", "", [], [])

  /** What a recorder holds, apart from the ledger of events it only appends to. */
  datatype State = State(
    trajectory: Trajectory,
    current: Option<AgentStep>,
    completed: bool,
    terminalError: Option<string>)

  function NonEmpty<T>(s: seq<T>): Option<seq<T>> {
    if s == [] then None else Some(s)
  }

  function StepId(steps: seq<Step>): U32 {
    if |steps| + 1 > U32_MAX then U32_MAX else |steps| + 1
  }

  function MetricsOf(u: TokenUsage): Metrics {
    Metrics(TotalInput(u), u.outputTokens, u.cacheRead)
  }

  /** `agent_step`. */
  function StepOf(t: Trajectory, current: AgentStep, usage: Option<TokenUsage>): Step {
    Step(StepId(t.steps), AgentSource, t.modelName, current.message, NonEmpty(current.reasoning),
         NonEmpty(current.toolCalls), NonEmpty(current.results),
         if usage.Some? then Some(MetricsOf(usage.value)) else None,
         if usage.Some? then Some(1) else None)
  }

  function PlainStep(steps: seq<Step>, source: Source, message: string): Step {
    Step(StepId(steps), source, None, message, None, None, None, None, None)
  }

  function SystemSteps(messages: seq<string>): seq<Step> {
    if messages == [] then []
    else
      var before := SystemSteps(messages[..|messages| - 1]);
      before + [PlainStep(before, System, messages[|messages| - 1])]
  }

  function InitialSteps(messages: seq<string>, user: string): seq<Step> {
    var before := SystemSteps(messages);
    before + [PlainStep(before, User, user)]
  }

  /** `TrajectoryRecorder::new`. */
  function Initial(model: string, messages: seq<string>, user: string): State {
    State(Trajectory(ATIF_VERSION, Some(model), InitialSteps(messages, user), None), None, false, None)
  }

  function FinalMetricsOf(u: TokenUsage, steps: seq<Step>): FinalMetrics {
    FinalMetrics(TotalInput(u), u.outputTokens, u.cacheRead, if |steps| > U32_MAX then U32_MAX else |steps|)
  }

  /** `record`: the new state and the error returned, if any. */
  function After(s: State, e: AgentEvent): (State, Option<RecorderError>) {
    match e
    case IterationStart =>
      (s.(current := Some(BLANK_STEP)), if s.current.Some? then Some(IterationStartedTwice) else None)
    case ToolCallStart(_, _, input) => if !input.Object? then (s, Some(NonObjectToolArguments)) else Grown(s, e)
    case IterationEnd(usage) =>
      if s.current.None? then (s, Some(EndedBeforeStart))
      else
        var step := StepOf(s.trajectory, s.current.value, Some(usage));
        (s.(current := None, trajectory := s.trajectory.(steps := s.trajectory.steps + [step])), None)
    case Done(usage) =>
      if s.current.Some? then (s, Some(DoneBeforeEnd))
      else (s.(completed := true,
               trajectory := s.trajectory.(finalMetrics := Some(FinalMetricsOf(usage, s.trajectory.steps)))),
            None)
    case Error(error) => (s.(terminalError := Some(error)), Some(AgentFailed(error)))
    case Untracked => (s, None)
    case _ => Grown(s, e)
  }

  function ResultFor(id: string, content: string, isError: bool): ObservationResult {
    ObservationResult(Some(id), Some(content), isError)
  }

  /** An event that adds to the open iteration, if there is one. */
  function Grown(s: State, e: AgentEvent): (State, Option<RecorderError>) {
    if s.current.None? then (s, Some(OutsideIteration))
    else (s.(current := Some(Growth(s.current.value, e))), None)
  }

  function Growth(c: AgentStep, e: AgentEvent): AgentStep {
    match e
    case TextChunk(text) => c.(message := c.message + text)
    case ThinkingChunk(text) => c.(reasoning := c.reasoning + text)
    case ToolCallStart(id, name, Object(fields)) => c.(toolCalls := c.toolCalls + [ToolCall(id, name, fields)])
    case ToolCallEnd(id, output, isError) => c.(results := c.results + [ResultFor(id, output, isError)])
    case ToolRejected(id, reason) => c.(results := c.results + [ResultFor(id, reason, true)])
    case _ => c
  }

  /** `snapshot`, apart from its observability block. */
  function SnapshotOf(s: State): Trajectory {
    if s.current.None? then s.trajectory
    else s.trajectory.(steps := s.trajectory.steps + [StepOf(s.trajectory, s.current.value, None)])
  }

  /** `finish`. */
  function Finished(s: State): Result<Trajectory, RecorderError> {
    if !s.completed || s.current.Some? then Err(Incomplete)
    else if ValidationError(SnapshotOf(s)).Some? then Err(InvalidAtif(ValidationError(SnapshotOf(s)).value))
    else Ok(SnapshotOf(s).(finalMetrics := s.trajectory.finalMetrics))
  }

  class TrajectoryRecorder {
    var trajectory: Trajectory
    var current: Option<AgentStep>
    var completed: bool
    var eventSequence: U64
    var events: seq<(U64, AgentEvent)>
    var terminalError: Option<string>

    function Abstract(): State
      reads this
    {
      State(trajectory, current, completed, terminalError)
    }

    constructor (model: string, messages: seq<string>, user: string)
      ensures Abstract() == Initial(model, messages, user) && events == [] && eventSequence == 0
    {
      var steps: seq<Step> := [];
      for i := 0 to |messages|
        invariant steps == SystemSteps(messages[..i])
      {
        var next := messages[..i + 1];
        assert next[..|next| - 1] == messages[..i];
        steps := steps + [PlainStep(steps, System, messages[i])];
      }
      assert messages[..|messages|] == messages;
      trajectory := Trajectory(ATIF_VERSION, Some(model), steps + [PlainStep(steps, User, user)], None);
      current := None;
      completed := false;
      eventSequence := 0;
      events := [];
      terminalError := None;
    }

    /** `record`; the ledger takes every event, also one that is refused. */
    method Record(e: AgentEvent) returns (error: Option<RecorderError>)
      modifies this
      ensures (Abstract(), error) == After(old(Abstract()), e)
      ensures eventSequence == SatAdd(old(eventSequence), 1)
      ensures events == old(events) + [(eventSequence, e)]
    {
      hide StepOf, FinalMetricsOf;
      eventSequence := SatAdd(eventSequence, 1);
      events := events + [(eventSequence, e)];
      match e {
        case IterationStart =>
          var previous := current;
          current := Some(BLANK_STEP);
          if previous.Some? {
            return Some(IterationStartedTwice);
          }
        case TextChunk(text) =>
          if current.None? {
            return Some(OutsideIteration);
          }
          current := Some(current.value.(message := current.value.message + text));
        case ThinkingChunk(text) =>
          if current.None? {
            return Some(OutsideIteration);
          }
          current := Some(current.value.(reasoning := current.value.reasoning + text));
        case ToolCallStart(id, name, input) =>
          if !input.Object? {
            return Some(NonObjectToolArguments);
          }
          if current.None? {
            return Some(OutsideIteration);
          }
          current := Some(current.value.(toolCalls := current.value.toolCalls + [ToolCall(id, name, input.fields)]));
        case ToolCallEnd(id, output, isError) =>
          error := PushResult(id, output, isError);
          return;
        case ToolRejected(id, reason) =>
          error := PushResult(id, reason, true);
          return;
        case IterationEnd(usage) =>
          if current.None? {
            return Some(EndedBeforeStart);
          }
          var step := StepOf(trajectory, current.value, Some(usage));
          current := None;
          trajectory := trajectory.(steps := trajectory.steps + [step]);
        case Done(usage) =>
          if current.Some? {
            return Some(DoneBeforeEnd);
          }
          trajectory := trajectory.(finalMetrics := Some(FinalMetricsOf(usage, trajectory.steps)));
          completed := true;
        case Error(text) =>
          terminalError := Some(text);
          return Some(AgentFailed(text));
        case Untracked =>
      }
      error := None;
    }

    method PushResult(id: string, content: string, isError: bool) returns (error: Option<RecorderError>)
      modifies this`current
      ensures error == if old(current).None? then Some(OutsideIteration) else None
      ensures old(current).None? ==> current == None
      ensures old(current).Some? ==>
                var was := old(current).value;
                current == Some(was.(results := was.results + [ResultFor(id, content, isError)]))
    {
      if current.None? {
        return Some(OutsideIteration);
      }
      current := Some(current.value.(results := current.value.results + [ResultFor(id, content, isError)]));
      error := None;
    }

    method Snapshot() returns (t: Trajectory)
      ensures t == SnapshotOf(Abstract())
    {
      t := trajectory;
      if current.Some? {
        t := t.(steps := t.steps + [StepOf(t, current.value, None)]);
      }
    }

    method Finish() returns (r: Result<Trajectory, RecorderError>)
      ensures r == Finished(Abstract())
    {
      if !completed || current.Some? {
        return Err(Incomplete);
      }
      var t := Snapshot();
      if ValidationError(t).Some? {
        return Err(InvalidAtif(ValidationError(t).value));
      }
      r := Ok(t.(finalMetrics := trajectory.finalMetrics));
    }
  }

  // ---------------------------------------------------------------------------
  // Runs, and the iterations they consist of
  // ---------------------------------------------------------------------------

  function AfterAll(s: State, es: seq<AgentEvent>): State {
    if es == [] then s else After(AfterAll(s, es[..|es| - 1]), es[|es| - 1]).0
  }

  predicate ErrorFree(s: State, es: seq<AgentEvent>) {
    es == [] || (ErrorFree(s, es[..|es| - 1]) && After(AfterAll(s, es[..|es| - 1]), es[|es| - 1]).1.None?)
  }

  datatype Iteration = Iteration(events: seq<AgentEvent>, usage: Option<TokenUsage>)

  /** The iterations of an event list: those that ended, and the one still open. */
  datatype Parse = Parse(ended: seq<Iteration>, open: Option<seq<AgentEvent>>)

  function Parsed(es: seq<AgentEvent>): Parse {
    if es == [] then Parse([], None)
    else
      var p, e := Parsed(es[..|es| - 1]), es[|es| - 1];
      if e.IterationStart? then p.(open := Some([]))
      else if p.open.None? then p
      else if e.IterationEnd? then Parse(p.ended + [Iteration(p.open.value, Some(e.usage))], None)
      else p.(open := Some(p.open.value + [e]))
  }

  /** Ended iterations followed by the open one. */
  function Iterations(es: seq<AgentEvent>): seq<Iteration> {
    var p := Parsed(es);
    p.ended + if p.open.Some? then [Iteration(p.open.value, None)] else []
  }

  /** All text of a list of events, in order. */
  function Texts(es: seq<AgentEvent>): string {
    if es == [] then ""
    else Texts(es[..|es| - 1]) + (if es[|es| - 1].TextChunk? then es[|es| - 1].text else "")
  }

  function Thoughts(es: seq<AgentEvent>): string {
    if es == [] then ""
    else Thoughts(es[..|es| - 1]) + (if es[|es| - 1].ThinkingChunk? then es[|es| - 1].text else "")
  }

  predicate IsCall(e: AgentEvent) {
    e.ToolCallStart? && e.input.Object?
  }

  predicate IsResult(e: AgentEvent) {
    e.ToolCallEnd? || e.ToolRejected?
  }

  function Calls(es: seq<AgentEvent>): seq<ToolCall> {
    if es == [] then []
    else
      var e := es[|es| - 1];
      Calls(es[..|es| - 1]) + if IsCall(e) then [ToolCall(e.id, e.name, e.input.fields)] else []
  }

  function Results(es: seq<AgentEvent>): seq<ObservationResult> {
    if es == [] then [] else Results(es[..|es| - 1]) + ResultOf(es[|es| - 1])
  }

  function ResultOf(e: AgentEvent): seq<ObservationResult> {
    match e
    case ToolCallEnd(id, output, isError) => [ResultFor(id, output, isError)]
    case ToolRejected(id, reason) => [ResultFor(id, reason, true)]
    case _ => []
  }

  function AgentStepOf(es: seq<AgentEvent>): AgentStep {
    AgentStep(Texts(es), Thoughts(es), Calls(es), Results(es))
  }

  /** The steps a list of iterations makes on top of earlier ones. */
  function StepsOf(t: Trajectory, its: seq<Iteration>): (steps: seq<Step>)
    ensures |steps| == |t.steps| + |its|
  {
    if its == [] then t.steps
    else
      var before := t.(steps := StepsOf(t, its[..|its| - 1]));
      before.steps + [StepOf(before, AgentStepOf(its[|its| - 1].events), its[|its| - 1].usage)]
  }

  // ---------------------------------------------------------------------------
  // The recorder holds the iterations
  // ---------------------------------------------------------------------------

  /** Growing with an event is the same as listing it. */
  lemma GrownStep(seg: seq<AgentEvent>, e: AgentEvent)
    ensures AgentStepOf(seg + [e]) == Growth(AgentStepOf(seg), e)
  {
    assert (seg + [e])[..|seg|] == seg;
  }

  ghost predicate Holds(s0: State, s: State, p: Parse) {
    && s.trajectory.steps == StepsOf(s0.trajectory, p.ended)
    && s.trajectory.modelName == s0.trajectory.modelName
    && s.trajectory.schemaVersion == s0.trajectory.schemaVersion
    && s.current == if p.open.None? then None else Some(AgentStepOf(p.open.value))
  }

  lemma AfterGrows(s: State, e: AgentEvent)
    requires !e.IterationStart? && (e.IterationEnd? ==> s.current.None?)
    ensures var next := After(s, e).0;
            && next.current == (if s.current.None? then None else Some(Growth(s.current.value, e)))
            && next.trajectory.steps == s.trajectory.steps
            && next.trajectory.modelName == s.trajectory.modelName
            && next.trajectory.schemaVersion == s.trajectory.schemaVersion
  {
    hide StepOf, FinalMetricsOf;
  }

  lemma EventKeeps(s0: State, s: State, es: seq<AgentEvent>, e: AgentEvent)
    requires Holds(s0, s, Parsed(es))
    ensures Holds(s0, After(s, e).0, Parsed(es + [e]))
  {
    hide StepOf, StepsOf, AgentStepOf, Growth, Grown, FinalMetricsOf;
    assert (es + [e])[..|es|] == es;
    var p := Parsed(es);
    if e.IterationStart? {
      EmptyStep();
    } else if e.IterationEnd? && p.open.Some? {
      EndedSteps(s0.trajectory, s.trajectory, p.ended, Iteration(p.open.value, Some(e.usage)));
    } else {
      AfterGrows(s, e);
      if p.open.Some? {
        GrownStep(p.open.value, e);
      }
    }
  }

  lemma EmptyStep()
    ensures AgentStepOf([]) == BLANK_STEP
  {
  }

  lemma EndedSteps(t0: Trajectory, t: Trajectory, its: seq<Iteration>, it: Iteration)
    requires t.steps == StepsOf(t0, its) && t.modelName == t0.modelName
    ensures StepsOf(t0, its + [it]) == t.steps + [StepOf(t, AgentStepOf(it.events), it.usage)]
  {
    hide AgentStepOf;
    assert (its + [it])[..|its|] == its;
  }

  /** Recording a list of events leaves exactly its iterations, errors included. */
  lemma {:induction false} RecorderHolds(s0: State, es: seq<AgentEvent>)
    requires s0.current.None?
    ensures Holds(s0, AfterAll(s0, es), Parsed(es))
  {
    hide After, AgentStepOf;
    if es != [] {
      var init, e := es[..|es| - 1], es[|es| - 1];
      assert es == init + [e];
      RecorderHolds(s0, init);
      EventKeeps(s0, AfterAll(s0, init), init, e);
    }
  }

  /** A snapshot, taken at any time, is the initial steps and then one agent step for each iteration. */
  lemma SnapshotSteps(s0: State, es: seq<AgentEvent>)
    requires s0.current.None?
    ensures SnapshotOf(AfterAll(s0, es)).steps == StepsOf(s0.trajectory, Iterations(es))
    ensures SnapshotOf(AfterAll(s0, es)).schemaVersion == s0.trajectory.schemaVersion
  {
    hide After, AgentStepOf, AfterAll, StepOf, StepsOf, Parsed;
    RecorderHolds(s0, es);
    var s, p := AfterAll(s0, es), Parsed(es);
    if p.open.Some? {
      EndedSteps(s0.trajectory, s.trajectory, p.ended, Iteration(p.open.value, None));
    } else {
      assert Iterations(es) == p.ended;
    }
  }

  // ---------------------------------------------------------------------------
  // When a snapshot is valid
  // ---------------------------------------------------------------------------

  /** Every result of an iteration names a call started in the same iteration. */
  predicate Answers(it: Iteration) {
    forall i :: 0 <= i < |it.events| && IsResult(it.events[i]) ==> Called(it, it.events[i].id)
  }

  predicate Called(it: Iteration, id: string) {
    exists j :: 0 <= j < |it.events| && IsCall(it.events[j]) && it.events[j].id == id
  }

  lemma {:induction false} CallsName(es: seq<AgentEvent>, usage: Option<TokenUsage>, id: string)
    ensures Names(Calls(es), id) <==> Called(Iteration(es, usage), id)
  {
    if es != [] {
      var init, e := es[..|es| - 1], es[|es| - 1];
      assert es == init + [e];
      CallsName(init, usage, id);
      CalledSnoc(init, e, usage, id);
      NamesSnoc(Calls(init), Calls(es)[|Calls(init)|..], id);
      assert Calls(es) == Calls(init) + Calls(es)[|Calls(init)|..];
    }
  }

  lemma NamesSnoc(a: seq<ToolCall>, b: seq<ToolCall>, id: string)
    requires |b| <= 1
    ensures Names(a + b, id) <==> Names(a, id) || (b != [] && b[0].id == id)
  {
    if i :| 0 <= i < |a| && a[i].id == id {
      assert (a + b)[i].id == id;
    }
    if b != [] {
      assert (a + b)[|a|] == b[0];
    }
  }

  lemma CalledSnoc(init: seq<AgentEvent>, e: AgentEvent, usage: Option<TokenUsage>, id: string)
    ensures Called(Iteration(init + [e], usage), id) <==>
            Called(Iteration(init, usage), id) || (IsCall(e) && e.id == id)
  {
    var es := init + [e];
    assert es[|init|] == e;
    if j :| 0 <= j < |init| && IsCall(init[j]) && init[j].id == id {
      assert es[j] == init[j];
    }
  }

  /** The results recorded for an iteration are its result events. */
  lemma {:induction false} ResultsKnownIff(es: seq<AgentEvent>, calls: seq<ToolCall>)
    ensures ResultsKnown(calls, Results(es)) <==>
            forall i :: 0 <= i < |es| && IsResult(es[i]) ==> Names(calls, es[i].id)
  {
    hide Names, ResultsKnown, ResultOf;
    if es == [] {
      NoResults(es, calls);
    } else {
      var init, e := es[..|es| - 1], es[|es| - 1];
      assert es == init + [e];
      ResultsKnownIff(init, calls);
      KnownAppend(calls, Results(init), ResultOf(e));
      ResultOfKnown(calls, e);
      assert forall i :: 0 <= i < |init| ==> init[i] == es[i];
    }
  }

  lemma ResultOfKnown(calls: seq<ToolCall>, e: AgentEvent)
    ensures ResultsKnown(calls, ResultOf(e)) <==> (IsResult(e) ==> Names(calls, e.id))
  {
    hide Names;
    if IsResult(e) {
      assert ResultOf(e)[0].sourceCallId == Some(e.id);
    }
  }

  lemma KnownAppend(calls: seq<ToolCall>, a: seq<ObservationResult>, b: seq<ObservationResult>)
    ensures ResultsKnown(calls, a + b) <==> ResultsKnown(calls, a) && ResultsKnown(calls, b)
  {
    hide ResultKnown;
    if ResultsKnown(calls, a + b) {
      forall i | 0 <= i < |a| ensures ResultKnown(calls, a[i]) { assert (a + b)[i] == a[i]; }
      forall i | 0 <= i < |b| ensures ResultKnown(calls, b[i]) { assert (a + b)[|a| + i] == b[i]; }
    }
  }

  lemma StepValidIff(t: Trajectory, it: Iteration)
    ensures StepError(StepOf(t, AgentStepOf(it.events), it.usage)).None? <==> Answers(it)
  {
    hide Names, ResultsKnown, Called, Results, Calls;
    ResultsKnownIff(it.events, Calls(it.events));
    forall id: string ensures Names(Calls(it.events), id) <==> Called(it, id) {
      CallsName(it.events, it.usage, id);
    }
    NoResults(it.events, Calls(it.events));
  }

  lemma NoResults(es: seq<AgentEvent>, calls: seq<ToolCall>)
    ensures ResultsKnown(calls, [])
    ensures es == [] ==> Results(es) == []
  {
  }

  /** Steps numbered as the recorder numbers them. */
  ghost predicate Numbered(steps: seq<Step>) {
    forall i :: 0 <= i < |steps| ==> steps[i].stepId == if i + 1 > U32_MAX then U32_MAX else i + 1
  }

  lemma NumberedIsSequentialIff(steps: seq<Step>)
    requires Numbered(steps)
    ensures IdsSequential(steps) <==> |steps| <= U32_MAX
  {
    if |steps| > U32_MAX {
      assert steps[U32_MAX].stepId == U32_MAX && ExpectedId(U32_MAX) == 0;
    }
  }

  ghost predicate PlainOnly(steps: seq<Step>) {
    forall i :: 0 <= i < |steps| ==> steps[i].source != AgentSource && StepError(steps[i]).None?
  }

  lemma {:induction false} SystemStepsPlain(messages: seq<string>)
    ensures PlainOnly(SystemSteps(messages)) && Numbered(SystemSteps(messages)) && |SystemSteps(messages)| == |messages|
  {
    if messages != [] {
      SystemStepsPlain(messages[..|messages| - 1]);
    }
  }

  lemma InitialStepsPlain(messages: seq<string>, user: string)
    ensures PlainOnly(InitialSteps(messages, user)) && Numbered(InitialSteps(messages, user))
    ensures |InitialSteps(messages, user)| == |messages| + 1
  {
    hide SystemSteps;
    SystemStepsPlain(messages);
  }

  /** Steps made from iterations: numbered, and valid exactly where the iteration answers its own calls. */
  lemma {:induction false} StepsOfMeans(t: Trajectory, its: seq<Iteration>)
    requires PlainOnly(t.steps) && Numbered(t.steps)
    ensures Numbered(StepsOf(t, its))
    ensures StepsError(StepsOf(t, its)).None? <==> forall k :: 0 <= k < |its| ==> Answers(its[k])
  {
    hide Answers, AgentStepOf, StepError;
    if its == [] {
      StepsValidIff(t.steps);
    } else {
      var init, it := its[..|its| - 1], its[|its| - 1];
      assert its == init + [it];
      StepsOfMeans(t, init);
      var before := t.(steps := StepsOf(t, init));
      StepValidIff(before, it);
      var steps := StepsOf(t, its);
      assert steps[..|steps| - 1] == before.steps;
      assert forall k :: 0 <= k < |init| ==> init[k] == its[k];
    }
  }

  /**
    A snapshot after any events at all, accepted or refused, is a valid trajectory exactly
    when it has fewer than 2^32 steps and every tool result names a call started in its own
    iteration.
   */
  lemma SnapshotValidIff(model: string, messages: seq<string>, user: string, es: seq<AgentEvent>)
    ensures ValidationError(SnapshotOf(AfterAll(Initial(model, messages, user), es))).None? <==>
            && |messages| + 1 + |Iterations(es)| <= U32_MAX
            && forall k :: 0 <= k < |Iterations(es)| ==> Answers(Iterations(es)[k])
  {
    hide Answers, AfterAll, StepsOf, Iterations, StepsError, InitialSteps, Numbered, PlainOnly, IdsSequential,
         SnapshotOf;
    var s0 := Initial(model, messages, user);
    InitialStepsPlain(messages, user);
    SnapshotSteps(s0, es);
    StepsOfMeans(s0.trajectory, Iterations(es));
    NumberedIsSequentialIff(StepsOf(s0.trajectory, Iterations(es)));
  }

  /** A run without errors whose snapshot is not valid: a result for a call that was never started. */
  lemma StrayResultIsInvalid(es: seq<AgentEvent>)
    requires es == [IterationStart, ToolCallEnd("call", "output", false)]
    ensures ErrorFree(Initial("model", [], "task"), es)
    ensures ValidationError(SnapshotOf(AfterAll(Initial("model", [], "task"), es))).Some?
  {
    assert es[..1] == [IterationStart] && es[..1][..0] == [];
    var it := Iteration([ToolCallEnd("call", "output", false)], None);
    assert Parsed(es[..1]) == Parse([], Some([]));
    assert [] + [es[1]] == it.events;
    assert Parsed(es) == Parse([], Some(it.events));
    assert Iterations(es) == [] + [it];
    assert !Answers(it) by {
      assert IsResult(it.events[0]) && !Called(it, "call");
    }
    SnapshotValidIff("model", [], "task", es);
    assert !Answers(Iterations(es)[0]);
  }

  // ---------------------------------------------------------------------------
  // Nothing is lost
  // ---------------------------------------------------------------------------

  function AgentMessages(steps: seq<Step>): string {
    if steps == [] then ""
    else
      var init, last := steps[..|steps| - 1], steps[|steps| - 1];
      AgentMessages(init) + (if last.source == AgentSource then last.message else "")
  }

  function IterationTexts(its: seq<Iteration>): string {
    if its == [] then "" else IterationTexts(its[..|its| - 1]) + Texts(its[|its| - 1].events)
  }

  lemma {:induction false} PlainHasNoMessages(steps: seq<Step>)
    requires PlainOnly(steps)
    ensures AgentMessages(steps) == ""
  {
    if steps != [] {
      PlainHasNoMessages(steps[..|steps| - 1]);
    }
  }

  lemma {:induction false} MessagesOfSteps(t: Trajectory, its: seq<Iteration>)
    requires PlainOnly(t.steps)
    ensures AgentMessages(StepsOf(t, its)) == IterationTexts(its)
  {
    hide PlainOnly, Texts;
    if its == [] {
      PlainHasNoMessages(t.steps);
    } else {
      var init := its[..|its| - 1];
      MessagesOfSteps(t, init);
      var steps := StepsOf(t, its);
      assert steps[..|steps| - 1] == StepsOf(t, init);
    }
  }

  function CountStarts(es: seq<AgentEvent>): nat {
    if es == [] then 0 else CountStarts(es[..|es| - 1]) + (if es[|es| - 1].IterationStart? then 1 else 0)
  }

  function CountEnds(es: seq<AgentEvent>): nat {
    if es == [] then 0 else CountEnds(es[..|es| - 1]) + (if es[|es| - 1].IterationEnd? then 1 else 0)
  }

  function OpenTexts(p: Parse): string {
    if p.open.None? then "" else Texts(p.open.value)
  }

  /** In a run without errors every text chunk falls into an iteration and no iteration is thrown away. */
  lemma {:induction false} CleanParse(s0: State, es: seq<AgentEvent>)
    requires s0.current.None? && ErrorFree(s0, es)
    ensures IterationTexts(Parsed(es).ended) + OpenTexts(Parsed(es)) == Texts(es)
    ensures |Parsed(es).ended| == CountEnds(es)
    ensures CountStarts(es) == CountEnds(es) + (if Parsed(es).open.Some? then 1 else 0)
  {
    hide StepOf, Thoughts, Calls, Results, FinalMetricsOf;
    if es != [] {
      var init, e := es[..|es| - 1], es[|es| - 1];
      CleanParse(s0, init);
      RecorderHolds(s0, init);
      CleanEvent(AfterAll(s0, init), Parsed(init), e);
      var p := Parsed(init);
      if p.open.Some? {
        assert (p.open.value + [e])[..|p.open.value|] == p.open.value;
        if e.IterationEnd? {
          assert (p.ended + [Iteration(p.open.value, Some(e.usage))])[..|p.ended|] == p.ended;
        }
      }
    }
  }

  lemma CleanEvent(s: State, p: Parse, e: AgentEvent)
    requires s.current.Some? <==> p.open.Some?
    requires After(s, e).1.None?
    ensures e.IterationStart? ==> p.open.None?
    ensures e.IterationEnd? || e.TextChunk? ==> p.open.Some?
  {
    hide StepOf, FinalMetricsOf;
  }

  lemma IterationTextsOf(es: seq<AgentEvent>)
    ensures IterationTexts(Iterations(es)) == IterationTexts(Parsed(es).ended) + OpenTexts(Parsed(es))
  {
    hide Texts;
    var p := Parsed(es);
    if p.open.Some? {
      assert Iterations(es)[..|p.ended|] == p.ended;
    } else {
      assert Iterations(es) == p.ended;
    }
  }

  /**
    In a run without errors, at every moment: the agent messages of the snapshot concatenate
    to the text chunks of the whole run, and its agent steps are the iterations that ended
    plus the open one, one for each that started.
   */
  lemma NothingIsLost(model: string, messages: seq<string>, user: string, es: seq<AgentEvent>)
    requires ErrorFree(Initial(model, messages, user), es)
    ensures AgentMessages(SnapshotOf(AfterAll(Initial(model, messages, user), es)).steps) == Texts(es)
    ensures |SnapshotOf(AfterAll(Initial(model, messages, user), es)).steps| == |messages| + 1 + CountStarts(es)
    ensures CountStarts(es) ==
            CountEnds(es) + (if AfterAll(Initial(model, messages, user), es).current.Some? then 1 else 0)
  {
    hide AfterAll, StepsOf, InitialSteps, Numbered, PlainOnly, SnapshotOf, Texts, IterationTexts, ErrorFree, Parsed,
         AgentMessages;
    var s0 := Initial(model, messages, user);
    InitialStepsPlain(messages, user);
    SnapshotSteps(s0, es);
    RecorderHolds(s0, es);
    MessagesOfSteps(s0.trajectory, Iterations(es));
    CleanParse(s0, es);
    IterationTextsOf(es);
  }

  // ---------------------------------------------------------------------------
  // Finishing
  // ---------------------------------------------------------------------------

  /** The run was declared done at some moment when no iteration was open. */
  predicate DoneAtRest(es: seq<AgentEvent>) {
    exists i :: 0 <= i < |es| && es[i].Done? && Parsed(es[..i]).open.None?
  }

  lemma {:induction false} CompletedIff(s0: State, es: seq<AgentEvent>)
    requires s0.current.None? && !s0.completed
    ensures AfterAll(s0, es).completed <==> DoneAtRest(es)
  {
    hide StepOf, AgentStepOf, FinalMetricsOf, Parsed;
    if es != [] {
      var init, e := es[..|es| - 1], es[|es| - 1];
      CompletedIff(s0, init);
      RecorderHolds(s0, init);
      if DoneAtRest(init) {
        var i :| 0 <= i < |init| && init[i].Done? && Parsed(init[..i]).open.None?;
        assert init[..i] == es[..i] && es[i].Done?;
      }
      if DoneAtRest(es) {
        var i :| 0 <= i < |es| && es[i].Done? && Parsed(es[..i]).open.None?;
        if i < |init| {
          assert init[..i] == es[..i] && init[i].Done?;
        }
      }
    }
  }

  /** A recorder finishes exactly when its run was declared done, no iteration is open, and the trajectory is valid. */
  lemma FinishesIff(model: string, messages: seq<string>, user: string, es: seq<AgentEvent>)
    ensures Finished(AfterAll(Initial(model, messages, user), es)).Ok? <==>
            && DoneAtRest(es) && Parsed(es).open.None?
            && |messages| + 1 + |Iterations(es)| <= U32_MAX
            && forall k :: 0 <= k < |Iterations(es)| ==> Answers(Iterations(es)[k])
  {
    hide Answers, AfterAll, Iterations, ValidationError, SnapshotOf, InitialSteps, DoneAtRest, Parsed;
    var s0 := Initial(model, messages, user);
    CompletedIff(s0, es);
    RecorderHolds(s0, es);
    SnapshotValidIff(model, messages, user, es);
  }

  // ---------------------------------------------------------------------------
  // What a snapshot says, field by field
  // ---------------------------------------------------------------------------

  /** The step an iteration becomes: everything it said, in order, and what its usage reports. */
  ghost predicate Tells(step: Step, model: string, it: Iteration) {
    && step.source == AgentSource && step.modelName == Some(model)
    && step.message == Texts(it.events)
    && (if Thoughts(it.events) == "" then step.reasoning == None else step.reasoning == Some(Thoughts(it.events)))
    && (if Calls(it.events) == [] then step.toolCalls == None else step.toolCalls == Some(Calls(it.events)))
    && (if Results(it.events) == [] then step.observation == None else step.observation == Some(Results(it.events)))
    && match it.usage
       case None => step.metrics == None && step.llmCallCount == None
       case Some(u) =>
         && step.llmCallCount == Some(1) && step.metrics.Some?
         && step.metrics.value.promptTokens == Capped(u.inputTokens + OrZero(u.cacheWrite) + OrZero(u.cacheRead))
         && step.metrics.value.completionTokens == u.outputTokens
         && step.metrics.value.cachedTokens == u.cacheRead
  }

  /** A step that only carries a message. */
  predicate Plain(step: Step, source: Source, message: string) {
    && step.source == source && step.message == message && !HasModelFields(step)
    && step.observation == None && step.llmCallCount == None
  }

  lemma StepTells(t: Trajectory, model: string, it: Iteration)
    requires t.modelName == Some(model)
    ensures Tells(StepOf(t, AgentStepOf(it.events), it.usage), model, it)
  {
    hide Texts, Thoughts, Calls, Results;
    if it.usage.Some? { TotalInputMeans(it.usage.value); }
  }

  lemma {:induction false} StepsTell(t: Trajectory, model: string, its: seq<Iteration>, k: nat)
    requires t.modelName == Some(model) && k < |its|
    ensures StepsOf(t, its)[..|t.steps|] == t.steps
    ensures Tells(StepsOf(t, its)[|t.steps| + k], model, its[k])
    decreases |its|
  {
    hide Tells, AgentStepOf, StepOf;
    var init, it := its[..|its| - 1], its[|its| - 1];
    var before := t.(steps := StepsOf(t, init));
    if k < |init| {
      StepsTell(t, model, init, k);
      assert StepsOf(t, its)[|t.steps| + k] == before.steps[|t.steps| + k];
    } else {
      StepTells(before, model, it);
    }
    StepsKeep(t, its);
  }

  lemma {:induction false} StepsKeep(t: Trajectory, its: seq<Iteration>)
    ensures StepsOf(t, its)[..|t.steps|] == t.steps
  {
    hide AgentStepOf, StepOf;
    if its != [] { StepsKeep(t, its[..|its| - 1]); }
  }

  lemma {:induction false} SystemStepsTell(messages: seq<string>, i: nat)
    requires i < |messages|
    ensures |SystemSteps(messages)| == |messages| && Plain(SystemSteps(messages)[i], System, messages[i])
  {
    SystemStepsPlain(messages[..|messages| - 1]);
    if i < |messages| - 1 {
      SystemStepsTell(messages[..|messages| - 1], i);
    }
  }

  lemma InitialStepsTell(messages: seq<string>, user: string, i: nat)
    requires i <= |messages|
    ensures |InitialSteps(messages, user)| == |messages| + 1
    ensures if i < |messages| then Plain(InitialSteps(messages, user)[i], System, messages[i])
            else Plain(InitialSteps(messages, user)[i], User, user)
  {
    hide SystemSteps;
    SystemStepsPlain(messages);
    if i < |messages| { SystemStepsTell(messages, i); }
  }

  /**
    A snapshot after any events, step by step: the system messages, the user message, and
    then for each iteration everything its events said, with its own usage.
   */
  lemma SnapshotTells(model: string, messages: seq<string>, user: string, es: seq<AgentEvent>, i: nat)
    requires i < |messages| + 1 + |Iterations(es)|
    ensures var steps := SnapshotOf(AfterAll(Initial(model, messages, user), es)).steps;
            && |steps| == |messages| + 1 + |Iterations(es)|
            && if i < |messages| then Plain(steps[i], System, messages[i])
               else if i == |messages| then Plain(steps[i], User, user)
               else Tells(steps[i], model, Iterations(es)[i - |messages| - 1])
  {
    hide AfterAll, StepsOf, Iterations, InitialSteps, SnapshotOf, Tells, Plain;
    var s0 := Initial(model, messages, user);
    InitialStepsPlain(messages, user);
    SnapshotSteps(s0, es);
    StepsKeep(s0.trajectory, Iterations(es));
    if i <= |messages| {
      InitialStepsTell(messages, user, i);
      var steps := StepsOf(s0.trajectory, Iterations(es));
      assert steps[i] == steps[..|s0.trajectory.steps|][i];
    } else {
      StepsTell(s0.trajectory, model, Iterations(es), i - |messages| - 1);
    }
  }

  /** `Done` at position `i` is the last one that came while no iteration was open. */
  ghost predicate LastDone(es: seq<AgentEvent>, i: nat) {
    && i < |es| && es[i].Done? && Parsed(es[..i]).open.None?
    && forall j :: i < j < |es| && es[j].Done? ==> Parsed(es[..j]).open.Some?
  }

  lemma AfterKeepsFinal(s: State, e: AgentEvent)
    ensures !(e.Done? && s.current.None?) ==> After(s, e).0.trajectory.finalMetrics == s.trajectory.finalMetrics
    ensures e.Done? && s.current.None? ==>
              After(s, e).0.trajectory.finalMetrics == Some(FinalMetricsOf(e.usage, s.trajectory.steps))
  {
    hide StepOf, FinalMetricsOf, Growth;
  }

  /** The final metrics are those of the last `Done` at rest, with the number of steps there were then. */
  lemma {:induction false} FinalMetricsMean(model: string, messages: seq<string>, user: string, es: seq<AgentEvent>,
                                            i: nat)
    requires LastDone(es, i)
    ensures var f := AfterAll(Initial(model, messages, user), es).trajectory.finalMetrics;
            var u := es[i].usage;
            && f.Some?
            && f.value.totalPromptTokens == Capped(u.inputTokens + OrZero(u.cacheWrite) + OrZero(u.cacheRead))
            && f.value.totalCompletionTokens == u.outputTokens
            && f.value.totalCachedTokens == u.cacheRead
            && f.value.totalSteps == if |messages| + 1 + |Parsed(es[..i]).ended| > U32_MAX then U32_MAX
                                     else |messages| + 1 + |Parsed(es[..i]).ended|
    decreases |es|
  {
    hide After, StepsOf, InitialSteps, Parsed;
    var s0 := Initial(model, messages, user);
    var init, e := es[..|es| - 1], es[|es| - 1];
    assert es == init + [e];
    var s := AfterAll(s0, init);
    RecorderHolds(s0, init);
    AfterKeepsFinal(s, e);
    if i == |init| {
      assert es[..i] == init;
      InitialStepsPlain(messages, user);
      TotalInputMeans(e.usage);
    } else {
      assert init[..i] == es[..i];
      assert es[..|init|] == init;
      assert e.Done? ==> Parsed(init).open.Some?;
      forall j | i < j < |init| && init[j].Done? ensures Parsed(init[..j]).open.Some? {
        assert init[..j] == es[..j] && es[j].Done?;
      }
      FinalMetricsMean(model, messages, user, init, i);
    }
  }

  /** The error of an event, from the event and whether an iteration is open. */
  function RefusalOf(open: bool, e: AgentEvent): Option<RecorderError> {
    match e
    case IterationStart => if open then Some(IterationStartedTwice) else None
    case IterationEnd(_) => if open then None else Some(EndedBeforeStart)
    case Done(_) => if open then Some(DoneBeforeEnd) else None
    case Error(error) => Some(AgentFailed(error))
    case Untracked => None
    case ToolCallStart(_, _, input) =>
      if !input.Object? then Some(NonObjectToolArguments) else if open then None else Some(OutsideIteration)
    case _ => if open then None else Some(OutsideIteration)
  }

  /** Every event is answered by the iterations recorded so far, whatever went wrong before. */
  lemma RecordAnswers(model: string, messages: seq<string>, user: string, es: seq<AgentEvent>, e: AgentEvent)
    ensures After(AfterAll(Initial(model, messages, user), es), e).1 == RefusalOf(Parsed(es).open.Some?, e)
  {
    hide StepOf, FinalMetricsOf, Growth, Parsed, InitialSteps, StepsOf, AgentStepOf, AfterAll;
    RecorderHolds(Initial(model, messages, user), es);
  }
}
