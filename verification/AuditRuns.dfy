/**
  Audited invocations. Any number of internal invocations and external leases run side by
  side; the audit sink may fail at any write, and an internal invocation may be abandoned
  while its handler runs. The trace is the order in which writes, handler starts and
  answers happen.
 */
module AuditRuns {
  import opened Common
  import opened Capability

  datatype AuditPhase = AuthorizedPhase | CompletedPhase

  datatype Outcome = Allowed | Succeeded | Failed

  datatype AuditRecord = AuditRecord(
    invocationId: string,
    phase: AuditPhase,
    actor: Actor,
    capability: string,
    capabilityRevision: string,
    policyRevision: U64,
    ownerDigest: string,
    outcome: Outcome)

  /** One call of the sink: durable, or failed with the record absent or present all the same. */
  datatype Write = Durable | FailedAbsent | FailedPresent

  datatype Answer = Success | Failure(error: CapabilityError)

  /** The terminal record an invocation with this base record ends with. */
  function Concluded(base: AuditRecord, succeeded: bool): AuditRecord {
    base.(phase := CompletedPhase, outcome := if succeeded then Succeeded else Failed)
  }

  /** A terminal record: completed, with an outcome, and otherwise the authorization it belongs to. */
  predicate Concludes(authorized: AuditRecord, terminal: AuditRecord, outcome: Outcome) {
    && terminal.phase == CompletedPhase && terminal.outcome == outcome
    && terminal.invocationId == authorized.invocationId
    && terminal.actor == authorized.actor
    && terminal.capability == authorized.capability
    && terminal.capabilityRevision == authorized.capabilityRevision
    && terminal.policyRevision == authorized.policyRevision
    && terminal.ownerDigest == authorized.ownerDigest
  }

  lemma ConcludedConcludes(base: AuditRecord, succeeded: bool)
    ensures Concludes(base, Concluded(base, succeeded), if succeeded then Succeeded else Failed)
  {
  }

  datatype Event =
    | Wrote(task: nat, record: AuditRecord, write: Write)
    | Started(task: nat)
    | Answered(task: nat, answer: Answer)

  datatype Phase =
    | Refused(error: CapabilityError)
    | Ready
    | Unaudited(write: Write)
    // Internal invocations.
    | Recorded
    | Running
    | Executed(answer: Answer)
    | Returned(answer: Answer, write: Write)
    | Abandoned
    // External leases: the terminal record still owed, and how `finish` went if it was called.
    | Leased(terminal: Option<AuditRecord>, finish: Option<Finish>)
    | Gone(finish: Option<Finish>, dropped: Option<Write>)

  datatype Finish = Finish(succeeded: bool, write: Write)

  datatype Call = Call(snapshot: Snapshot, request: Request, external: bool, id: string, revision: string)

  datatype Task = Task(call: Call, base: AuditRecord, phase: Phase)

  datatype World = World(tasks: seq<Task>, trace: seq<Event>)

  predicate StartsWithSha256(s: string) {
    |s| >= 7 && s[..7] == "sha256:"
  }

  /** Why a call is refused before anything is written, if it is. */
  function Refusal(c: Call): Option<CapabilityError> {
    if c.request.name !in c.snapshot.registry.capabilities then Some(CapabilityUnavailable)
    else if !Granted(c.snapshot, c.request) then Some(AccessDenied)
    else if c.external && (Blank(c.id) || !StartsWithSha256(c.revision)) then Some(AccessDenied)
    else None
  }

  function BaseOf(d: Digests, c: Call): AuditRecord {
    var capabilities := c.snapshot.registry.capabilities;
    AuditRecord(
      c.id,
      AuthorizedPhase,
      c.snapshot.registry.actor,
      if c.request.name in capabilities then capabilities[c.request.name].name else "",
      if c.external then c.revision else c.snapshot.registry.revision,
      c.snapshot.policyRevision,
      d.ofOwner(c.snapshot.owner),
      Allowed)
  }

  /** The authorization record of a granted call, field by field. */
  predicate Authorizes(d: Digests, c: Call, r: AuditRecord) {
    var s := c.snapshot;
    && r.phase == AuthorizedPhase && r.outcome == Allowed
    && r.invocationId == c.id
    && r.actor == s.registry.actor
    && c.request.name in s.registry.capabilities && r.capability == s.registry.capabilities[c.request.name].name
    && r.capabilityRevision == (if c.external then c.revision else s.registry.revision)
    && r.policyRevision == s.policyRevision
    && r.ownerDigest == d.ofOwner(s.owner)
  }

  lemma BaseAuthorizes(d: Digests, c: Call)
    requires Refusal(c).None?
    ensures Authorizes(d, c, BaseOf(d, c)) && Granted(c.snapshot, c.request)
    ensures c.external ==> !Blank(c.id) && StartsWithSha256(c.revision)
  {
    hide Granted, Blank;
  }

  /** What is refused, and with which error. */
  lemma RefusalIs(c: Call)
    ensures Refusal(c) == Some(CapabilityUnavailable) <==> c.request.name !in c.snapshot.registry.capabilities
    ensures Refusal(c).None? <==>
            Granted(c.snapshot, c.request) && (c.external ==> !Blank(c.id) && StartsWithSha256(c.revision))
    ensures Refusal(c) in {None, Some(CapabilityUnavailable), Some(AccessDenied)}
  {
    hide Blank;
  }

  /** In a constructed runtime the record names the capability the call asked for. */
  lemma AuthorizedNameIsRequested(d: Digests, worker: seq<Definition>, guardian: seq<Definition>, rt: Runtime, c: Call)
    requires Constructed(d, worker, guardian, rt) && Issued(rt, c.snapshot) && Refusal(c).None?
    ensures BaseOf(d, c).capability == c.request.name
  {
    hide Issued, Blank, Granted, Built;
    RefusalIs(c);
    IssuedMeans(d, worker, guardian, rt, c.snapshot);
    GrantedIsRegistered(c.snapshot, c.request);
    BuiltIff(d, worker);
    BuiltIff(d, guardian);
  }

  lemma GrantedIsRegistered(s: Snapshot, r: Request)
    requires Granted(s, r)
    ensures r.name in s.registry.capabilities
  {
  }

  function AnswerOf(write: Write, answer: Answer): Answer {
    if write == Durable then answer else Failure(ExecutionOutcomeUncertain)
  }

  // ---------------------------------------------------------------------------
  // Leases
  // ---------------------------------------------------------------------------

  /** The record `finish` writes, from the one the lease owes. */
  function FinishRecord(terminal: AuditRecord, succeeded: bool): AuditRecord {
    terminal.(outcome := if succeeded then Succeeded else Failed)
  }

  /** The attempts among some events, as the sink sees them. */
  function Writes(events: seq<Event>): seq<(AuditRecord, Write)> {
    if events == [] then []
    else (if events[0].Wrote? then [(events[0].record, events[0].write)] else []) + Writes(events[1..])
  }

  /** The audit sink and every record it was asked to write. */
  class AuditSink {
    var attempts: seq<(AuditRecord, Write)>

    constructor ()
      ensures attempts == []
    {
      attempts := [];
    }

    method Record(record: AuditRecord, write: Write) returns (ok: bool)
      modifies this
      ensures attempts == old(attempts) + [(record, write)]
      ensures ok == (write == Durable)
    {
      attempts := attempts + [(record, write)];
      ok := write == Durable;
    }
  }

  /** `ExternalCapabilityInvocation`. */
  class ExternalCapabilityInvocation {
    const audit: AuditSink
    var terminal: Option<AuditRecord>

    constructor (audit: AuditSink, base: AuditRecord)
      ensures this.audit == audit && terminal == Some(Concluded(base, false))
    {
      this.audit := audit;
      this.terminal := Some(Concluded(base, false));
    }

    /** The destructor. */
    method Drop(write: Write)
      modifies this, audit
      ensures terminal == None
      ensures audit.attempts == old(audit.attempts) + DropAttempts(old(terminal), write)
    {
      if terminal.Some? {
        var owed := terminal.value;
        terminal := None;
        var _ := audit.Record(owed, write);
      } else {
        terminal := None;
      }
    }

    /** `finish` takes the lease by value, so its destructor runs at the end. */
    method FinishAndDrop(succeeded: bool, write: Write, dropWrite: Write) returns (answer: Answer)
      modifies this, audit
      ensures terminal == None
      ensures audit.attempts == old(audit.attempts) + FinishAttempts(old(terminal), succeeded, write)
      ensures answer == if old(terminal).Some? then AnswerOf(write, Success) else Failure(ExecutionOutcomeUncertain)
    {
      if terminal.None? {
        Drop(dropWrite);
        return Failure(ExecutionOutcomeUncertain);
      }
      var owed := terminal.value;
      terminal := None;
      owed := owed.(outcome := if succeeded then Succeeded else Failed);
      var ok := audit.Record(owed, write);
      Drop(dropWrite);
      answer := if ok then Success else Failure(ExecutionOutcomeUncertain);
    }
  }

  /** `authorize_external`. */
  method AuthorizeExternal(d: Digests, c: Call, audit: AuditSink, write: Write, ghost t: nat)
    returns (r: Result<ExternalCapabilityInvocation, CapabilityError>)
    requires c.external
    modifies audit
    ensures audit.attempts == old(audit.attempts) + Writes(History(t, Task(c, BaseOf(d, c), AuthorizedAs(d, c, write))))
    ensures Refusal(c).Some? ==> r == Err(Refusal(c).value) && audit.attempts == old(audit.attempts)
    ensures Refusal(c).None? ==> audit.attempts == old(audit.attempts) + [(BaseOf(d, c), write)]
    ensures Refusal(c).None? && write != Durable ==> r == Err(AuditUnavailable)
    ensures Refusal(c).None? && write == Durable ==>
              && r.Ok? && fresh(r.value) && r.value.audit == audit
              && r.value.terminal == Some(Concluded(BaseOf(d, c), false))
  {
    hide Refusal, History, Writes;
    HistoryWrites(t, Task(c, BaseOf(d, c), AuthorizedAs(d, c, write)));
    if Refusal(c).Some? {
      return Err(Refusal(c).value);
    }
    var base := BaseOf(d, c);
    var ok := audit.Record(base, write);
    if !ok {
      return Err(AuditUnavailable);
    }
    var lease := new ExternalCapabilityInvocation(audit, base);
    r := Ok(lease);
  }

  /** `invoke`, given how its two writes and its handler turn out. */
  method Invoke(d: Digests, c: Call, audit: AuditSink, write: Write, handler: Answer, lastWrite: Write, ghost t: nat)
    returns (answer: Answer)
    requires !c.external
    modifies audit
    ensures var own := History(t, Task(c, BaseOf(d, c), InvokedPhase(c, write, handler, lastWrite)));
            && audit.attempts == old(audit.attempts) + Writes(own)
            && own != [] && own[|own| - 1] == Answered(t, answer)
    ensures Refusal(c).Some? ==> answer == Failure(Refusal(c).value) && audit.attempts == old(audit.attempts)
    ensures Refusal(c).None? && write != Durable ==>
              answer == Failure(AuditUnavailable) && audit.attempts == old(audit.attempts) + [(BaseOf(d, c), write)]
    ensures Refusal(c).None? && write == Durable ==>
              && answer == AnswerOf(lastWrite, handler)
              && audit.attempts == old(audit.attempts) +
                   [(BaseOf(d, c), Durable), (Concluded(BaseOf(d, c), handler.Success?), lastWrite)]
  {
    hide Refusal, Writes;
    HistoryWrites(t, Task(c, BaseOf(d, c), InvokedPhase(c, write, handler, lastWrite)));
    if Refusal(c).Some? {
      return Failure(Refusal(c).value);
    }
    var base := BaseOf(d, c);
    var recorded := audit.Record(base, write);
    if !recorded {
      return Failure(AuditUnavailable);
    }
    var concluded := audit.Record(Concluded(base, handler.Success?), lastWrite);
    answer := if concluded then handler else Failure(ExecutionOutcomeUncertain);
  }

  // ---------------------------------------------------------------------------
  // Steps
  // ---------------------------------------------------------------------------

  datatype Step =
    | Begin(call: Call)
    | RecordAuthorized(t: nat, write: Write)
    | StartHandler(t: nat)
    | HandlerReturns(t: nat, answer: Answer)
    | Abandon(t: nat)
    | RecordOutcome(t: nat, write: Write)
    | FinishLease(t: nat, succeeded: bool, write: Write)
    | DropLease(t: nat, write: Write)

  predicate TaskEnabled(task: Task, s: Step) {
    match s
    case Begin(_) => false
    case RecordAuthorized(_, _) => task.phase.Ready?
    case StartHandler(_) => task.phase.Recorded?
    case HandlerReturns(_, _) => task.phase.Running?
    case Abandon(_) => task.phase.Running?
    case RecordOutcome(_, _) => task.phase.Executed?
    case FinishLease(_, _, _) => task.phase.Leased? && task.phase.finish.None?
    case DropLease(_, _) => task.phase.Leased?
  }

  ghost predicate Enabled(rt: Runtime, w: World, s: Step) {
    match s
    case Begin(call) => Issued(rt, call.snapshot)
    case _ => s.t < |w.tasks| && TaskEnabled(w.tasks[s.t], s)
  }

  /** What one step makes of its task, and what it adds to the trace. */
  function Advance(task: Task, s: Step): (Phase, seq<Event>)
    requires TaskEnabled(task, s)
  {
    match s
    case RecordAuthorized(t, write) =>
      if write != Durable then
        (Unaudited(write), [Wrote(t, task.base, write), Answered(t, Failure(AuditUnavailable))])
      else if task.call.external then
        (Leased(Some(Concluded(task.base, false)), None), [Wrote(t, task.base, write)])
      else
        (Recorded, [Wrote(t, task.base, write)])
    case StartHandler(t) => (Running, [Started(t)])
    case HandlerReturns(t, answer) => (Executed(answer), [])
    case Abandon(t) => (Abandoned, [])
    case RecordOutcome(t, write) =>
      var answer := task.phase.answer;
      (Returned(answer, write),
       [Wrote(t, Concluded(task.base, answer.Success?), write), Answered(t, AnswerOf(write, answer))])
    case FinishLease(t, succeeded, write) =>
      (match task.phase.terminal
       case None => (Leased(None, Some(Finish(succeeded, write))), [Answered(t, Failure(ExecutionOutcomeUncertain))])
       case Some(terminal) =>
         (Leased(None, Some(Finish(succeeded, write))),
          [Wrote(t, FinishRecord(terminal, succeeded), write), Answered(t, AnswerOf(write, Success))]))
    case DropLease(t, write) =>
      (match task.phase.terminal
       case None => (Gone(task.phase.finish, None), [])
       case Some(terminal) => (Gone(task.phase.finish, Some(write)), [Wrote(t, terminal, write)]))
  }

  function BeginTask(d: Digests, call: Call): Task {
    Task(call, BaseOf(d, call), if Refusal(call).Some? then Refused(Refusal(call).value) else Ready)
  }

  function BeginEvents(t: nat, call: Call): seq<Event> {
    if Refusal(call).Some? then [Answered(t, Failure(Refusal(call).value))] else []
  }

  ghost function Do(d: Digests, rt: Runtime, w: World, s: Step): World
    requires Enabled(rt, w, s)
  {
    match s
    case Begin(call) => World(w.tasks + [BeginTask(d, call)], w.trace + BeginEvents(|w.tasks|, call))
    case _ =>
      var (phase, events) := Advance(w.tasks[s.t], s);
      World(w.tasks[s.t := w.tasks[s.t].(phase := phase)], w.trace + events)
  }

  ghost predicate Runs(d: Digests, rt: Runtime, w: World, steps: seq<Step>)
    decreases |steps|
  {
    steps == [] || (Enabled(rt, w, steps[0]) && Runs(d, rt, Do(d, rt, w, steps[0]), steps[1..]))
  }

  ghost function Run(d: Digests, rt: Runtime, w: World, steps: seq<Step>): World
    requires Runs(d, rt, w, steps)
    decreases |steps|
  {
    if steps == [] then w else Run(d, rt, Do(d, rt, w, steps[0]), steps[1..])
  }

  // ---------------------------------------------------------------------------
  // The trace of one task
  // ---------------------------------------------------------------------------

  function Proj(trace: seq<Event>, t: nat): seq<Event> {
    if trace == [] then []
    else
      var before, last := Proj(trace[..|trace| - 1], t), trace[|trace| - 1];
      if last.task == t then before + [last] else before
  }

  lemma {:induction false} ProjAppend(trace: seq<Event>, more: seq<Event>, t: nat)
    ensures Proj(trace + more, t) == Proj(trace, t) + Proj(more, t)
    decreases |more|
  {
    if more == [] {
      assert trace + more == trace;
    } else {
      var init, last := more[..|more| - 1], more[|more| - 1];
      ProjAppend(trace, init, t);
      assert (trace + more)[..|trace + more| - 1] == trace + init;
    }
  }

  ghost predicate Own(events: seq<Event>, t: nat) {
    forall i :: 0 <= i < |events| ==> events[i].task == t
  }

  lemma {:induction false} ProjOwn(events: seq<Event>, t: nat, u: nat)
    requires Own(events, t)
    ensures Proj(events, u) == if t == u then events else []
  {
    if events != [] {
      var init := events[..|events| - 1];
      ProjOwn(init, t, u);
      assert events == init + [events[|events| - 1]];
    }
  }

  lemma {:induction false} ProjMonotone(trace: seq<Event>, t: nat, i: nat, j: nat)
    requires i <= j <= |trace|
    ensures |Proj(trace[..i], t)| <= |Proj(trace[..j], t)|
    decreases j
  {
    if i < j {
      ProjMonotone(trace, t, i, j - 1);
      assert trace[..j][..|trace[..j]| - 1] == trace[..j - 1];
    }
  }

  /** An event of a task sits in the task's own trace, after those that came before it. */
  lemma {:induction false} ProjAt(trace: seq<Event>, t: nat, i: nat)
    requires i < |trace| && trace[i].task == t
    ensures |Proj(trace[..i], t)| < |Proj(trace, t)| && Proj(trace, t)[|Proj(trace[..i], t)|] == trace[i]
    decreases |trace|
  {
    var init := trace[..|trace| - 1];
    if i < |trace| - 1 {
      ProjAt(init, t, i);
      assert init[..i] == trace[..i];
    } else {
      assert trace[..i] == init;
    }
  }

  /** Every event of a task's own trace sits in the trace. */
  lemma {:induction false} PositionOf(trace: seq<Event>, t: nat, a: nat) returns (i: nat)
    requires a < |Proj(trace, t)|
    ensures i < |trace| && trace[i] == Proj(trace, t)[a] && |Proj(trace[..i], t)| == a
    decreases |trace|
  {
    var init := trace[..|trace| - 1];
    if a < |Proj(init, t)| {
      i := PositionOf(init, t, a);
      assert init[..i] == trace[..i];
    } else {
      i := |trace| - 1;
    }
  }

  /** An earlier event of a task's own trace comes earlier in the trace. */
  lemma EarlierEvent(trace: seq<Event>, t: nat, a: nat, i: nat) returns (j: nat)
    requires i <= |trace| && a < |Proj(trace[..i], t)|
    ensures a < |Proj(trace, t)| && j < i && trace[j] == Proj(trace, t)[a] && |Proj(trace[..j], t)| == a
  {
    ProjMonotone(trace, t, i, |trace|);
    assert trace[..|trace|] == trace;
    j := PositionOf(trace, t, a);
    if i <= j {
      ProjMonotone(trace, t, i, j);
    }
  }

  // ---------------------------------------------------------------------------
  // The invariant
  // ---------------------------------------------------------------------------

  /** The own trace of a task, told by its phase. */
  function History(t: nat, task: Task): seq<Event> {
    var recorded := Wrote(t, task.base, Durable);
    match task.phase
    case Refused(error) => [Answered(t, Failure(error))]
    case Ready => []
    case Unaudited(write) => [Wrote(t, task.base, write), Answered(t, Failure(AuditUnavailable))]
    case Recorded => [recorded]
    case Running => [recorded, Started(t)]
    case Executed(_) => [recorded, Started(t)]
    case Abandoned => [recorded, Started(t)]
    case Returned(answer, write) =>
      [recorded, Started(t), Wrote(t, Concluded(task.base, answer.Success?), write),
       Answered(t, AnswerOf(write, answer))]
    case Leased(_, None) => [recorded]
    case Leased(_, Some(f)) => FinishedHistory(t, task.base, f)
    case Gone(Some(f), _) => FinishedHistory(t, task.base, f)
    case Gone(None, Some(write)) => [recorded, Wrote(t, Concluded(task.base, false), write)]
    case Gone(None, None) => [recorded]
  }

  function FinishedHistory(t: nat, base: AuditRecord, f: Finish): seq<Event> {
    [Wrote(t, base, Durable), Wrote(t, Concluded(base, f.succeeded), f.write), Answered(t, AnswerOf(f.write, Success))]
  }

  /** What a task's phase says about its call and its lease. */
  ghost predicate WellFormed(d: Digests, rt: Runtime, task: Task) {
    && Issued(rt, task.call.snapshot)
    && task.base == BaseOf(d, task.call)
    && match task.phase
       case Refused(error) => Refusal(task.call) == Some(error)
       case Ready => Refusal(task.call).None?
       case Unaudited(write) => Refusal(task.call).None? && write != Durable
       case Leased(terminal, finish) =>
         && Refusal(task.call).None? && task.call.external
         && terminal == if finish.None? then Some(Concluded(task.base, false)) else None
       case Gone(finish, dropped) =>
         Refusal(task.call).None? && task.call.external && (finish.Some? <==> dropped.None?)
       case _ => Refusal(task.call).None? && !task.call.external
  }

  ghost predicate TaskInv(d: Digests, rt: Runtime, w: World, t: nat)
    requires t < |w.tasks|
  {
    WellFormed(d, rt, w.tasks[t]) && Proj(w.trace, t) == History(t, w.tasks[t])
  }

  ghost predicate Inv(d: Digests, rt: Runtime, w: World) {
    && (forall t: nat :: t < |w.tasks| ==> TaskInv(d, rt, w, t))
    && (forall i :: 0 <= i < |w.trace| ==> w.trace[i].task < |w.tasks|)
  }

  const EMPTY: World := World([], [])

  /** A step adds to its task's own trace exactly what the new phase tells. */
  lemma AdvanceKeeps(d: Digests, rt: Runtime, task: Task, s: Step)
    requires !s.Begin? && TaskEnabled(task, s) && WellFormed(d, rt, task)
    ensures var (phase, events) := Advance(task, s);
            && WellFormed(d, rt, task.(phase := phase))
            && Own(events, s.t)
            && History(s.t, task.(phase := phase)) == History(s.t, task) + events
  {
    hide BaseOf, Refusal, Issued;
  }

  lemma TaskStep(d: Digests, rt: Runtime, w: World, s: Step, u: nat)
    requires Inv(d, rt, w) && Enabled(rt, w, s) && !s.Begin? && u < |w.tasks|
    ensures TaskInv(d, rt, Do(d, rt, w, s), u)
  {
    hide WellFormed, History, Advance, TaskEnabled, Proj;
    var t := s.t;
    assert TaskInv(d, rt, w, t) && TaskInv(d, rt, w, u);
    AdvanceKeeps(d, rt, w.tasks[t], s);
    var events := Advance(w.tasks[t], s).1;
    ProjAppend(w.trace, events, u);
    ProjOwn(events, t, u);
  }

  lemma {:induction false} NoEvents(trace: seq<Event>, t: nat)
    requires forall i :: 0 <= i < |trace| ==> trace[i].task < t
    ensures Proj(trace, t) == []
  {
    if trace != [] {
      NoEvents(trace[..|trace| - 1], t);
    }
  }

  lemma BeginKeeps(d: Digests, rt: Runtime, call: Call, t: nat)
    requires Issued(rt, call.snapshot)
    ensures WellFormed(d, rt, BeginTask(d, call)) && Own(BeginEvents(t, call), t)
    ensures History(t, BeginTask(d, call)) == BeginEvents(t, call)
  {
    hide BaseOf, Refusal, Issued;
  }

  lemma BeginStep(d: Digests, rt: Runtime, w: World, s: Step, u: nat)
    requires Inv(d, rt, w) && Enabled(rt, w, s) && s.Begin? && u <= |w.tasks|
    ensures TaskInv(d, rt, Do(d, rt, w, s), u)
  {
    hide WellFormed, History, Proj, BeginTask, BeginEvents, Issued;
    var t := |w.tasks|;
    BeginKeeps(d, rt, s.call, t);
    ProjAppend(w.trace, BeginEvents(t, s.call), u);
    ProjOwn(BeginEvents(t, s.call), t, u);
    if u < t {
      assert TaskInv(d, rt, w, u);
    } else {
      NoEvents(w.trace, t);
    }
  }

  lemma StepOwners(d: Digests, rt: Runtime, w: World, s: Step)
    requires Inv(d, rt, w) && Enabled(rt, w, s)
    ensures forall i :: 0 <= i < |Do(d, rt, w, s).trace| ==> Do(d, rt, w, s).trace[i].task < |Do(d, rt, w, s).tasks|
  {
    hide WellFormed, History, Proj, BeginTask, BeginEvents, Issued, Advance;
    if s.Begin? {
      BeginKeeps(d, rt, s.call, |w.tasks|);
    } else {
      assert TaskInv(d, rt, w, s.t);
      AdvanceKeeps(d, rt, w.tasks[s.t], s);
    }
  }

  lemma StepKeepsInv(d: Digests, rt: Runtime, w: World, s: Step)
    requires Inv(d, rt, w) && Enabled(rt, w, s)
    ensures Inv(d, rt, Do(d, rt, w, s))
  {
    hide TaskInv;
    StepOwners(d, rt, w, s);
    var next := Do(d, rt, w, s);
    forall u: nat | u < |next.tasks| ensures TaskInv(d, rt, next, u) {
      if s.Begin? {
        BeginStep(d, rt, w, s, u);
      } else {
        TaskStep(d, rt, w, s, u);
      }
    }
  }

  lemma {:induction false} RunKeepsInv(d: Digests, rt: Runtime, w: World, steps: seq<Step>)
    requires Inv(d, rt, w) && Runs(d, rt, w, steps)
    ensures Inv(d, rt, Run(d, rt, w, steps))
    decreases |steps|
  {
    hide Inv, Do, Enabled;
    if steps != [] {
      StepKeepsInv(d, rt, w, steps[0]);
      RunKeepsInv(d, rt, Do(d, rt, w, steps[0]), steps[1..]);
    }
  }

  lemma ReachableInv(d: Digests, rt: Runtime, steps: seq<Step>)
    requires Runs(d, rt, EMPTY, steps)
    ensures Inv(d, rt, Run(d, rt, EMPTY, steps))
  {
    RunKeepsInv(d, rt, EMPTY, steps);
  }

  // ---------------------------------------------------------------------------
  // What every run promises
  // ---------------------------------------------------------------------------

  ghost predicate WroteBefore(trace: seq<Event>, i: nat, e: Event) {
    i <= |trace| && exists j :: 0 <= j < i && trace[j] == e
  }

  /** Both happened before position `i`, the first before the second. */
  ghost predicate WroteInOrder(trace: seq<Event>, i: nat, first: Event, second: Event) {
    i <= |trace| && exists j, k :: 0 <= j < k < i && trace[j] == first && trace[k] == second
  }

  /** No handler starts before the record of its authorization is durable, and none without being granted. */
  lemma HandlerOnlyAfterAudit(d: Digests, rt: Runtime, steps: seq<Step>, i: nat)
    requires Runs(d, rt, EMPTY, steps)
    requires i < |Run(d, rt, EMPTY, steps).trace| && Run(d, rt, EMPTY, steps).trace[i].Started?
    ensures var w := Run(d, rt, EMPTY, steps);
            var t := w.trace[i].task;
            && t < |w.tasks|
            && WroteBefore(w.trace, i, Wrote(t, w.tasks[t].base, Durable))
            && Authorizes(d, w.tasks[t].call, w.tasks[t].base)
            && Granted(w.tasks[t].call.snapshot, w.tasks[t].call.request)
  {
    hide Runs, Run, Proj, Granted, BaseOf, Issued, Refusal, Authorizes;
    ReachableInv(d, rt, steps);
    var w := Run(d, rt, EMPTY, steps);
    var t := w.trace[i].task;
    assert TaskInv(d, rt, w, t);
    ProjAt(w.trace, t, i);
    assert |Proj(w.trace[..i], t)| == 1;
    BaseAuthorizes(d, w.tasks[t].call);
    var j := EarlierEvent(w.trace, t, 0, i);
  }

  /**
    An internal invocation that answers with success has its authorization and then its
    success durably recorded, in that order, in records that differ in phase and outcome only.
   */
  lemma SuccessMeansAudited(d: Digests, rt: Runtime, steps: seq<Step>, i: nat)
    requires Runs(d, rt, EMPTY, steps)
    requires i < |Run(d, rt, EMPTY, steps).trace|
    requires Run(d, rt, EMPTY, steps).trace[i].Answered? && Run(d, rt, EMPTY, steps).trace[i].answer == Success
    requires var w := Run(d, rt, EMPTY, steps);
             w.trace[i].task < |w.tasks| && !w.tasks[w.trace[i].task].call.external
    ensures var w := Run(d, rt, EMPTY, steps);
            var t := w.trace[i].task;
            exists authorized, terminal ::
              && Authorizes(d, w.tasks[t].call, authorized) && Concludes(authorized, terminal, Succeeded)
              && WroteInOrder(w.trace, i, Wrote(t, authorized, Durable), Wrote(t, terminal, Durable))
  {
    hide Runs, Run, Proj, Granted, BaseOf, Issued, Refusal, Authorizes, Concludes;
    ReachableInv(d, rt, steps);
    var w := Run(d, rt, EMPTY, steps);
    var t := w.trace[i].task;
    assert TaskInv(d, rt, w, t);
    ProjAt(w.trace, t, i);
    assert |Proj(w.trace[..i], t)| == 3;
    var k := EarlierEvent(w.trace, t, 2, i);
    var j := EarlierEvent(w.trace, t, 0, k);
    BaseAuthorizes(d, w.tasks[t].call);
    ConcludedConcludes(w.tasks[t].base, true);
    var base := w.tasks[t].base;
    assert WroteInOrder(w.trace, i, Wrote(t, base, Durable), Wrote(t, Concluded(base, true), Durable));
  }

  predicate IsTerminal(e: Event) {
    e.Wrote? && e.record.phase == CompletedPhase
  }

  function Terminals(events: seq<Event>): seq<Event> {
    if events == [] then []
    else (if IsTerminal(events[0]) then [events[0]] else []) + Terminals(events[1..])
  }

  /** How a lease ended: finished with an outcome, or dropped, which counts as failed. */
  function EndOf(phase: Phase): Option<Finish>
    requires phase.Leased? || phase.Gone?
  {
    match phase
    case Leased(_, finish) => finish
    case Gone(Some(f), _) => Some(f)
    case Gone(None, Some(write)) => Some(Finish(false, write))
    case Gone(None, None) => None
  }

  /**
    Every lease attempts exactly one terminal write over its life, whether it is finished,
    dropped, or finished and then dropped: none while it is held, one from then on, and that
    one matches the durable authorization in everything but phase and outcome.
   */
  lemma LeaseWritesOnce(d: Digests, rt: Runtime, steps: seq<Step>, t: nat)
    requires Runs(d, rt, EMPTY, steps)
    requires var w := Run(d, rt, EMPTY, steps);
             t < |w.tasks| && (w.tasks[t].phase.Leased? || w.tasks[t].phase.Gone?)
    ensures var w := Run(d, rt, EMPTY, steps);
            var task := w.tasks[t];
            var own := Proj(w.trace, t);
            && (task.phase.Gone? ==> EndOf(task.phase).Some?)
            && own != [] && own[0].Wrote? && own[0].write == Durable && Authorizes(d, task.call, own[0].record)
            && match EndOf(task.phase)
               case None => Terminals(own) == []
               case Some(f) =>
                 && |Terminals(own)| == 1 && Terminals(own)[0].Wrote? && Terminals(own)[0].write == f.write
                 && Concludes(own[0].record, Terminals(own)[0].record, if f.succeeded then Succeeded else Failed)
  {
    hide Runs, Run, Proj, Granted, BaseOf, Issued, Refusal, Terminals, Authorizes, Concludes;
    ReachableInv(d, rt, steps);
    var w := Run(d, rt, EMPTY, steps);
    assert TaskInv(d, rt, w, t);
    var task := w.tasks[t];
    BaseIsNotTerminal(d, t, task.call);
    BaseAuthorizes(d, task.call);
    ConcludedConcludes(task.base, true);
    ConcludedConcludes(task.base, false);
    var first := Wrote(t, task.base, Durable);
    if EndOf(task.phase).None? {
      assert History(t, task) == [first] + [];
      TerminalsOfTwo(first, []);
    } else {
      var f := EndOf(task.phase).value;
      var conclusion := Wrote(t, Concluded(task.base, f.succeeded), f.write);
      var answer := Answered(t, AnswerOf(f.write, Success));
      TerminalsOfTwo(first, [conclusion]);
      TerminalsOfTwo(first, [conclusion, answer]);
      assert History(t, task) == [first] + [conclusion] || History(t, task) == [first] + [conclusion, answer];
      assert [conclusion, answer][..1] == [conclusion] == [conclusion][..1];
    }
  }

  lemma BaseIsNotTerminal(d: Digests, t: nat, call: Call)
    ensures !IsTerminal(Wrote(t, BaseOf(d, call), Durable))
  {
  }

  lemma TerminalsOfTwo(first: Event, rest: seq<Event>)
    requires !IsTerminal(first)
    requires |rest| <= 2 && (|rest| >= 1 ==> IsTerminal(rest[0])) && (|rest| == 2 ==> !IsTerminal(rest[1]))
    ensures Terminals([first] + rest) == rest[..if |rest| == 0 then 0 else 1]
  {
    assert ([first] + rest)[1..] == rest;
    if |rest| >= 1 {
      assert Terminals(rest[1..]) == [];
    }
  }

  /** An abandoned invocation leaves its authorization on record and never writes an outcome. */
  lemma AbandonedHasNoOutcome(d: Digests, rt: Runtime, steps: seq<Step>, t: nat)
    requires Runs(d, rt, EMPTY, steps)
    requires t < |Run(d, rt, EMPTY, steps).tasks| && Run(d, rt, EMPTY, steps).tasks[t].phase.Abandoned?
    ensures var w := Run(d, rt, EMPTY, steps);
            var own := Proj(w.trace, t);
            && |own| == 2 && own[0].Wrote? && own[0].write == Durable && own[1] == Started(t)
            && Authorizes(d, w.tasks[t].call, own[0].record)
  {
    hide Runs, Run, Proj, Granted, BaseOf, Issued, Refusal, Authorizes;
    ReachableInv(d, rt, steps);
    assert TaskInv(d, rt, Run(d, rt, EMPTY, steps), t);
    BaseAuthorizes(d, Run(d, rt, EMPTY, steps).tasks[t].call);
  }

  // ---------------------------------------------------------------------------
  // The methods are runs of the machine
  // ---------------------------------------------------------------------------

  lemma RunStep(d: Digests, rt: Runtime, w: World, s: Step, rest: seq<Step>)
    requires Enabled(rt, w, s) && Runs(d, rt, Do(d, rt, w, s), rest)
    ensures Runs(d, rt, w, [s] + rest) && Run(d, rt, w, [s] + rest) == Run(d, rt, Do(d, rt, w, s), rest)
  {
    hide Do, Enabled;
    assert ([s] + rest)[1..] == rest;
  }

  /** A world with one more task, in some phase, and its own events at the end of the trace. */
  function Extended(d: Digests, w: World, c: Call, phase: Phase): World {
    var task := Task(c, BaseOf(d, c), phase);
    World(w.tasks + [task], w.trace + History(|w.tasks|, task))
  }

  lemma BeginExtends(d: Digests, rt: Runtime, w: World, c: Call)
    requires Issued(rt, c.snapshot)
    ensures Enabled(rt, w, Begin(c))
    ensures Do(d, rt, w, Begin(c)) == Extended(d, w, c, if Refusal(c).Some? then Refused(Refusal(c).value) else Ready)
  {
    hide Issued, Refusal, BaseOf;
  }

  /** A step of the newest task extends its own events. */
  lemma AdvanceExtends(d: Digests, rt: Runtime, w: World, c: Call, phase: Phase, s: Step, next: Phase)
    requires !s.Begin? && s.t == |w.tasks| && TaskEnabled(Task(c, BaseOf(d, c), phase), s)
    requires WellFormed(d, rt, Task(c, BaseOf(d, c), phase))
    requires Advance(Task(c, BaseOf(d, c), phase), s).0 == next
    ensures Enabled(rt, Extended(d, w, c, phase), s)
    ensures Do(d, rt, Extended(d, w, c, phase), s) == Extended(d, w, c, next)
    ensures WellFormed(d, rt, Task(c, BaseOf(d, c), next))
  {
    hide Issued, BaseOf, WellFormed, History, Advance, TaskEnabled;
    var task := Task(c, BaseOf(d, c), phase);
    AdvanceKeeps(d, rt, task, s);
    var events := Advance(task, s).1;
    var w1 := Extended(d, w, c, phase);
    assert w1.tasks[s.t] == task;
    assert w1.tasks[s.t := task.(phase := next)] == w.tasks + [task.(phase := next)];
    assert w.trace + History(s.t, task) + events == w.trace + (History(s.t, task) + events);
  }

  /** The phase an invocation ends in, given how its writes and its handler turn out. */
  function InvokedPhase(c: Call, write: Write, handler: Answer, lastWrite: Write): Phase {
    if Refusal(c).Some? then Refused(Refusal(c).value)
    else if write != Durable then Unaudited(write)
    else Returned(handler, lastWrite)
  }

  /**
    `Invoke` is a run of the machine: one more task, whose own events end the trace. They
    hold the attempts of the method in order, the handler starts between them, and the last
    is the answer of the method.
   */
  lemma InvokeIsARun(d: Digests, rt: Runtime, w: World, c: Call, write: Write, handler: Answer, lastWrite: Write)
    returns (steps: seq<Step>)
    requires Issued(rt, c.snapshot) && !c.external
    ensures Runs(d, rt, w, steps)
    ensures Run(d, rt, w, steps) == Extended(d, w, c, InvokedPhase(c, write, handler, lastWrite))
  {
    hide Issued, BaseOf, Refusal, Do, Enabled, History, Extended;
    var t := |w.tasks|;
    BeginExtends(d, rt, w, c);
    if Refusal(c).Some? {
      steps := [];
    } else if write != Durable {
      AdvanceExtends(d, rt, w, c, Ready, RecordAuthorized(t, write), Unaudited(write));
      RunStep(d, rt, Extended(d, w, c, Ready), RecordAuthorized(t, write), []);
      steps := [RecordAuthorized(t, write)] + [];
    } else {
      AdvanceExtends(d, rt, w, c, Ready, RecordAuthorized(t, write), Recorded);
      AdvanceExtends(d, rt, w, c, Recorded, StartHandler(t), Running);
      AdvanceExtends(d, rt, w, c, Running, HandlerReturns(t, handler), Executed(handler));
      AdvanceExtends(d, rt, w, c, Executed(handler), RecordOutcome(t, lastWrite), Returned(handler, lastWrite));
      steps := [RecordOutcome(t, lastWrite)] + [];
      RunStep(d, rt, Extended(d, w, c, Executed(handler)), RecordOutcome(t, lastWrite), []);
      RunStep(d, rt, Extended(d, w, c, Running), HandlerReturns(t, handler), steps);
      steps := [HandlerReturns(t, handler)] + steps;
      RunStep(d, rt, Extended(d, w, c, Recorded), StartHandler(t), steps);
      steps := [StartHandler(t)] + steps;
      RunStep(d, rt, Extended(d, w, c, Ready), RecordAuthorized(t, write), steps);
      steps := [RecordAuthorized(t, write)] + steps;
    }
    RunStep(d, rt, w, Begin(c), steps);
    steps := [Begin(c)] + steps;
  }

  /** `AuthorizeExternal` is a run of the machine that leaves a lease only if its write is durable. */
  lemma AuthorizeIsARun(d: Digests, rt: Runtime, w: World, c: Call, write: Write) returns (steps: seq<Step>)
    requires Issued(rt, c.snapshot) && c.external
    ensures Runs(d, rt, w, steps)
    ensures Run(d, rt, w, steps) == Extended(d, w, c, AuthorizedAs(d, c, write))
  {
    hide Issued, BaseOf, Refusal, Do, Enabled, History, Extended;
    var t := |w.tasks|;
    BeginExtends(d, rt, w, c);
    steps := [];
    if Refusal(c).None? {
      AdvanceExtends(d, rt, w, c, Ready, RecordAuthorized(t, write), AuthorizedAs(d, c, write));
      RunStep(d, rt, Extended(d, w, c, Ready), RecordAuthorized(t, write), []);
      steps := [RecordAuthorized(t, write)] + [];
    }
    RunStep(d, rt, w, Begin(c), steps);
    steps := [Begin(c)] + steps;
  }

  function AuthorizedAs(d: Digests, c: Call, write: Write): Phase {
    if Refusal(c).Some? then Refused(Refusal(c).value)
    else if write != Durable then Unaudited(write)
    else Leased(Some(Concluded(BaseOf(d, c), false)), None)
  }

  /** What `Drop` attempts, from the record the lease owes. */
  function DropAttempts(terminal: Option<AuditRecord>, write: Write): seq<(AuditRecord, Write)> {
    if terminal.Some? then [(terminal.value, write)] else []
  }

  /** What finishing attempts before the destructor runs. */
  function FinishAttempts(terminal: Option<AuditRecord>, succeeded: bool, write: Write): seq<(AuditRecord, Write)> {
    if terminal.Some? then [(FinishRecord(terminal.value, succeeded), write)] else []
  }

  /** Dropping a lease is one step, and its writes are the attempts of `Drop`. */
  lemma DropIsARun(d: Digests, rt: Runtime, w: World, t: nat, write: Write)
    requires t < |w.tasks| && w.tasks[t].phase.Leased?
    ensures Enabled(rt, w, DropLease(t, write))
    ensures var events := Advance(w.tasks[t], DropLease(t, write)).1;
            && Do(d, rt, w, DropLease(t, write)).trace == w.trace + events
            && Writes(events) == DropAttempts(w.tasks[t].phase.terminal, write)
  {
  }

  /**
    Finishing a lease is a run of two steps, the second its destructor. Its writes are the
    attempts of `FinishAndDrop`, and it ends with the answer of that method.
   */
  lemma FinishIsARun(d: Digests, rt: Runtime, w: World, t: nat, succeeded: bool, write: Write, dropWrite: Write)
    returns (events: seq<Event>)
    requires t < |w.tasks| && w.tasks[t].phase.Leased? && w.tasks[t].phase.finish.None?
    ensures var steps := [FinishLease(t, succeeded, write), DropLease(t, dropWrite)];
            && Runs(d, rt, w, steps)
            && Run(d, rt, w, steps).trace == w.trace + events
    ensures Writes(events) == FinishAttempts(w.tasks[t].phase.terminal, succeeded, write)
    ensures events != []
    ensures events[|events| - 1] == Answered(t, if w.tasks[t].phase.terminal.Some? then AnswerOf(write, Success)
                                                else Failure(ExecutionOutcomeUncertain))
  {
    var finish, drop := FinishLease(t, succeeded, write), DropLease(t, dropWrite);
    events := Advance(w.tasks[t], finish).1;
    WritesUnfold(events);
    WritesUnfold(events[1..]);
    if |events| > 1 { WritesUnfold(events[1..][1..]); }
    var w1 := Do(d, rt, w, finish);
    assert w1.tasks[t].phase == Leased(None, Some(Finish(succeeded, write)));
    var w2 := Do(d, rt, w1, drop);
    assert w1.trace + [] == w1.trace;
    assert w2.trace == w.trace + events;
    RunStep(d, rt, w1, drop, []);
    RunStep(d, rt, w, finish, [drop] + []);
    assert [finish] + ([drop] + []) == [finish, drop];
  }

  /** The attempts of one task's own events, phase by phase. */
  lemma HistoryWrites(t: nat, task: Task)
    ensures Writes(History(t, task)) ==
            match task.phase
            case Refused(_) => []
            case Ready => []
            case Unaudited(write) => [(task.base, write)]
            case Returned(answer, write) => [(task.base, Durable), (Concluded(task.base, answer.Success?), write)]
            case Leased(_, Some(f)) => [(task.base, Durable), (Concluded(task.base, f.succeeded), f.write)]
            case Gone(Some(f), _) => [(task.base, Durable), (Concluded(task.base, f.succeeded), f.write)]
            case Gone(None, Some(write)) => [(task.base, Durable), (Concluded(task.base, false), write)]
            case _ => [(task.base, Durable)]
  {
    hide Writes, Concluded, AnswerOf;
    var h := History(t, task);
    WritesUnfold(h);
    if |h| > 0 { WritesUnfold(h[1..]); }
    if |h| > 1 { WritesUnfold(h[1..][1..]); }
    if |h| > 2 { WritesUnfold(h[1..][1..][1..]); }
    if |h| > 3 { WritesUnfold(h[1..][1..][1..][1..]); }
  }

  lemma WritesUnfold(events: seq<Event>)
    ensures events == [] ==> Writes(events) == []
    ensures events != [] ==>
              Writes(events) ==
              (if events[0].Wrote? then [(events[0].record, events[0].write)] else []) + Writes(events[1..])
  {
  }
}
