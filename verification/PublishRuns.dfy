/** What a publish of the bus owes to closed receivers and to filters, over every run. */
module PublishRuns {
  import opened Common
  import opened MessageBus

  /** The bus after the first `n` steps of a run. */
  function BusAt(capacity: nat, steps: seq<Step>, n: nat): Bus
    requires 1 <= capacity <= 65536 && n <= |steps|
  {
    if Runs(NewBus(capacity), steps[..n]) then Run(NewBus(capacity), steps[..n]) else NewBus(capacity)
  }

  predicate Closes(a: Step) {
    a.Close? || a.DropReceiver?
  }

  ghost predicate ClosedIn(b: Bus, id: SubId) {
    id in b.chans && b.chans[id].closed
  }

  // ---------------------------------------------------------------------------
  // Closed receivers are pruned before the fan-out
  // ---------------------------------------------------------------------------

  /** The publish of `m` that began when the log had length `n` is still under way. */
  predicate UnderWay(b: Bus, m: Message, n: nat) {
    |b.log| == n && !b.phase.Idle? && b.phase.msg == m
  }

  /** Receivers closed at the start are still to be looked at, or are no longer registered. */
  ghost predicate Pruning(b: Bus, closed: set<SubId>) {
    && (forall id :: id in closed ==> ClosedIn(b, id))
    && match b.phase
       case Retaining(_, todo) => closed * b.subs <= todo
       case _ => closed * b.subs == {}
  }

  /** Every registered receiver that is closed was so at the start. */
  ghost predicate NoneCloses(b: Bus, closed: set<SubId>) {
    forall id :: id in b.subs && ClosedIn(b, id) ==> id in closed
  }

  /** The publication at position `n` is that of `m` and was not meant for anybody closed at the start. */
  ghost predicate Pruned(b: Bus, m: Message, n: nat, closed: set<SubId>) {
    n < |b.log| && b.log[n].msg == m && b.log[n].targets !! closed
  }

  lemma BeginPrunes(b: Bus, m: Message, closed: set<SubId>)
    requires Enabled(b, Begin(m)) && forall id :: id in closed <==> ClosedIn(b, id)
    ensures var next := Do(b, Begin(m));
            UnderWay(next, m, |b.log|) && Pruning(next, closed) && NoneCloses(next, closed)
  {
  }

  lemma EndPrunes(b: Bus, m: Message, n: nat, closed: set<SubId>, outcome: Outcome)
    requires UnderWay(b, m, n) && closed * b.subs == {}
    ensures Pruned(EndPublish(b, outcome), m, n, closed)
  {
    assert Targets(b, m) <= b.subs;
    forall id | id in closed ensures id !in Targets(b, m) {
      assert id !in closed * b.subs;
    }
  }

  lemma OthersPrune(b: Bus, a: Step, m: Message, n: nat, closed: set<SubId>)
    requires Enabled(b, a) && UnderWay(b, m, n) && Pruning(b, closed)
    requires !a.Check? && !a.TrySend? && !a.Finish?
    ensures UnderWay(Do(b, a), m, n) && Pruning(Do(b, a), closed)
  {
    hide Matches, Full, Targets;
  }

  /** One step of the publish, or of anybody while it is under way. */
  lemma StepPrunes(b: Bus, a: Step, m: Message, n: nat, closed: set<SubId>)
    requires Enabled(b, a) && UnderWay(b, m, n) && Pruning(b, closed)
    ensures var next := Do(b, a);
            (UnderWay(next, m, n) && Pruning(next, closed)) || (Pruned(next, m, n, closed) && next.phase.Idle?)
  {
    hide Matches, Full, Targets, Pruned;
    match a {
      case Check(_) =>
        EndPrunes(b, m, n, closed, Backpressure);
        PrunedIgnoresCounters(EndPublish(b, Backpressure), (b.rejections + 1) % COUNTER_MODULUS, m, n, closed);
      case TrySend(_) =>
        EndPrunes(b, m, n, closed, Backpressure);
        EndPrunes(b, m, n, closed, SendFailed);
      case Finish =>
        EndPrunes(b, m, n, closed, Accepted);
        PrunedIgnoresCounters(EndPublish(b, Accepted), (b.published + 1) % COUNTER_MODULUS, m, n, closed);
      case _ => OthersPrune(b, a, m, n, closed);
    }
  }

  lemma PrunedIgnoresCounters(b: Bus, count: nat, m: Message, n: nat, closed: set<SubId>)
    requires Pruned(b, m, n, closed)
    ensures Pruned(b.(published := count), m, n, closed) && Pruned(b.(rejections := count), m, n, closed)
  {
  }

  lemma StepClosesNone(b: Bus, a: Step, closed: set<SubId>)
    requires Enabled(b, a) && !b.phase.Idle? && NoneCloses(b, closed) && !Closes(a)
    ensures NoneCloses(Do(b, a), closed)
  {
    hide Matches, Full, Targets;
  }

  /** Without closures in between the fan-out meets no closed receiver. */
  lemma StepNeverFails(b: Bus, a: Step, m: Message, n: nat, closed: set<SubId>)
    requires Inv(b) && Enabled(b, a) && UnderWay(b, m, n) && Pruning(b, closed) && NoneCloses(b, closed)
    ensures |Do(b, a).log| > n ==> Do(b, a).log[n].outcome != SendFailed
  {
    hide Matches, Full, Targets;
    if a.TrySend? {
      RegisteredIsOpen(b, closed, a.id);
    }
  }

  lemma RegisteredIsOpen(b: Bus, closed: set<SubId>, id: SubId)
    requires NoneCloses(b, closed) && closed * b.subs == {}
    ensures id in b.subs ==> !ClosedIn(b, id)
  {
    assert id in closed * b.subs <==> id in closed && id in b.subs;
  }

  lemma StepKeepsLog(b: Bus, a: Step)
    requires Enabled(b, a)
    ensures b.log <= Do(b, a).log
  {
    hide Matches, Full, Targets;
  }

  /** How the publish of `m` stands after some more steps. */
  ghost predicate Stands(b: Bus, m: Message, n: nat, closed: set<SubId>, quiet: bool) {
    if |b.log| > n then Pruned(b, m, n, closed) && (quiet ==> b.log[n].outcome != SendFailed)
    else UnderWay(b, m, n) && Pruning(b, closed) && (quiet ==> NoneCloses(b, closed))
  }

  lemma StepStands(b: Bus, a: Step, m: Message, n: nat, closed: set<SubId>, quiet: bool)
    requires Inv(b) && Enabled(b, a) && Stands(b, m, n, closed, quiet)
    ensures Stands(Do(b, a), m, n, closed, quiet && !Closes(a))
  {
    hide Do, Enabled, Inv, Pruning, NoneCloses, Closes;
    StepKeepsLog(b, a);
    if |b.log| <= n {
      StepPrunes(b, a, m, n, closed);
      if quiet && !Closes(a) {
        StepClosesNone(b, a, closed);
        StepNeverFails(b, a, m, n, closed);
      }
    }
  }

  ghost predicate Quiet(steps: seq<Step>, from: nat) {
    forall i :: from <= i < |steps| ==> !Closes(steps[i])
  }

  ghost function ClosedSet(b: Bus): set<SubId> {
    set id | id in b.chans && b.chans[id].closed
  }

  lemma PrefixRuns(capacity: nat, steps: seq<Step>)
    requires 1 <= capacity <= 65536 && Runs(NewBus(capacity), steps) && steps != []
    ensures var init := steps[..|steps| - 1];
            && Runs(NewBus(capacity), init) && Enabled(Run(NewBus(capacity), init), steps[|steps| - 1])
            && Run(NewBus(capacity), steps) == Do(Run(NewBus(capacity), init), steps[|steps| - 1])
  {
    hide Do, Enabled;
  }

  lemma {:induction false} PublishStands(capacity: nat, steps: seq<Step>, k: nat, m: Message)
    requires 1 <= capacity <= 65536 && Runs(NewBus(capacity), steps)
    requires k < |steps| && steps[k] == Begin(m)
    ensures Runs(NewBus(capacity), steps[..k])
    ensures var start := Run(NewBus(capacity), steps[..k]);
            Stands(Run(NewBus(capacity), steps), m, |start.log|, ClosedSet(start), Quiet(steps, k))
    decreases |steps|
  {
    hide Do, Enabled, Inv, Stands, Runs, Run, Closes;
    var init, a := steps[..|steps| - 1], steps[|steps| - 1];
    PrefixRuns(capacity, steps);
    var b := Run(NewBus(capacity), init);
    RunInv(capacity, init);
    if k == |steps| - 1 {
      assert steps[..k] == init;
      Starts(b, m, Quiet(steps, k));
    } else {
      assert init[..k] == steps[..k];
      PublishStands(capacity, init, k, m);
      var start := Run(NewBus(capacity), steps[..k]);
      StepStands(b, a, m, |start.log|, ClosedSet(start), Quiet(init, k));
      assert Quiet(steps, k) == (Quiet(init, k) && !Closes(a)) by {
        assert steps == init + [a];
      }
    }
  }

  lemma Starts(b: Bus, m: Message, quiet: bool)
    requires Enabled(b, Begin(m))
    ensures Stands(Do(b, Begin(m)), m, |b.log|, ClosedSet(b), quiet)
  {
    BeginPrunes(b, m, ClosedSet(b));
  }

  /**
    For every publish of every run that has concluded: it is on record at the position it
    began with, nobody whose receiver was closed when it began is among its targets, and
    it fails on a closed receiver only if some receiver closed after it began.
   */
  lemma ClosedReceiversArePruned(capacity: nat, steps: seq<Step>, k: nat, m: Message)
    requires 1 <= capacity <= 65536 && Runs(NewBus(capacity), steps)
    requires k < |steps| && steps[k] == Begin(m)
    requires |BusAt(capacity, steps, |steps|).log| > |BusAt(capacity, steps, k).log|
    ensures var start, end := BusAt(capacity, steps, k), BusAt(capacity, steps, |steps|);
            var p := end.log[|start.log|];
            && p.msg == m
            && (forall id :: id in start.chans && start.chans[id].closed ==> id !in p.targets && id !in p.reached)
            && ((forall i :: k <= i < |steps| ==> !steps[i].Close? && !steps[i].DropReceiver?) ==>
                  p.outcome != SendFailed)
  {
    hide Do, Enabled, Inv, Runs, Run;
    assert steps[..|steps|] == steps;
    PublishStands(capacity, steps, k, m);
    RunInv(capacity, steps);
    var start, end := Run(NewBus(capacity), steps[..k]), Run(NewBus(capacity), steps);
    RecordedOk(end, |start.log|);
  }

  lemma RecordedOk(b: Bus, n: nat)
    requires Inv(b) && n < |b.log|
    ensures b.log[n].reached <= b.log[n].targets
  {
    assert PublicationOk(b.log[n]);
  }

  lemma {:induction false} BegunStands(b: Bus, steps: seq<Step>, m: Message)
    requires Inv(b) && Runs(b, steps) && steps != [] && steps[0] == Begin(m)
    ensures Inv(Run(b, steps)) && Stands(Run(b, steps), m, |b.log|, ClosedSet(b), Quiet(steps, 0))
    decreases |steps|
  {
    hide Do, Enabled, Inv, Stands, Closes;
    var init, a := steps[..|steps| - 1], steps[|steps| - 1];
    if init == [] {
      Starts(b, m, Quiet(steps, 0));
      StepKeepsInv(b, a);
    } else {
      assert init[0] == steps[0];
      BegunStands(b, init, m);
      StepStands(Run(b, init), a, m, |b.log|, ClosedSet(b), Quiet(init, 0));
      StepKeepsInv(Run(b, init), a);
      assert steps == init + [a];
    }
  }

  /**
    A concluded call of `Publish`, given its trace: its targets hold nobody closed when it
    was called, and while the environment closes no receiver it does not fail.
   */
  lemma PublishPrunes(b: Bus, trace: seq<Step>, m: Message, env: nat -> seq<Step>)
    requires Inv(b) && Runs(b, trace) && Continues([Begin(m)], trace, env) && |Run(b, trace).log| > |b.log|
    ensures var p := Run(b, trace).log[|b.log|];
            && p.msg == m
            && (forall id :: id in b.chans && b.chans[id].closed ==> id !in p.targets)
            && ((forall tick: nat, a :: a in env(tick) ==> !a.Close? && !a.DropReceiver?) ==> p.outcome != SendFailed)
  {
    hide Do, Enabled, Inv, Runs, Run;
    assert [Begin(m)] <= trace && trace[0] == [Begin(m)][0];
    BegunStands(b, trace, m);
  }

  // ---------------------------------------------------------------------------
  // Subscriptions keep their filter, and the filter decides
  // ---------------------------------------------------------------------------

  lemma StepKeepsSubscription(b: Bus, a: Step, id: SubId)
    requires Enabled(b, a) && id in b.chans
    ensures var next := Do(b, a).chans;
            id in next && next[id].filter == b.chans[id].filter && next[id].since == b.chans[id].since
  {
    hide Matches, Full, Targets;
  }

  /** A subscription keeps the filter it was made with and knows when it was made. */
  lemma {:induction false} SubscriptionStays(capacity: nat, steps: seq<Step>, k: nat)
    requires 1 <= capacity <= 65536 && Runs(NewBus(capacity), steps) && k < |steps| && steps[k].Subscribe?
    ensures var ch := Run(NewBus(capacity), steps).chans;
            && steps[k].id in ch && ch[steps[k].id].filter == steps[k].filter
            && ch[steps[k].id].since == |BusAt(capacity, steps, k).log|
    decreases |steps|
  {
    hide Enabled, Runs, Run;
    var init, a := steps[..|steps| - 1], steps[|steps| - 1];
    PrefixRuns(capacity, steps);
    if k == |steps| - 1 {
      assert steps[..k] == init;
    } else {
      assert init[..k] == steps[..k];
      SubscriptionStays(capacity, init, k);
      hide Do;
      StepKeepsSubscription(Run(NewBus(capacity), init), a, steps[k].id);
    }
  }

  /** A recipient entry of a filter admits a message, case by case. */
  predicate Addressed(entry: Recipient, m: Message) {
    || (entry == Broadcast && m.recipient == Broadcast)
    || (entry.Agent? && m.recipient == Agent(entry.agent))
    || (entry.Agent? && m.recipient.AgentInstance? && m.recipient.agent == entry.agent)
    || (entry.AgentInstance? && m.recipient.AgentInstance? && m.recipient.instance == entry.instance)
  }

  /** The three allow-lists of a filter, each ignored when absent. */
  ghost predicate Admitted(f: Filter, m: Message) {
    && (f.sessionIds == None || exists i :: 0 <= i < |f.sessionIds.value| && f.sessionIds.value[i] == m.session)
    && (f.recipients == None || exists i :: 0 <= i < |f.recipients.value| && Addressed(f.recipients.value[i], m))
    && (f.kinds == None || exists i :: 0 <= i < |f.kinds.value| && f.kinds.value[i] == m.kind)
  }

  lemma MatchesIff(f: Filter, m: Message)
    ensures Matches(f, m) <==> Admitted(f, m)
  {
    if f.recipients.Some? {
      forall r | r in f.recipients.value ensures Admits(r, m.recipient) <==> Addressed(r, m) {
      }
      if r :| r in f.recipients.value && Admits(r, m.recipient) {
        var i :| 0 <= i < |f.recipients.value| && f.recipients.value[i] == r;
      }
      if i :| 0 <= i < |f.recipients.value| && Addressed(f.recipients.value[i], m) {
        assert f.recipients.value[i] in f.recipients.value;
      }
    }
  }

  /**
    For an open subscriber of any run, made by step `k` with some filter: an accepted
    publish since then reached it exactly when the filter admits the message, and no other
    publish reached it without being admitted.
   */
  lemma FilterDecides(capacity: nat, steps: seq<Step>, k: nat, i: nat)
    requires 1 <= capacity <= 65536 && Runs(NewBus(capacity), steps)
    requires k < |steps| && steps[k].Subscribe? && i < |Run(NewBus(capacity), steps).log|
    requires var ch := Run(NewBus(capacity), steps).chans; steps[k].id in ch ==> !ch[steps[k].id].closed
    ensures var p := Run(NewBus(capacity), steps).log[i];
            && (steps[k].id in p.reached ==>
                  |BusAt(capacity, steps, k).log| <= i && Admitted(steps[k].filter, p.msg))
            && (p.outcome == Accepted && |BusAt(capacity, steps, k).log| <= i && Admitted(steps[k].filter, p.msg) ==>
                  steps[k].id in p.reached)
  {
    hide Do, Enabled, Runs, Run, Matches, Admitted;
    SubscriptionStays(capacity, steps, k);
    OpenSubscriberSeesItsMessages(capacity, steps, steps[k].id);
    MatchesIff(steps[k].filter, Run(NewBus(capacity), steps).log[i].msg);
  }

  /** `diagnostics` unregisters exactly the closed subscribers. */
  lemma DiagnosticsPrunes(b: Bus, id: SubId)
    requires Enabled(b, Diagnostics)
    ensures id in Do(b, Diagnostics).subs <==> id in b.subs && !(id in b.chans && b.chans[id].closed)
  {
  }
}
