/**
  The readiness gate: waiters register with the notifier, read the flag and then await;
  markers swap the flag and, the first time, notify. Each of these is one atomic step and
  any number of waiters and markers interleave, on any number of restart attempts.
 */
module Readiness {

  /** Where a call of `wait` stands; a registration carries the notifications seen so far. */
  datatype Waiter = Looping | Registered(seen: nat) | Awaiting(seen: nat) | Returned | Left

  /** Where a call of `mark_ready` stands. */
  datatype Marker = Entering | Notifying | Marked

  datatype Gate = Gate(ready: bool, notifications: nat, waiters: seq<Waiter>, markers: seq<Marker>)

  datatype GateStep =
    | Arrive
    | Register(i: nat)
    | Load(i: nat)
    | Wake(i: nat)
    | Leave(i: nat)
    | EnterMark
    | Swap(m: nat)
    | Notify(m: nat)

  /** Steps of the call in position `i` of the waiters, other than being dropped. */
  predicate IsWaiterStep(s: GateStep, i: nat) {
    match s
    case Register(j) => i == j
    case Load(j) => i == j
    case Wake(j) => i == j
    case _ => false
  }

  predicate WaiterEnabled(g: Gate, s: GateStep) {
    match s
    case Register(i) => i < |g.waiters| && g.waiters[i].Looping?
    case Load(i) => i < |g.waiters| && g.waiters[i].Registered?
    case Wake(i) => i < |g.waiters| && g.waiters[i].Awaiting? && g.waiters[i].seen != g.notifications
    case Leave(i) => i < |g.waiters| && !g.waiters[i].Returned?
    case _ => false
  }

  predicate GateEnabled(g: Gate, s: GateStep) {
    match s
    case Arrive => true
    case EnterMark => true
    case Swap(m) => m < |g.markers| && g.markers[m].Entering?
    case Notify(m) => m < |g.markers| && g.markers[m].Notifying?
    case _ => WaiterEnabled(g, s)
  }

  function GateDo(g: Gate, s: GateStep): Gate
    requires GateEnabled(g, s)
  {
    match s
    case Arrive => g.(waiters := g.waiters + [Looping])
    case Register(i) => g.(waiters := g.waiters[i := Registered(g.notifications)])
    case Load(i) => g.(waiters := g.waiters[i := if g.ready then Returned else Awaiting(g.waiters[i].seen)])
    case Wake(i) => g.(waiters := g.waiters[i := Looping])
    case Leave(i) => g.(waiters := g.waiters[i := Left])
    case EnterMark => g.(markers := g.markers + [Entering])
    case Swap(m) => g.(ready := true, markers := g.markers[m := if g.ready then Marked else Notifying])
    case Notify(m) => g.(notifications := g.notifications + 1, markers := g.markers[m := Marked])
  }

  /** `new`, and a fresh gate of `next_attempt`. */
  const FRESH: Gate := Gate(false, 0, [], [])

  // ---------------------------------------------------------------------------
  // The invariant of one gate
  // ---------------------------------------------------------------------------

  function Pending(markers: seq<Marker>): nat {
    if markers == [] then 0
    else Pending(markers[..|markers| - 1]) + (if markers[|markers| - 1].Notifying? then 1 else 0)
  }

  lemma {:induction false} PendingUpdate(markers: seq<Marker>, m: nat, now: Marker)
    requires m < |markers|
    ensures Pending(markers[m := now]) + (if markers[m].Notifying? then 1 else 0) ==
            Pending(markers) + (if now.Notifying? then 1 else 0)
  {
    var init := markers[..|markers| - 1];
    if m < |init| {
      PendingUpdate(init, m, now);
      assert markers[m := now][..|markers| - 1] == init[m := now];
    } else {
      assert markers[m := now][..|markers| - 1] == init;
    }
  }

  lemma PendingSnoc(markers: seq<Marker>)
    ensures Pending(markers + [Entering]) == Pending(markers)
  {
    assert (markers + [Entering])[..|markers|] == markers;
  }

  predicate WaiterOk(g: Gate, w: Waiter) {
    match w
    case Registered(seen) => seen <= g.notifications
    case Awaiting(seen) => seen == 0
    case Returned => g.ready
    case _ => true
  }

  /** The flag is set exactly when one marker has notified or is about to. */
  ghost predicate GateInv(g: Gate) {
    && g.notifications + Pending(g.markers) == (if g.ready then 1 else 0)
    && forall i :: 0 <= i < |g.waiters| ==> WaiterOk(g, g.waiters[i])
  }

  lemma GateStepKeepsInv(g: Gate, s: GateStep)
    requires GateInv(g) && GateEnabled(g, s)
    ensures GateInv(GateDo(g, s))
  {
    hide Pending;
    match s {
      case EnterMark => PendingSnoc(g.markers);
      case Swap(m) => PendingUpdate(g.markers, m, if g.ready then Marked else Notifying);
      case Notify(m) => PendingUpdate(g.markers, m, Marked);
      case _ =>
    }
  }

  // ---------------------------------------------------------------------------
  // Runs over every attempt
  // ---------------------------------------------------------------------------

  datatype Step = NextAttempt | At(gate: nat, step: GateStep)

  predicate Enabled(gates: seq<Gate>, s: Step) {
    match s
    case NextAttempt => true
    case At(k, step) => k < |gates| && GateEnabled(gates[k], step)
  }

  function Do(gates: seq<Gate>, s: Step): seq<Gate>
    requires Enabled(gates, s)
  {
    match s
    case NextAttempt => gates + [FRESH]
    case At(k, step) => gates[k := GateDo(gates[k], step)]
  }

  predicate Runs(gates: seq<Gate>, steps: seq<Step>)
    decreases |steps|
  {
    steps == [] || (Enabled(gates, steps[0]) && Runs(Do(gates, steps[0]), steps[1..]))
  }

  function Run(gates: seq<Gate>, steps: seq<Step>): seq<Gate>
    requires Runs(gates, steps)
    decreases |steps|
  {
    if steps == [] then gates else Run(Do(gates, steps[0]), steps[1..])
  }

  ghost predicate Inv(gates: seq<Gate>) {
    forall k :: 0 <= k < |gates| ==> GateInv(gates[k])
  }

  lemma StepKeepsInv(gates: seq<Gate>, s: Step)
    requires Inv(gates) && Enabled(gates, s)
    ensures Inv(Do(gates, s))
  {
    hide GateEnabled, GateDo;
    match s {
      case NextAttempt =>
      case At(k, step) => GateStepKeepsInv(gates[k], step);
    }
  }

  lemma {:induction false} RunKeepsInv(gates: seq<Gate>, steps: seq<Step>)
    requires Inv(gates) && Runs(gates, steps)
    ensures Inv(Run(gates, steps))
    decreases |steps|
  {
    hide Inv, Do, Enabled;
    if steps != [] {
      StepKeepsInv(gates, steps[0]);
      RunKeepsInv(Do(gates, steps[0]), steps[1..]);
    }
  }

  /** A waiter that can take no step of its own. */
  predicate Blocked(g: Gate, i: nat)
    requires i < |g.waiters|
  {
    g.waiters[i].Awaiting? && g.waiters[i].seen == g.notifications
  }

  /**
    In every run, on every attempt: the notify step has run at most once; once it has, no
    waiter is blocked; a waiter that returned was right to; and waiters only block while no
    notification has been sent.
   */
  lemma NoLostWakeup(steps: seq<Step>, k: nat)
    requires Runs([FRESH], steps) && k < |Run([FRESH], steps)|
    ensures var g := Run([FRESH], steps)[k];
            && g.notifications <= 1
            && (g.notifications == 1 ==> forall i: nat :: i < |g.waiters| ==> !Blocked(g, i))
            && (forall i: nat :: i < |g.waiters| && g.waiters[i].Returned? ==> g.ready)
            && (forall i: nat :: GateEnabled(g, Wake(i)) ==> g.notifications == 1 && g.ready)
            && (g.ready && g.notifications == 0 ==> Pending(g.markers) == 1)
  {
    hide Runs, Run, Pending;
    FreshInv();
    RunKeepsInv([FRESH], steps);
    var g := Run([FRESH], steps)[k];
    assert forall i: nat :: i < |g.waiters| ==> WaiterOk(g, g.waiters[i]);
  }

  lemma FreshInv()
    ensures Inv([FRESH])
  {
  }

  // ---------------------------------------------------------------------------
  // Bounded progress
  // ---------------------------------------------------------------------------

  /** Own steps left to a waiter once its attempt has been notified. */
  function Rank(w: Waiter): nat {
    match w
    case Awaiting(_) => 3
    case Looping => 2
    case Registered(_) => 1
    case _ => 0
  }

  /** Own steps of waiter `i` on attempt `k` in a schedule. */
  function OwnSteps(steps: seq<Step>, k: nat, i: nat): nat {
    if steps == [] then 0
    else
      var s := steps[0];
      (if s.At? && s.gate == k && IsWaiterStep(s.step, i) then 1 else 0) + OwnSteps(steps[1..], k, i)
  }

  ghost predicate Notified(gates: seq<Gate>, k: nat, i: nat) {
    k < |gates| && gates[k].ready && gates[k].notifications >= 1 && i < |gates[k].waiters|
  }

  /** A notified waiter that has not returned always has an own step to take, and it brings it closer. */
  lemma AlwaysAnOwnStep(gates: seq<Gate>, k: nat, i: nat) returns (s: Step)
    requires Inv(gates) && Notified(gates, k, i) && Rank(gates[k].waiters[i]) > 0
    ensures s.At? && s.gate == k && IsWaiterStep(s.step, i) && Enabled(gates, s)
    ensures Rank(Do(gates, s)[k].waiters[i]) == Rank(gates[k].waiters[i]) - 1
  {
    hide Pending;
    var g := gates[k];
    assert GateInv(g) && WaiterOk(g, g.waiters[i]);
    match g.waiters[i]
    case Awaiting(_) => s := At(k, Wake(i));
    case Looping => s := At(k, Register(i));
    case Registered(_) => s := At(k, Load(i));
  }

  lemma RankStep(gates: seq<Gate>, s: Step, k: nat, i: nat)
    requires Inv(gates) && Enabled(gates, s) && Notified(gates, k, i)
    ensures Notified(Do(gates, s), k, i)
    ensures Rank(Do(gates, s)[k].waiters[i]) +
            (if s.At? && s.gate == k && IsWaiterStep(s.step, i) then 1 else 0) <= Rank(gates[k].waiters[i])
  {
    hide Inv, Pending;
  }

  /** Once notified, a waiter takes at most three own steps, however the rest of the system is scheduled. */
  lemma {:induction false} NotifiedWaitersReturn(gates: seq<Gate>, steps: seq<Step>, k: nat, i: nat)
    requires Inv(gates) && Runs(gates, steps) && Notified(gates, k, i)
    ensures Notified(Run(gates, steps), k, i)
    ensures OwnSteps(steps, k, i) + Rank(Run(gates, steps)[k].waiters[i]) <= Rank(gates[k].waiters[i]) <= 3
    decreases |steps|
  {
    hide Inv, Enabled, Do, Notified;
    NotifiedMeans(gates, k, i);
    if steps != [] {
      RankStep(gates, steps[0], k, i);
      StepKeepsInv(gates, steps[0]);
      NotifiedMeans(Do(gates, steps[0]), k, i);
      NotifiedWaitersReturn(Do(gates, steps[0]), steps[1..], k, i);
    }
  }

  lemma NotifiedMeans(gates: seq<Gate>, k: nat, i: nat)
    requires Notified(gates, k, i)
    ensures k < |gates| && i < |gates[k].waiters|
  {
  }
}
