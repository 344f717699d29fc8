/**
  The bounded in-process message bus. A publish holds the subscription lock while it
  prunes closed subscribers, checks capacity and fans out, but receivers drain and
  close their own queues at any moment in between.

  `received`, `since` and `log` are history; no step reads them.
 */
module MessageBus {
  import opened Common

  type SubId = nat

  datatype Recipient = Agent(agent: string) | AgentInstance(instance: string, agent: string) | Broadcast

  datatype Kind = ChatKind | SystemKind(body: string) | StreamKind(event: string)

  datatype Message = Message(session: string, recipient: Recipient, kind: Kind, payload: string)

  datatype Filter = Filter(
    sessionIds: Option<seq<string>>,
    recipients: Option<seq<Recipient>>,
    kinds: Option<seq<Kind>>)

  /** Whether one entry of a recipient allow-list admits a message's recipient. */
  predicate Admits(entry: Recipient, actual: Recipient) {
    match entry
    case Broadcast => actual.Broadcast?
    case Agent(id) => (actual.Agent? || actual.AgentInstance?) && actual.agent == id
    case AgentInstance(instance, _) => actual.AgentInstance? && actual.instance == instance
  }

  predicate Matches(f: Filter, m: Message) {
    && (f.sessionIds.Some? ==> m.session in f.sessionIds.value)
    && (f.recipients.Some? ==> exists r :: r in f.recipients.value && Admits(r, m.recipient))
    && (f.kinds.Some? ==> m.kind in f.kinds.value)
  }

  datatype Outcome = Accepted | Backpressure | SendFailed

  /** One subscription: its filter, its bounded queue, and what its receiver has taken. */
  datatype Channel = Channel(
    filter: Filter,
    queue: seq<Message>,
    closed: bool,
    received: seq<Message>,
    since: nat)

  /** A finished publish: who it was meant for, who it reached, and what it returned. */
  datatype Publication = Publication(msg: Message, targets: set<SubId>, reached: set<SubId>, outcome: Outcome)

  datatype Phase =
    | Idle
    | Retaining(msg: Message, todo: set<SubId>)
    | Checking(msg: Message, todo: set<SubId>)
    | Sending(msg: Message, todo: set<SubId>, reached: set<SubId>)

  datatype Bus = Bus(
    capacity: nat,
    subs: set<SubId>,
    chans: map<SubId, Channel>,
    phase: Phase,
    published: nat,
    rejections: nat,
    log: seq<Publication>)

  datatype Step =
    | Subscribe(id: SubId, filter: Filter)
    | Diagnostics
    | Receive(id: SubId)
    | Close(id: SubId)
    | DropReceiver(id: SubId)
    | Begin(msg: Message)
    | Retain(id: SubId)
    | StartCheck
    | Check(id: SubId)
    | StartSend
    | TrySend(id: SubId)
    | Finish

  const COUNTER_MODULUS: nat := 0x1_0000_0000_0000_0000

  predicate Full(b: Bus, id: SubId) {
    id in b.chans && |b.chans[id].queue| >= b.capacity
  }

  predicate Wants(b: Bus, id: SubId, m: Message) {
    id in b.chans && Matches(b.chans[id].filter, m)
  }

  /** Registered subscribers whose filter admits the message. */
  function Targets(b: Bus, m: Message): set<SubId> {
    set id | id in b.subs && Wants(b, id, m)
  }

  predicate Enabled(b: Bus, a: Step) {
    match a
    case Subscribe(id, _) => b.phase.Idle? && id !in b.chans
    case Diagnostics => b.phase.Idle?
    case Receive(id) => id in b.chans && b.chans[id].queue != []
    case Close(id) => id in b.chans
    case DropReceiver(id) => id in b.chans
    case Begin(_) => b.phase.Idle?
    case Retain(id) => b.phase.Retaining? && id in b.phase.todo && id in b.chans
    case StartCheck => b.phase.Retaining? && b.phase.todo == {}
    case Check(id) => b.phase.Checking? && id in b.phase.todo && id in b.chans
    case StartSend => b.phase.Checking? && b.phase.todo == {}
    case TrySend(id) => b.phase.Sending? && id in b.phase.todo && id in b.chans
    case Finish => b.phase.Sending? && b.phase.todo == {}
  }

  /** A receiver acting on its own queue, which needs no lock. */
  predicate IsReceiverStep(a: Step) {
    a.Receive? || a.Close? || a.DropReceiver?
  }

  function EndPublish(b: Bus, outcome: Outcome): Bus
    requires !b.phase.Idle?
  {
    var reached := if b.phase.Sending? then b.phase.reached else {};
    b.(phase := Idle,
       log := b.log + [Publication(b.phase.msg, Targets(b, b.phase.msg), reached, outcome)])
  }

  function Do(b: Bus, a: Step): Bus
    requires Enabled(b, a)
  {
    match a
    case Subscribe(id, filter) =>
      b.(subs := b.subs + {id}, chans := b.chans[id := Channel(filter, [], false, [], |b.log|)])
    case Diagnostics =>
      b.(subs := set id | id in b.subs && !(id in b.chans && b.chans[id].closed))
    case Receive(id) =>
      var ch := b.chans[id];
      b.(chans := b.chans[id := ch.(queue := ch.queue[1..], received := ch.received + [ch.queue[0]])])
    case Close(id) =>
      b.(chans := b.chans[id := b.chans[id].(closed := true)])
    case DropReceiver(id) =>
      b.(chans := b.chans[id := b.chans[id].(closed := true, queue := [])])
    case Begin(m) =>
      b.(phase := Retaining(m, b.subs))
    case Retain(id) =>
      b.(phase := Retaining(b.phase.msg, b.phase.todo - {id}),
         subs := if b.chans[id].closed then b.subs - {id} else b.subs)
    case StartCheck =>
      b.(phase := Checking(b.phase.msg, b.subs))
    case Check(id) =>
      if Wants(b, id, b.phase.msg) && Full(b, id) then
        EndPublish(b, Backpressure).(rejections := (b.rejections + 1) % COUNTER_MODULUS)
      else
        b.(phase := Checking(b.phase.msg, b.phase.todo - {id}))
    case StartSend =>
      b.(phase := Sending(b.phase.msg, b.subs, {}))
    case TrySend(id) =>
      var ch := b.chans[id];
      if !Wants(b, id, b.phase.msg) then
        b.(phase := Sending(b.phase.msg, b.phase.todo - {id}, b.phase.reached))
      else if ch.closed then
        EndPublish(b, SendFailed)
      else if Full(b, id) then
        EndPublish(b, Backpressure)
      else
        b.(phase := Sending(b.phase.msg, b.phase.todo - {id}, b.phase.reached + {id}),
           chans := b.chans[id := ch.(queue := ch.queue + [b.phase.msg])])
    case Finish =>
      EndPublish(b, Accepted).(published := (b.published + 1) % COUNTER_MODULUS)
  }

  predicate Runs(b: Bus, steps: seq<Step>)
    decreases |steps|, 0
  {
    steps == []
    || (Runs(b, steps[..|steps| - 1]) && Enabled(Run(b, steps[..|steps| - 1]), steps[|steps| - 1]))
  }

  function Run(b: Bus, steps: seq<Step>): Bus
    requires Runs(b, steps)
    decreases |steps|, 1
  {
    if steps == [] then b else Do(Run(b, steps[..|steps| - 1]), steps[|steps| - 1])
  }

  /** `InProcessMessageBus::with_capacity`, which admits capacities 1 to 65536. */
  function NewBus(capacity: nat): Bus
    requires 1 <= capacity <= 65536
  {
    Bus(capacity, {}, map[], Idle, 0, 0, [])
  }

  lemma RunSnoc(b: Bus, steps: seq<Step>, a: Step)
    requires Runs(b, steps) && Enabled(Run(b, steps), a)
    ensures Runs(b, steps + [a]) && Run(b, steps + [a]) == Do(Run(b, steps), a)
  {
    assert (steps + [a])[..|steps|] == steps;
  }

  // ---------------------------------------------------------------------------
  // The invariant of every run
  // ---------------------------------------------------------------------------

  /** Messages of the publishes that reached `id`, in publish order. */
  function Reaching(log: seq<Publication>, id: SubId): seq<Message> {
    if log == [] then []
    else
      var init := Reaching(log[..|log| - 1], id);
      var p := log[|log| - 1];
      if id in p.reached then init + [p.msg] else init
  }

  /** The message the publish in progress has already queued for `id`. */
  function InProgress(b: Bus, id: SubId): seq<Message> {
    if b.phase.Sending? && id in b.phase.reached then [b.phase.msg] else []
  }

  predicate PublicationOk(p: Publication) {
    match p.outcome
    case Accepted => p.reached == p.targets
    case Backpressure => p.reached == {}
    case SendFailed => p.reached < p.targets
  }

  /** How a finished publish relates to a subscription. */
  predicate Related(p: Publication, i: nat, id: SubId, ch: Channel) {
    && (id in p.reached ==> ch.since <= i && Matches(ch.filter, p.msg))
    && (!ch.closed && ch.since <= i && Matches(ch.filter, p.msg) ==> id in p.targets)
  }

  predicate ChannelOk(b: Bus, id: SubId)
    requires id in b.chans
  {
    var ch := b.chans[id];
    && |ch.queue| <= b.capacity
    && ch.since <= |b.log|
    && (!ch.closed ==> id in b.subs)
    && (!ch.closed ==> ch.received + ch.queue == Reaching(b.log, id) + InProgress(b, id))
  }

  predicate PhaseOk(b: Bus) {
    match b.phase
    case Idle => true
    case Retaining(_, todo) => todo <= b.subs
    case Checking(m, todo) =>
      && todo <= b.subs
      && forall id :: id in b.subs - todo && Wants(b, id, m) ==> !Full(b, id)
    case Sending(m, todo, reached) =>
      && todo <= b.subs
      && (forall id :: id in todo && Wants(b, id, m) ==> !Full(b, id))
      && (forall id :: id in reached ==> id in b.subs - todo && Wants(b, id, m))
      && (forall id :: id in b.subs - todo && Wants(b, id, m) ==> id in reached)
  }

  function CountOutcome(log: seq<Publication>, outcome: Outcome): nat {
    if log == [] then 0
    else CountOutcome(log[..|log| - 1], outcome) + (if log[|log| - 1].outcome == outcome then 1 else 0)
  }

  /** Every finished publish kept its promise, to each subscription too. */
  ghost predicate LogOk(b: Bus) {
    && (forall i :: 0 <= i < |b.log| ==> PublicationOk(b.log[i]) && b.log[i].reached <= b.chans.Keys)
    && (forall i, id :: 0 <= i < |b.log| && id in b.chans ==> Related(b.log[i], i, id, b.chans[id]))
  }

  ghost predicate Inv(b: Bus) {
    && 0 < b.capacity
    && b.subs <= b.chans.Keys
    && PhaseOk(b)
    && (forall id :: id in b.chans ==> ChannelOk(b, id))
    && LogOk(b)
  }

  predicate CountersOk(b: Bus) {
    && b.published == CountOutcome(b.log, Accepted) % COUNTER_MODULUS
    && b.rejections == CountOutcome(b.log, Backpressure) % COUNTER_MODULUS
  }

  lemma ReachingSnoc(log: seq<Publication>, p: Publication, id: SubId)
    ensures Reaching(log + [p], id) == Reaching(log, id) + (if id in p.reached then [p.msg] else [])
  {
    assert (log + [p])[..|log|] == log;
  }

  lemma CountSnoc(log: seq<Publication>, p: Publication, outcome: Outcome)
    ensures CountOutcome(log + [p], outcome) == CountOutcome(log, outcome) + (if p.outcome == outcome then 1 else 0)
  {
    assert (log + [p])[..|log|] == log;
  }

  lemma {:induction false} NeverReached(log: seq<Publication>, id: SubId)
    requires forall i :: 0 <= i < |log| ==> id !in log[i].reached
    ensures Reaching(log, id) == []
  {
    if log != [] { NeverReached(log[..|log| - 1], id); }
  }

  lemma ReceiverKeepsInv(b: Bus, a: Step)
    requires Inv(b) && Enabled(b, a) && IsReceiverStep(a)
    ensures Inv(Do(b, a))
  {
    hide Reaching, Matches, PublicationOk;
    var b' := Do(b, a);
    assert ChannelOk(b, a.id);
    if a.Receive? {
      var ch := b.chans[a.id];
      assert ch.received + [ch.queue[0]] + ch.queue[1..] == ch.received + ch.queue;
    }
    assert ChannelOk(b', a.id);
    forall id | id in b'.chans && id != a.id ensures ChannelOk(b', id) {
      assert ChannelOk(b, id);
    }
    assert LogOk(b') by {
      forall i, id | 0 <= i < |b'.log| && id in b'.chans ensures Related(b'.log[i], i, id, b'.chans[id]) {
        assert Related(b.log[i], i, id, b.chans[id]);
      }
    }
  }

  lemma SubscribeKeepsInv(b: Bus, a: Step)
    requires Inv(b) && Enabled(b, a) && a.Subscribe?
    ensures Inv(Do(b, a))
  {
    var b' := Do(b, a);
    NeverReached(b.log, a.id);
    forall id | id in b'.chans ensures ChannelOk(b', id) {
      if id != a.id { assert ChannelOk(b, id); }
    }
    forall i, id | 0 <= i < |b'.log| && id in b'.chans ensures Related(b'.log[i], i, id, b'.chans[id]) {
      if id != a.id { assert Related(b.log[i], i, id, b.chans[id]); }
    }
  }

  /** Steps that leave queues and history alone. */
  lemma QuietKeepsInv(b: Bus, a: Step)
    requires Inv(b) && Enabled(b, a)
    requires a.Diagnostics? || a.Begin? || a.Retain? || a.StartCheck? || a.StartSend?
    ensures Inv(Do(b, a))
  {
    var b' := Do(b, a);
    if a.StartSend? {
      forall id | id in b'.subs && Wants(b', id, b.phase.msg) ensures !Full(b', id) {
        assert id in b.subs - b.phase.todo && Wants(b, id, b.phase.msg);
      }
    }
    forall id | id in b'.chans ensures ChannelOk(b', id) {
      assert ChannelOk(b, id);
    }
  }

  /** Ending a publish with an outcome that matches what it did. */
  lemma EndKeepsInv(b: Bus, outcome: Outcome)
    requires Inv(b) && !b.phase.Idle?
    requires PublicationOk(EndPublish(b, outcome).log[|b.log|])
    ensures Inv(EndPublish(b, outcome))
  {
    var b' := EndPublish(b, outcome);
    var p := b'.log[|b.log|];
    forall id | id in b'.chans ensures ChannelOk(b', id) {
      assert ChannelOk(b, id);
      ReachingSnoc(b.log, p, id);
      assert Reaching(b'.log, id) + [] == Reaching(b'.log, id);
    }
    forall i, id | 0 <= i < |b'.log| && id in b'.chans ensures Related(b'.log[i], i, id, b'.chans[id]) {
      if i < |b.log| { assert Related(b.log[i], i, id, b.chans[id]); }
      assert ChannelOk(b, id);
    }
  }

  lemma CheckKeepsInv(b: Bus, a: Step)
    requires Inv(b) && Enabled(b, a) && a.Check?
    ensures Inv(Do(b, a))
  {
    if Wants(b, a.id, b.phase.msg) && Full(b, a.id) {
      EndKeepsInv(b, Backpressure);
      ChannelsIgnoreCounters(EndPublish(b, Backpressure), Do(b, a));
    } else {
      var b' := Do(b, a);
      forall id | id in b'.chans ensures ChannelOk(b', id) {
        assert ChannelOk(b, id);
      }
      forall id | id in b'.subs - b'.phase.todo && Wants(b', id, b.phase.msg) ensures !Full(b', id) {
        assert Wants(b, id, b.phase.msg) && (id == a.id || id in b.subs - b.phase.todo);
      }
    }
  }

  lemma ChannelsIgnoreCounters(b: Bus, b': Bus)
    requires Inv(b) && b' == b.(published := b'.published, rejections := b'.rejections)
    ensures Inv(b')
  {
    forall id | id in b'.chans ensures ChannelOk(b', id) {
      assert ChannelOk(b, id);
    }
  }

  /** A send that ends the publish ends it because the receiver closed. */
  lemma OnlyClosedRefuses(b: Bus, a: Step)
    requires PhaseOk(b) && Enabled(b, a) && a.TrySend?
    ensures Wants(b, a.id, b.phase.msg) ==> !Full(b, a.id)
    ensures Do(b, a).phase.Idle? ==> Do(b, a).log[|b.log|].outcome == SendFailed
  {
  }

  lemma TrySendKeepsInv(b: Bus, a: Step)
    requires Inv(b) && Enabled(b, a) && a.TrySend?
    ensures Inv(Do(b, a))
  {
    hide Reaching, Matches;
    var b' := Do(b, a);
    var m := b.phase.msg;
    if Wants(b, a.id, m) && b.chans[a.id].closed {
      assert a.id in Targets(b, m) - b.phase.reached;
      EndKeepsInv(b, SendFailed);
    } else {
      forall id | id in b'.chans ensures ChannelOk(b', id) {
        assert ChannelOk(b, id);
        if id == a.id && Wants(b, id, m) {
          var ch := b.chans[id];
          assert InProgress(b, id) == [];
          assert ch.received + (ch.queue + [m]) == (ch.received + ch.queue) + [m];
          assert Reaching(b.log, id) + [] == Reaching(b.log, id);
        }
      }
      forall i, id | 0 <= i < |b'.log| && id in b'.chans ensures Related(b'.log[i], i, id, b'.chans[id]) {
        assert Related(b.log[i], i, id, b.chans[id]);
      }
    }
  }

  lemma StepKeepsInv(b: Bus, a: Step)
    requires Inv(b) && Enabled(b, a)
    ensures Inv(Do(b, a))
  {
    match a
    case Subscribe(_, _) => SubscribeKeepsInv(b, a);
    case Receive(_) => ReceiverKeepsInv(b, a);
    case Close(_) => ReceiverKeepsInv(b, a);
    case DropReceiver(_) => ReceiverKeepsInv(b, a);
    case Check(_) => CheckKeepsInv(b, a);
    case TrySend(_) => TrySendKeepsInv(b, a);
    case Finish =>
      assert Targets(b, b.phase.msg) == b.phase.reached;
      EndKeepsInv(b, Accepted);
      ChannelsIgnoreCounters(EndPublish(b, Accepted), Do(b, a));
    case _ => QuietKeepsInv(b, a);
  }

  lemma WrapSucc(n: nat)
    ensures (n % COUNTER_MODULUS + 1) % COUNTER_MODULUS == (n + 1) % COUNTER_MODULUS
  {
  }

  /** A concluded publication moves the counter of its outcome, and no other. */
  lemma CountersAfter(b: Bus, next: Bus, p: Publication)
    requires CountersOk(b) && next.log == b.log + [p]
    requires next.published == (if p.outcome.Accepted? then (b.published + 1) % COUNTER_MODULUS else b.published)
    requires next.rejections == (if p.outcome.Backpressure? then (b.rejections + 1) % COUNTER_MODULUS else b.rejections)
    ensures CountersOk(next)
  {
    hide CountOutcome;
    CountSnoc(b.log, p, Accepted);
    CountSnoc(b.log, p, Backpressure);
    WrapSucc(CountOutcome(b.log, Accepted));
    WrapSucc(CountOutcome(b.log, Backpressure));
  }

  /** What a step does to the log and the counters. */
  lemma StepConcludes(b: Bus, a: Step)
    requires PhaseOk(b) && Enabled(b, a)
    ensures var next := Do(b, a);
            if next.log == b.log then next.published == b.published && next.rejections == b.rejections
            else
              && |next.log| == |b.log| + 1 && next.log[..|b.log|] == b.log
              && var outcome := next.log[|b.log|].outcome;
                 && next.published == (if outcome.Accepted? then (b.published + 1) % COUNTER_MODULUS else b.published)
                 && next.rejections ==
                    (if outcome.Backpressure? then (b.rejections + 1) % COUNTER_MODULUS else b.rejections)
  {
    if a.TrySend? { OnlyClosedRefuses(b, a); }
    hide Matches, Targets, PhaseOk, Full;
  }

  lemma StepKeepsCounters(b: Bus, a: Step)
    requires PhaseOk(b) && CountersOk(b) && Enabled(b, a)
    ensures CountersOk(Do(b, a))
  {
    hide Do, Enabled, PhaseOk, CountOutcome;
    StepConcludes(b, a);
    var next := Do(b, a);
    if next.log != b.log {
      assert next.log == b.log + [next.log[|b.log|]];
      CountersAfter(b, next, next.log[|b.log|]);
    }
  }

  lemma {:induction false} RunInv(capacity: nat, steps: seq<Step>)
    requires 1 <= capacity <= 65536 && Runs(NewBus(capacity), steps)
    ensures Inv(Run(NewBus(capacity), steps)) && CountersOk(Run(NewBus(capacity), steps))
    ensures Run(NewBus(capacity), steps).capacity == capacity
  {
    if steps != [] {
      RunInv(capacity, steps[..|steps| - 1]);
      var b := Run(NewBus(capacity), steps[..|steps| - 1]);
      StepKeepsInv(b, steps[|steps| - 1]);
      StepKeepsCounters(b, steps[|steps| - 1]);
    }
  }

  /**
    In every run: no queue exceeds its capacity; an accepted publish reached every
    registered subscriber it matched, a rejected one reached nobody, and only a failed
    send may have reached some and not others; the counters count outcomes.
   */
  lemma PublishesAreAllOrNothing(capacity: nat, steps: seq<Step>)
    requires 1 <= capacity <= 65536 && Runs(NewBus(capacity), steps)
    ensures var b := Run(NewBus(capacity), steps);
            && (forall id :: id in b.chans ==> |b.chans[id].queue| <= capacity)
            && (forall i :: 0 <= i < |b.log| ==> PublicationOk(b.log[i]))
            && b.published == CountOutcome(b.log, Accepted) % COUNTER_MODULUS
            && b.rejections == CountOutcome(b.log, Backpressure) % COUNTER_MODULUS
  {
    RunInv(capacity, steps);
    var b := Run(NewBus(capacity), steps);
    forall id | id in b.chans ensures |b.chans[id].queue| <= capacity {
      assert ChannelOk(b, id);
    }
  }

  /** The fan-out loop never meets a full queue: receivers only free capacity while the lock is held. */
  lemma FanOutNeverFull(capacity: nat, steps: seq<Step>, id: SubId)
    requires 1 <= capacity <= 65536 && Runs(NewBus(capacity), steps)
    requires Enabled(Run(NewBus(capacity), steps), TrySend(id))
    ensures var b := Run(NewBus(capacity), steps); Wants(b, id, b.phase.msg) ==> !Full(b, id)
    ensures var b := Run(NewBus(capacity), steps);
            var b' := Do(b, TrySend(id));
            b'.phase.Idle? ==> b'.log[|b.log|].outcome == SendFailed
  {
    RunInv(capacity, steps);
    OnlyClosedRefuses(Run(NewBus(capacity), steps), TrySend(id));
  }

  /** Reference: what a subscriber is owed, computed from outcomes and filters alone. */
  function Owed(log: seq<Publication>, ch: Channel): seq<Message> {
    if log == [] then []
    else
      var init := Owed(log[..|log| - 1], ch);
      var p := log[|log| - 1];
      if ch.since < |log| && p.outcome.Accepted? && Matches(ch.filter, p.msg) then init + [p.msg] else init
  }

  /**
    In every run, what an open subscriber has received plus what is queued for it is,
    in order, the messages of the publishes that reached it: all the accepted ones it
    matched since it subscribed, none of the rejected ones, and possibly failed ones.
   */
  lemma OpenSubscriberSeesItsMessages(capacity: nat, steps: seq<Step>, id: SubId)
    requires 1 <= capacity <= 65536 && Runs(NewBus(capacity), steps)
    requires id in Run(NewBus(capacity), steps).chans && !Run(NewBus(capacity), steps).chans[id].closed
    ensures var b := Run(NewBus(capacity), steps);
            var ch := b.chans[id];
            && ch.received + ch.queue == Reaching(b.log, id) + InProgress(b, id)
            && (forall i :: 0 <= i < |b.log| && id in b.log[i].reached ==>
                              ch.since <= i && Matches(ch.filter, b.log[i].msg))
            && (forall i :: ch.since <= i < |b.log| && Matches(ch.filter, b.log[i].msg) &&
                            b.log[i].outcome.Accepted? ==>
                              id in b.log[i].reached)
            && (forall i :: 0 <= i < |b.log| && b.log[i].outcome.Backpressure? ==> id !in b.log[i].reached)
            && ((forall i :: 0 <= i < |b.log| && id in b.log[i].reached ==> !b.log[i].outcome.SendFailed?) ==>
                  Reaching(b.log, id) == Owed(b.log, ch))
  {
    RunInv(capacity, steps);
    var b := Run(NewBus(capacity), steps);
    var ch := b.chans[id];
    assert ChannelOk(b, id);
    forall i | 0 <= i < |b.log| ensures Related(b.log[i], i, id, ch) && PublicationOk(b.log[i]) {}
    if forall i :: 0 <= i < |b.log| && id in b.log[i].reached ==> !b.log[i].outcome.SendFailed? {
      ReachingIsOwed(b.log, id, ch);
    }
  }

  lemma {:induction false} ReachingIsOwed(log: seq<Publication>, id: SubId, ch: Channel)
    requires !ch.closed
    requires forall i :: 0 <= i < |log| ==> Related(log[i], i, id, ch) && PublicationOk(log[i])
    requires forall i :: 0 <= i < |log| && id in log[i].reached ==> !log[i].outcome.SendFailed?
    ensures Reaching(log, id) == Owed(log, ch)
  {
    if log != [] {
      ReachingIsOwed(log[..|log| - 1], id, ch);
      var p := log[|log| - 1];
      assert Related(p, |log| - 1, id, ch) && PublicationOk(p);
    }
  }

  // ---------------------------------------------------------------------------
  // The adapter itself
  // ---------------------------------------------------------------------------

  /**
    The bus object. `Publish` is the source's loop; `env` is what receivers do before
    each access to a queue, so its contract covers every schedule. Each method is a run
    of the steps above.
   */
  /** Some receiver of the environment takes this step at some moment. */
  ghost predicate FromEnv(env: nat -> seq<Step>, a: Step) {
    exists tick: nat :: a in env(tick)
  }

  /** `trace` continues `before`, and its receivers' steps there come from the environment. */
  ghost predicate Continues(before: seq<Step>, trace: seq<Step>, env: nat -> seq<Step>) {
    && before <= trace
    && forall i :: |before| <= i < |trace| && IsReceiverStep(trace[i]) ==> FromEnv(env, trace[i])
  }

  lemma ContinuesSelf(trace: seq<Step>, env: nat -> seq<Step>)
    ensures Continues(trace, trace, env)
  {
  }

  /** No receiver opens again. */
  ghost predicate StillClosed(before: map<SubId, Channel>, after: map<SubId, Channel>) {
    forall id :: id in before && before[id].closed ==> id in after && after[id].closed
  }

  /** Among those looked at, exactly closed receivers were dropped, and none closed from the start is left. */
  ghost predicate Sifted(was: map<SubId, Channel>, registered: set<SubId>, now: map<SubId, Channel>, subs: set<SubId>,
                         todo: set<SubId>)
  {
    && todo <= subs <= registered && subs <= now.Keys
    && was.Keys == now.Keys && StillClosed(was, now)
    && (forall id :: id in registered && id in now && id !in subs ==> now[id].closed)
    && (forall id :: id in registered && id in was && was[id].closed ==> id in todo || id !in subs)
  }

  lemma SiftStart(chans: map<SubId, Channel>, subs: set<SubId>)
    requires subs <= chans.Keys
    ensures Sifted(chans, subs, chans, subs, subs)
  {
  }

  lemma SiftWaits(was: map<SubId, Channel>, registered: set<SubId>, now: map<SubId, Channel>, next: map<SubId, Channel>,
                  subs: set<SubId>, todo: set<SubId>)
    requires Sifted(was, registered, now, subs, todo) && next.Keys == now.Keys && StillClosed(now, next)
    ensures Sifted(was, registered, next, subs, todo)
  {
  }

  lemma SiftOne(was: map<SubId, Channel>, registered: set<SubId>, now: map<SubId, Channel>, subs: set<SubId>,
                todo: set<SubId>, id: SubId)
    requires Sifted(was, registered, now, subs, todo) && id in todo
    ensures id in now
    ensures Sifted(was, registered, now, if now[id].closed then subs - {id} else subs, todo - {id})
  {
  }

  lemma SiftEnd(was: map<SubId, Channel>, registered: set<SubId>, now: map<SubId, Channel>, subs: set<SubId>)
    requires Sifted(was, registered, now, subs, {})
    ensures subs <= now.Keys == was.Keys && subs <= registered
    ensures forall id :: id in registered && id in was && was[id].closed ==> id !in subs
    ensures forall id :: id in registered && id in now && id !in subs ==> now[id].closed
  {
  }

  lemma ContinuesOn(before: seq<Step>, trace: seq<Step>, a: Step, env: nat -> seq<Step>)
    requires Continues(before, trace, env) && (IsReceiverStep(a) ==> FromEnv(env, a))
    ensures Continues(before, trace + [a], env)
  {
    hide FromEnv, IsReceiverStep;
  }

  lemma ContinuesBy(before: seq<Step>, middle: seq<Step>, trace: seq<Step>, env: nat -> seq<Step>)
    requires Continues(before, middle, env) && Continues(middle, trace, env)
    ensures Continues(before, trace, env)
  {
    hide FromEnv, IsReceiverStep;
    forall i | |before| <= i < |trace| && IsReceiverStep(trace[i]) ensures FromEnv(env, trace[i]) {
      if i < |middle| { assert trace[i] == middle[i]; }
    }
  }

  datatype BusDiagnostics = BusDiagnostics(
    bounded: bool,
    subscriptionCapacity: nat,
    subscriberCount: nat,
    publishedMessages: nat,
    backpressureRejections: nat)

  class InProcessMessageBus {
    const capacity: nat
    var subs: set<SubId>
    var chans: map<SubId, Channel>
    var published: nat
    var rejections: nat
    ghost var phase: Phase
    var log: seq<Publication>

    ghost function State(): Bus
      reads this
    {
      Bus(capacity, subs, chans, phase, published, rejections, log)
    }

    constructor (capacity: nat)
      requires 1 <= capacity <= 65536
      ensures State() == NewBus(capacity)
    {
      this.capacity := capacity;
      subs, chans, published, rejections, phase, log := {}, map[], 0, 0, Idle, [];
    }

    /** The object's state is where `trace` leads from `start`. */
    ghost predicate Traced(start: Bus, trace: seq<Step>)
      reads this
    {
      Runs(start, trace) && Run(start, trace) == State()
    }

    /** Receivers act: take a message, close, or go away. Impossible actions do nothing. */
    method Interfere(env: nat -> seq<Step>, tick: nat, ghost start: Bus, ghost trace: seq<Step>)
      returns (ghost trace': seq<Step>)
      requires Traced(start, trace)
      modifies this`chans
      ensures Traced(start, trace') && Continues(trace, trace', env)
      ensures chans.Keys == old(chans).Keys && StillClosed(old(chans), chans)
    {
      hide Runs, Run, Continues;
      trace' := trace;
      ContinuesSelf(trace, env);
      var acts := env(tick);
      for i := 0 to |acts|
        invariant Traced(start, trace') && Continues(trace, trace', env)
        invariant chans.Keys == old(chans).Keys && StillClosed(old(chans), chans)
      {
        var a := acts[i];
        if IsReceiverStep(a) && a.id in chans && (a.Receive? ==> chans[a.id].queue != []) {
          RunSnoc(start, trace', a);
          ContinuesOn(trace, trace', a, env);
          var ch := chans[a.id];
          if a.Receive? {
            chans := chans[a.id := ch.(queue := ch.queue[1..], received := ch.received + [ch.queue[0]])];
          } else if a.Close? {
            chans := chans[a.id := ch.(closed := true)];
          } else {
            chans := chans[a.id := ch.(closed := true, queue := [])];
          }
          trace' := trace' + [a];
        }
      }
    }

    method Subscribe(id: SubId, filter: Filter)
      requires phase.Idle? && id !in chans
      modifies this
      ensures State() == Do(old(State()), Step.Subscribe(id, filter))
    {
      subs := subs + {id};
      chans := chans[id := Channel(filter, [], false, [], |log|)];
    }

    /** `diagnostics`: prune closed subscribers, then report. */
    method Diagnostics() returns (report: BusDiagnostics)
      requires phase.Idle?
      modifies this
      ensures State() == Do(old(State()), Step.Diagnostics)
      ensures report == BusDiagnostics(true, capacity, |subs|, published, rejections)
    {
      subs := set id | id in subs && !(id in chans && chans[id].closed);
      report := BusDiagnostics(true, capacity, |subs|, published, rejections);
    }

    /** Look at one subscriber. */
    method RetainOne(msg: Message, id: SubId, ghost start: Bus, ghost before: seq<Step>)
      returns (ghost trace: seq<Step>)
      requires Traced(start, before) && phase.Retaining? && phase.msg == msg && id in phase.todo && id in chans
      modifies this`subs, this`phase
      ensures Traced(start, trace) && trace == before + [Retain(id)]
      ensures phase == Retaining(msg, old(phase.todo) - {id})
      ensures subs == if chans[id].closed then old(subs) - {id} else old(subs)
    {
      hide Runs, Run, Matches, Full;
      RunSnoc(start, before, Retain(id));
      if chans[id].closed {
        subs := subs - {id};
      }
      phase, trace := Retaining(msg, phase.todo - {id}), before + [Retain(id)];
    }

    /** First pass: drop subscribers whose receiver is closed. */
    method RetainOpen(msg: Message, env: nat -> seq<Step>, ghost start: Bus, ghost before: seq<Step>)
      returns (tick: nat, ghost trace: seq<Step>)
      requires Traced(start, before) && phase == Retaining(msg, subs) && subs <= chans.Keys
      modifies this`subs, this`chans, this`phase
      ensures Traced(start, trace) && Continues(before, trace, env)
      ensures phase == Retaining(msg, {}) && subs <= chans.Keys == old(chans).Keys && subs <= old(subs)
      ensures forall id :: id in old(subs) && old(chans)[id].closed ==> id !in subs
      ensures forall id :: id in old(subs) && id !in subs ==> chans[id].closed
    {
      hide Runs, Run, Continues, Sifted, StillClosed;
      var todo := subs;
      tick, trace := 0, before;
      ContinuesSelf(before, env);
      SiftStart(chans, subs);
      while todo != {}
        invariant Traced(start, trace) && Continues(before, trace, env)
        invariant phase == Retaining(msg, todo) && Sifted(old(chans), old(subs), chans, subs, todo)
        decreases todo
      {
        ghost var seen, channels := trace, chans;
        trace := Interfere(env, tick, start, trace);
        ContinuesBy(before, seen, trace, env);
        SiftWaits(old(chans), old(subs), channels, chans, subs, todo);
        var id :| id in todo;
        ContinuesOn(before, trace, Retain(id), env);
        SiftOne(old(chans), old(subs), chans, subs, todo, id);
        trace := RetainOne(msg, id, start, trace);
        todo, tick := todo - {id}, tick + 1;
      }
      SiftEnd(old(chans), old(subs), chans, subs);
    }

    /** One capacity check; a full matching queue ends the publish. */
    method IsFull(msg: Message, id: SubId, ghost start: Bus, ghost before: seq<Step>)
      returns (full: bool, ghost trace: seq<Step>)
      requires Traced(start, before) && phase.Checking? && phase.msg == msg
      requires id in phase.todo && phase.todo <= subs <= chans.Keys
      modifies this`phase, this`log, this`rejections
      ensures Traced(start, trace) && trace == before + [Check(id)]
      ensures !full ==> phase == Checking(msg, old(phase.todo) - {id}) && log == old(log)
      ensures full ==> Concluded(old(log), msg, Backpressure)
    {
      hide Matches, Runs, Run;
      RunSnoc(start, before, Check(id));
      trace := before + [Check(id)];
      full := Matches(chans[id].filter, msg) && |chans[id].queue| >= capacity;
      if full {
        Conclude(msg, {}, Backpressure);
        rejections := (rejections + 1) % COUNTER_MODULUS;
      } else {
        phase := Checking(msg, phase.todo - {id});
      }
    }

    /** Second pass: is any matching queue full? */
    method AnyFull(msg: Message, env: nat -> seq<Step>, tick0: nat, ghost start: Bus, ghost before: seq<Step>)
      returns (full: bool, tick: nat, ghost trace: seq<Step>)
      requires Traced(start, before) && phase == Checking(msg, subs) && subs <= chans.Keys
      modifies this
      ensures Traced(start, trace) && Continues(before, trace, env) && subs <= chans.Keys
      ensures !full ==> phase == Checking(msg, {}) && log == old(log)
      ensures full ==> Concluded(old(log), msg, Backpressure)
    {
      hide Runs, Run, Continues;
      var todo := subs;
      tick, trace := tick0, before;
      ContinuesSelf(before, env);
      while todo != {}
        invariant Traced(start, trace) && Continues(before, trace, env)
        invariant phase == Checking(msg, todo) && todo <= subs <= chans.Keys && log == old(log)
        decreases todo
      {
        ghost var seen := trace;
        trace := Interfere(env, tick, start, trace);
        ContinuesBy(before, seen, trace, env);
        var id :| id in todo;
        ContinuesOn(before, trace, Check(id), env);
        full, trace := IsFull(msg, id, start, trace);
        if full {
          return;
        }
        todo, tick := todo - {id}, tick + 1;
      }
      full := false;
    }

    /** `try_send` to one matching subscriber; a refusal ends the publish. */
    method TrySendOne(msg: Message, id: SubId, reached: set<SubId>, ghost start: Bus, ghost before: seq<Step>)
      returns (r: Outcome, ghost trace: seq<Step>)
      requires Traced(start, before) && phase.Sending? && phase.msg == msg && phase.reached == reached
      requires id in phase.todo && phase.todo <= subs <= chans.Keys && Matches(chans[id].filter, msg)
      modifies this`phase, this`log, this`chans
      ensures Traced(start, trace) && trace == before + [TrySend(id)] && chans.Keys == old(chans).Keys
      ensures r.Accepted? ==> phase == Sending(msg, old(phase.todo) - {id}, reached + {id}) && log == old(log)
      ensures !r.Accepted? ==> Concluded(old(log), msg, r)
    {
      RunSnoc(start, before, TrySend(id));
      trace := before + [TrySend(id)];
      if chans[id].closed {
        Conclude(msg, reached, SendFailed);
        return SendFailed, trace;
      }
      if |chans[id].queue| >= capacity {
        Conclude(msg, reached, Backpressure);
        return Backpressure, trace;
      }
      chans := chans[id := chans[id].(queue := chans[id].queue + [msg])];
      phase := Sending(msg, phase.todo - {id}, reached + {id});
      r := Accepted;
    }

    /** Third pass: queue the message for every matching subscriber. */
    method FanOut(msg: Message, env: nat -> seq<Step>, tick0: nat, ghost start: Bus, ghost before: seq<Step>)
      returns (r: Outcome, ghost trace: seq<Step>)
      requires Traced(start, before) && phase == Sending(msg, subs, {}) && subs <= chans.Keys
      modifies this
      ensures Traced(start, trace) && Continues(before, trace, env) && subs <= chans.Keys
      ensures Concluded(old(log), msg, r)
    {
      hide Matches, Runs, Run, Continues;
      var todo := subs;
      var reached: set<SubId> := {};
      var tick := tick0;
      trace := before;
      ContinuesSelf(before, env);
      while todo != {}
        invariant Traced(start, trace) && Continues(before, trace, env)
        invariant phase == Sending(msg, todo, reached) && todo <= subs <= chans.Keys && log == old(log)
        decreases todo
      {
        ghost var seen := trace;
        trace := Interfere(env, tick, start, trace);
        ContinuesBy(before, seen, trace, env);
        var id :| id in todo;
        ContinuesOn(before, trace, TrySend(id), env);
        if Matches(chans[id].filter, msg) {
          r, trace := TrySendOne(msg, id, reached, start, trace);
          if !r.Accepted? {
            return;
          }
          reached := reached + {id};
        } else {
          RunSnoc(start, trace, TrySend(id));
          phase, trace := Sending(msg, todo - {id}, reached), trace + [TrySend(id)];
        }
        todo, tick := todo - {id}, tick + 1;
      }
      RunSnoc(start, trace, Finish);
      ContinuesOn(before, trace, Finish, env);
      Conclude(msg, reached, Accepted);
      published, trace := (published + 1) % COUNTER_MODULUS, trace + [Finish];
      r := Accepted;
    }

    ghost predicate Concluded(before: seq<Publication>, msg: Message, outcome: Outcome)
      reads this
    {
      && phase.Idle?
      && |log| == |before| + 1
      && log[..|before|] == before
      && log[|before|].msg == msg
      && log[|before|].outcome == outcome
    }

    method Publish(msg: Message, env: nat -> seq<Step>) returns (r: Outcome, ghost trace: seq<Step>)
      requires phase.Idle? && subs <= chans.Keys
      modifies this
      ensures Runs(old(State()), trace) && Run(old(State()), trace) == State()
      ensures Continues([Begin(msg)], trace, env)
      ensures subs <= chans.Keys
      ensures Concluded(old(log), msg, r)
    {
      hide Continues;
      ghost var start := State();
      ghost var begun := [Begin(msg)];
      RunSnoc(start, [], Begin(msg));
      assert [] + begun == begun;
      phase, trace := Retaining(msg, subs), begun;
      var tick;
      tick, trace := RetainOpen(msg, env, start, trace);
      RunSnoc(start, trace, StartCheck);
      ContinuesOn(begun, trace, StartCheck, env);
      phase, trace := Checking(msg, subs), trace + [StartCheck];
      var full;
      ghost var seen := trace;
      full, tick, trace := AnyFull(msg, env, tick, start, trace);
      ContinuesBy(begun, seen, trace, env);
      if full {
        return Backpressure, trace;
      }
      RunSnoc(start, trace, StartSend);
      ContinuesOn(begun, trace, StartSend, env);
      phase, trace := Sending(msg, subs, {}), trace + [StartSend];
      seen := trace;
      r, trace := FanOut(msg, env, tick, start, trace);
      ContinuesBy(begun, seen, trace, env);
    }

    /** Release the lock and note what the publish did. */
    method Conclude(msg: Message, reached: set<SubId>, outcome: Outcome)
      modifies this`log, this`phase
      ensures log == old(log) + [Publication(msg, Targets(old(State()), msg), reached, outcome)]
      ensures phase == Idle
    {
      var targets := set id | id in subs && id in chans && Matches(chans[id].filter, msg);
      assert targets == Targets(State(), msg);
      log := log + [Publication(msg, targets, reached, outcome)];
      phase := Idle;
    }
  }
}
