/**
  Every run of the Unix relay hub: clients connecting, loading and leaving, chat
  turns starting, and relay tasks recording an event under the lock and sending it
  afterwards, one recipient at a time, with any interleaving in between.

  `turns`, the turn number on a delivery and `inbox` are history: they record what
  happened and no step of the hub reads them.
 */
module RelayRuns {
  import opened Common
  import opened ReplayBuffer
  import opened RelayHub

  /** Where a relay task stands; `remaining` is the unsent part of its recipient snapshot. */
  datatype Phase = Waiting | Sending(msg: ServerMsg, remaining: set<ClientId>) | Ended

  /** One turn of a session: the events recorded in it and the relay task its chat spawned, if any. */
  datatype Turn = Turn(log: seq<ServerMsg>, relay: Option<Phase>)

  datatype Delivery =
    | History(session: SessionId, truncated: bool)
    | Event(session: SessionId, turn: nat, msg: ServerMsg)
    | Reply

  datatype World = World(
    hub: Hub,
    nextId: nat,
    turns: map<SessionId, seq<Turn>>,
    inbox: map<ClientId, seq<Delivery>>)

  datatype Step =
    | Connect
    | Detach(client: ClientId)
    | Chat(client: ClientId, session: SessionId)
    | Load(client: ClientId, session: SessionId)
    | Record(session: SessionId, turn: nat, msg: ServerMsg)
    | Send(session: SessionId, turn: nat, client: ClientId)
    | FinishSend(session: SessionId, turn: nat)
    | RelayStops(session: SessionId, turn: nat)
    | DirectReply(client: ClientId)

  const INIT: World := World(Hub({}, map[], {}, map[]), 0, map[], map[])

  function TurnsOf(w: World, s: SessionId): seq<Turn> {
    if s in w.turns then w.turns[s] else []
  }

  function Inbox(w: World, c: ClientId): seq<Delivery> {
    if c in w.inbox then w.inbox[c] else []
  }

  function Deliver(w: World, c: ClientId, ds: seq<Delivery>): World {
    w.(inbox := w.inbox[c := Inbox(w, c) + ds])
  }

  predicate InPhase(w: World, s: SessionId, t: nat, ok: Phase -> bool) {
    && t < |TurnsOf(w, s)|
    && TurnsOf(w, s)[t].relay.Some?
    && ok(TurnsOf(w, s)[t].relay.value)
  }

  predicate Enabled(w: World, a: Step) {
    match a
    case Record(s, t, _) => InPhase(w, s, t, (p: Phase) => p.Waiting?)
    case Send(s, t, c) => InPhase(w, s, t, (p: Phase) => p.Sending? && c in p.remaining)
    case FinishSend(s, t) => InPhase(w, s, t, (p: Phase) => p.Sending? && p.remaining == {})
    case RelayStops(s, t) => InPhase(w, s, t, (p: Phase) => p.Waiting?)
    case _ => true
  }

  function SetPhase(turns: seq<Turn>, t: nat, p: Phase): seq<Turn>
    requires t < |turns|
  {
    turns[t := turns[t].(relay := Some(p))]
  }

  /** An event reaches the log of the session's newest turn while that turn is active. */
  function Logged(turns: seq<Turn>, active: bool, m: ServerMsg): (r: seq<Turn>)
    ensures |r| == |turns|
  {
    if active && |turns| > 0 then
      var last := |turns| - 1;
      turns[last := turns[last].(log := turns[last].log + [m])]
    else turns
  }

  function AsEvents(s: SessionId, t: nat, ms: seq<ServerMsg>): (ds: seq<Delivery>)
    ensures |ds| == |ms|
  {
    if ms == [] then [] else [Event(s, t, ms[0])] + AsEvents(s, t, ms[1..])
  }

  function CurrentTurn(w: World, s: SessionId): nat {
    if TurnsOf(w, s) == [] then 0 else |TurnsOf(w, s)| - 1
  }

  function Do(w: World, a: Step): World
    requires Enabled(w, a)
  {
    match a
    case Connect =>
      w.(hub := Connected(w.hub, w.nextId + 1), nextId := w.nextId + 1)
    case Detach(c) =>
      w.(hub := Detached(w.hub, c))
    case Chat(c, s) =>
      (match ActivationOf(w.hub, s)
       case Refused => w
       case Activated(startRelay) =>
         var turn := Turn([], if startRelay then Some(Waiting) else None);
         w.(hub := ActivatedHub(w.hub, c, s), turns := w.turns[s := TurnsOf(w, s) + [turn]]))
    case Load(c, s) =>
      var r := ReplayOf(w.hub, s);
      Deliver(w, c, [History(s, r.truncated)] + AsEvents(s, CurrentTurn(w, s), r.events))
      .(hub := Attached(w.hub, c, s))
    case Record(s, t, m) =>
      var hub := Recorded(w.hub, s, m);
      var logged := Logged(TurnsOf(w, s), ReplayOf(w.hub, s).active, m);
      w.(hub := hub, turns := w.turns[s := SetPhase(logged, t, Sending(m, Recipients(hub, s)))])
    case Send(s, t, c) =>
      var p := TurnsOf(w, s)[t].relay.value;
      Deliver(w, c, [Event(s, t, p.msg)])
      .(turns := w.turns[s := SetPhase(TurnsOf(w, s), t, Sending(p.msg, p.remaining - {c}))])
    case FinishSend(s, t) =>
      var p := TurnsOf(w, s)[t].relay.value;
      w.(turns := w.turns[s := SetPhase(TurnsOf(w, s), t, if Terminal(p.msg) then Ended else Waiting)])
    case RelayStops(s, t) =>
      w.(turns := w.turns[s := SetPhase(TurnsOf(w, s), t, Ended)])
    case DirectReply(c) =>
      Deliver(w, c, [Reply])
  }

  ghost predicate Runs(w: World, steps: seq<Step>)
    decreases |steps|
  {
    steps == [] || (Enabled(w, steps[0]) && Runs(Do(w, steps[0]), steps[1..]))
  }

  ghost function Run(w: World, steps: seq<Step>): World
    requires Runs(w, steps)
    decreases |steps|
  {
    if steps == [] then w else Run(Do(w, steps[0]), steps[1..])
  }

  ghost predicate Reachable(w: World) {
    exists steps :: Runs(INIT, steps) && Run(INIT, steps) == w
  }

  // ---------------------------------------------------------------------------
  // The invariant of every run
  // ---------------------------------------------------------------------------

  /** The relay task may still record another event. */
  predicate CanEmit(p: Phase) {
    p.Waiting? || (p.Sending? && !Terminal(p.msg))
  }

  /** Every turn has its relay task, and only the task of an active newest turn can still emit. */
  predicate RelaysOk(active: bool, turns: seq<Turn>) {
    forall t :: 0 <= t < |turns| ==>
                  && turns[t].relay.Some?
                  && (CanEmit(turns[t].relay.value) ==> active && t == |turns| - 1)
  }

  function NewestLog(turns: seq<Turn>): seq<ServerMsg> {
    if turns == [] then [] else turns[|turns| - 1].log
  }

  /** An active buffer is the longest fitting suffix of the newest turn. */
  ghost predicate BufferOk(r: Replay, newest: seq<ServerMsg>) {
    if r.active then Retains(r, newest) else r == IDLE
  }

  ghost predicate SessionOk(inRelays: bool, r: Replay, turns: seq<Turn>) {
    && inRelays == r.active
    && (r.active ==> turns != [])
    && RelaysOk(r.active, turns)
    && BufferOk(r, NewestLog(turns))
  }

  ghost predicate SessionInv(w: World, s: SessionId) {
    SessionOk(s in w.hub.relays, ReplayOf(w.hub, s), TurnsOf(w, s))
  }

  ghost predicate Inv(w: World) {
    forall s :: SessionInv(w, s)
  }

  lemma ActivationOk(turns: seq<Turn>)
    requires SessionOk(false, IDLE, turns)
    ensures SessionOk(true, FRESH, turns + [Turn([], Some(Waiting))])
  {
    var log: seq<ServerMsg> := [];
    assert log[0..] == [];
    assert Retains(FRESH, log);
  }

  lemma RecordOk(r: Replay, turns: seq<Turn>, t: nat, m: ServerMsg, recipients: set<ClientId>)
    requires SessionOk(r.active, r, turns)
    requires t < |turns| && turns[t].relay == Some(Waiting)
    ensures r.active && t == |turns| - 1
    ensures SessionOk(!Terminal(m), Relayed(r, m), SetPhase(Logged(turns, r.active, m), t, Sending(m, recipients)))
  {
    hide Retains, Append, Terminal, LongestFit;
    AppendRetains(r, turns[t].log, m);
    RetainsActive(Append(r, m), turns[t].log + [m]);
  }

  lemma RetainsActive(r: Replay, log: seq<ServerMsg>)
    requires Retains(r, log)
    ensures r.active
  {
  }

  lemma PhaseOk(r: Replay, turns: seq<Turn>, t: nat, p: Phase)
    requires SessionOk(r.active, r, turns)
    requires t < |turns| && turns[t].relay.Some? && (CanEmit(p) ==> CanEmit(turns[t].relay.value))
    ensures SessionOk(r.active, r, SetPhase(turns, t, p))
  {
    assert NewestLog(SetPhase(turns, t, p)) == NewestLog(turns);
  }

  /** Every step of every actor keeps the invariant. */
  lemma StepKeepsInv(w: World, a: Step)
    requires Inv(w) && Enabled(w, a)
    ensures Inv(Do(w, a))
  {
    var w' := Do(w, a);
    forall s ensures SessionInv(w', s) {
      assert SessionInv(w, s);
      var r, turns := ReplayOf(w.hub, s), TurnsOf(w, s);
      match a
      case Chat(_, s') =>
        if s' == s && !r.active { ActivationOk(turns); }
      case Record(s', t, m) =>
        if s' == s { RecordOk(r, turns, t, m, Recipients(w'.hub, s)); }
      case Send(s', t, c) =>
        if s' == s { PhaseOk(r, turns, t, TurnsOf(w', s)[t].relay.value); }
      case FinishSend(s', t) =>
        if s' == s { PhaseOk(r, turns, t, TurnsOf(w', s)[t].relay.value); }
      case RelayStops(s', t) =>
        if s' == s { PhaseOk(r, turns, t, Ended); }
      case _ =>
    }
  }

  lemma {:induction false} RunKeepsInv(w: World, steps: seq<Step>)
    requires Inv(w) && Runs(w, steps)
    ensures Inv(Run(w, steps))
    decreases |steps|
  {
    if steps != [] {
      StepKeepsInv(w, steps[0]);
      RunKeepsInv(Do(w, steps[0]), steps[1..]);
    }
  }

  lemma ReachableInv(w: World)
    requires Reachable(w)
    ensures Inv(w)
  {
    var steps :| Runs(INIT, steps) && Run(INIT, steps) == w;
    RunKeepsInv(INIT, steps);
  }

  /**
    In every run a session is in `relays` exactly while its replay is active, the
    buffer is the longest fitting suffix of the turn, every accepted chat spawns the
    one relay task of its turn, and at most one task per session can still emit.
   */
  lemma RelaysMatchActiveTurns(w: World, s: SessionId)
    requires Reachable(w)
    ensures s in w.hub.relays <==> ReplayOf(w.hub, s).active
    ensures ReplayOf(w.hub, s).active ==>
              TurnsOf(w, s) != [] && Retains(ReplayOf(w.hub, s), NewestLog(TurnsOf(w, s)))
    ensures ActivationOf(w.hub, s) != Activated(false)
    ensures forall t :: 0 <= t < |TurnsOf(w, s)| ==> TurnsOf(w, s)[t].relay.Some?
    ensures forall t, u :: 0 <= t < |TurnsOf(w, s)| && 0 <= u < |TurnsOf(w, s)|
                        && CanEmit(TurnsOf(w, s)[t].relay.value) && CanEmit(TurnsOf(w, s)[u].relay.value)
                        ==> t == u
  {
    ReachableInv(w);
    assert SessionInv(w, s);
  }

  // ---------------------------------------------------------------------------
  // Delivery to a client that attaches in the middle of a turn
  // ---------------------------------------------------------------------------

  /** The events of one turn among some deliveries, in delivery order. */
  function EventsOf(ds: seq<Delivery>, s: SessionId, t: nat): seq<ServerMsg> {
    if ds == [] then []
    else
      var init := EventsOf(ds[..|ds| - 1], s, t);
      var d := ds[|ds| - 1];
      if d.Event? && d.session == s && d.turn == t then init + [d.msg] else init
  }

  /** The event of turn `t` still to be sent to `c`, if its snapshot names `c`. */
  function InFlight(w: World, s: SessionId, t: nat, c: ClientId): seq<ServerMsg> {
    if t < |TurnsOf(w, s)| && TurnsOf(w, s)[t].relay.Some? then
      var p := TurnsOf(w, s)[t].relay.value;
      if p.Sending? && c in p.remaining then [p.msg] else []
    else []
  }

  /** Steps that end the attachment of `c`, or restart it. */
  predicate Moves(a: Step, c: ClientId) {
    (a.Detach? || a.Load?) && a.client == c
  }

  /** What `c` has been sent since `base`, plus what is in flight to it, is `prefix` and the log from `from`. */
  ghost predicate Follows(w: World, c: ClientId, s: SessionId, t: nat, base: nat, prefix: seq<ServerMsg>, from: nat) {
    && c in Recipients(w.hub, s)
    && base <= |Inbox(w, c)|
    && t < |TurnsOf(w, s)|
    && from <= |TurnsOf(w, s)[t].log|
    && EventsOf(Inbox(w, c)[base..], s, t) + InFlight(w, s, t, c) == prefix + TurnsOf(w, s)[t].log[from..]
  }

  lemma EventsOfSnoc(ds: seq<Delivery>, d: Delivery, s: SessionId, t: nat)
    ensures EventsOf(ds + [d], s, t) ==
            EventsOf(ds, s, t) + (if d.Event? && d.session == s && d.turn == t then [d.msg] else [])
  {
    assert (ds + [d])[..|ds|] == ds;
  }

  lemma {:induction false} EventsOfBuffer(ds: seq<Delivery>, s: SessionId, t: nat, ms: seq<ServerMsg>)
    ensures EventsOf(ds + AsEvents(s, t, ms), s, t) == EventsOf(ds, s, t) + ms
    decreases |ms|
  {
    if ms == [] {
      assert ds + AsEvents(s, t, ms) == ds;
    } else {
      var d := Event(s, t, ms[0]);
      assert ds + AsEvents(s, t, ms) == (ds + [d]) + AsEvents(s, t, ms[1..]);
      EventsOfBuffer(ds + [d], s, t, ms[1..]);
      EventsOfSnoc(ds, d, s, t);
      assert EventsOf(ds, s, t) + [ms[0]] + ms[1..] == EventsOf(ds, s, t) + ms;
    }
  }

  lemma SendFollows(w: World, a: Step, c: ClientId, s: SessionId, t: nat, base: nat, prefix: seq<ServerMsg>, from: nat)
    requires Enabled(w, a) && a.Send?
    requires Follows(w, c, s, t, base, prefix, from)
    ensures Follows(Do(w, a), c, s, t, base, prefix, from)
  {
    hide EventsOf;
    var w' := Do(w, a);
    if a.client == c {
      var d := Event(a.session, a.turn, TurnsOf(w, a.session)[a.turn].relay.value.msg);
      assert Inbox(w', c)[base..] == Inbox(w, c)[base..] + [d];
      EventsOfSnoc(Inbox(w, c)[base..], d, s, t);
    }
  }

  /** Only the relay task of the newest, active turn records. */
  lemma NewestRecords(w: World, s: SessionId, t: nat, m: ServerMsg)
    requires Inv(w) && Enabled(w, Record(s, t, m))
    ensures ReplayOf(w.hub, s).active && t == |TurnsOf(w, s)| - 1
  {
    assert SessionInv(w, s);
  }

  lemma RecordFollows(w: World, a: Step, c: ClientId, s: SessionId, t: nat, base: nat, prefix: seq<ServerMsg>,
                      from: nat)
    requires Enabled(w, a) && a.Record?
    requires ReplayOf(w.hub, a.session).active && a.turn == |TurnsOf(w, a.session)| - 1
    requires Follows(w, c, s, t, base, prefix, from)
    ensures Follows(Do(w, a), c, s, t, base, prefix, from)
  {
    hide EventsOf;
    var w' := Do(w, a);
    var received := EventsOf(Inbox(w, c)[base..], s, t);
    if a.session == s && a.turn == t {
      var log := TurnsOf(w, s)[t].log;
      assert TurnsOf(w', s)[t].log == log + [a.msg];
      assert (log + [a.msg])[from..] == log[from..] + [a.msg];
      assert InFlight(w, s, t, c) == [] && InFlight(w', s, t, c) == [a.msg];
      assert received == received + InFlight(w, s, t, c) == prefix + log[from..];
      assert received + [a.msg] == prefix + (log[from..] + [a.msg]);
    } else {
      assert InFlight(w', s, t, c) == InFlight(w, s, t, c);
      assert TurnsOf(w', s)[t].log == TurnsOf(w, s)[t].log;
    }
  }

  /** Worlds that agree on what `c` has been sent, is being sent and is owed. */
  ghost predicate Agree(w: World, w': World, c: ClientId, s: SessionId, t: nat) {
    && (c in Recipients(w.hub, s) ==> c in Recipients(w'.hub, s))
    && Inbox(w', c) == Inbox(w, c)
    && (t < |TurnsOf(w, s)| ==> t < |TurnsOf(w', s)| && TurnsOf(w', s)[t].log == TurnsOf(w, s)[t].log)
    && InFlight(w', s, t, c) == InFlight(w, s, t, c)
  }

  lemma AgreeFollows(w: World, w': World, c: ClientId, s: SessionId, t: nat, base: nat, prefix: seq<ServerMsg>,
                     from: nat)
    requires Agree(w, w', c, s, t) && Follows(w, c, s, t, base, prefix, from)
    ensures Follows(w', c, s, t, base, prefix, from)
  {
    hide EventsOf, Recipients, Inbox, TurnsOf, InFlight;
  }

  /** Steps that neither record nor send nor reply leave all of that alone. */
  lemma QuietAgrees(w: World, a: Step, c: ClientId, s: SessionId, t: nat)
    requires Enabled(w, a) && !Moves(a, c) && !a.Send? && !a.Record? && !a.DirectReply?
    requires t < |TurnsOf(w, s)|
    ensures Agree(w, Do(w, a), c, s, t)
  {
    hide AsEvents, ReplayOf;
  }

  lemma ReplyFollows(w: World, a: Step, c: ClientId, s: SessionId, t: nat, base: nat, prefix: seq<ServerMsg>, from: nat)
    requires a.DirectReply? && Follows(w, c, s, t, base, prefix, from)
    ensures Follows(Do(w, a), c, s, t, base, prefix, from)
  {
    hide EventsOf;
    if a.client == c {
      assert Inbox(Do(w, a), c)[base..] == Inbox(w, c)[base..] + [Reply];
      EventsOfSnoc(Inbox(w, c)[base..], Reply, s, t);
    }
  }

  /** No step other than `c` leaving or loading again disturbs what `c` is owed. */
  lemma StepFollows(w: World, a: Step, c: ClientId, s: SessionId, t: nat, base: nat, prefix: seq<ServerMsg>, from: nat)
    requires Inv(w) && Enabled(w, a) && !Moves(a, c)
    requires Follows(w, c, s, t, base, prefix, from)
    ensures Follows(Do(w, a), c, s, t, base, prefix, from)
  {
    hide EventsOf, Inv, Do, Enabled, InFlight, Recipients, Inbox, TurnsOf, Agree, ReplayOf;
    match a
    case Send(_, _, _) => SendFollows(w, a, c, s, t, base, prefix, from);
    case Record(s', t', m) =>
      NewestRecords(w, s', t', m);
      RecordFollows(w, a, c, s, t, base, prefix, from);
    case DirectReply(_) => ReplyFollows(w, a, c, s, t, base, prefix, from);
    case _ =>
      QuietAgrees(w, a, c, s, t);
      AgreeFollows(w, Do(w, a), c, s, t, base, prefix, from);
  }

  lemma {:induction false} RunFollows(
    w: World, steps: seq<Step>, c: ClientId, s: SessionId, t: nat, base: nat, prefix: seq<ServerMsg>, from: nat)
    requires Inv(w) && Runs(w, steps)
    requires forall i :: 0 <= i < |steps| ==> !Moves(steps[i], c)
    requires Follows(w, c, s, t, base, prefix, from)
    ensures Follows(Run(w, steps), c, s, t, base, prefix, from)
    decreases |steps|
  {
    if steps != [] {
      StepKeepsInv(w, steps[0]);
      StepFollows(w, steps[0], c, s, t, base, prefix, from);
      RunFollows(Do(w, steps[0]), steps[1..], c, s, t, base, prefix, from);
    }
  }

  lemma ActiveTurn(w: World, s: SessionId)
    requires Inv(w) && ReplayOf(w.hub, s).active
    ensures TurnsOf(w, s) != []
    ensures !ReplayOf(w.hub, s).truncated ==> ReplayOf(w.hub, s).events == NewestLog(TurnsOf(w, s))
  {
    assert SessionInv(w, s);
  }

  lemma InFlightFrame(w: World, w': World, s: SessionId, t: nat, c: ClientId)
    requires TurnsOf(w, s) == TurnsOf(w', s)
    ensures InFlight(w', s, t, c) == InFlight(w, s, t, c)
  {
  }

  lemma LoadInbox(w: World, c: ClientId, s: SessionId)
    ensures var r := ReplayOf(w.hub, s);
            Inbox(Do(w, Load(c, s)), c) ==
            Inbox(w, c) + [History(s, r.truncated)] + AsEvents(s, CurrentTurn(w, s), r.events)
  {
    hide Attached, AsEvents, CurrentTurn, ReplayOf;
    var r := ReplayOf(w.hub, s);
    var notice, events := [History(s, r.truncated)], AsEvents(s, CurrentTurn(w, s), r.events);
    assert Inbox(w, c) + (notice + events) == Inbox(w, c) + notice + events;
  }

  lemma NoticeThenBuffer(s: SessionId, t: nat, truncated: bool, events: seq<ServerMsg>)
    ensures EventsOf([History(s, truncated)] + AsEvents(s, t, events), s, t) == events
  {
    hide AsEvents;
    var notice := [History(s, truncated)];
    assert notice[..0] == [];
    assert EventsOf(notice, s, t) == [];
    EventsOfBuffer(notice, s, t, events);
  }

  /** Loading sends the notice and then exactly the buffered events. */
  lemma LoadDelivers(w: World, c: ClientId, s: SessionId)
    ensures var t := CurrentTurn(w, s);
            var r := ReplayOf(w.hub, s);
            && Inbox(Do(w, Load(c, s)), c) == Inbox(w, c) + [History(s, r.truncated)] + AsEvents(s, t, r.events)
            && EventsOf(Inbox(Do(w, Load(c, s)), c)[|Inbox(w, c)|..], s, t) == r.events
  {
    hide EventsOf, AsEvents, Attached, Do, CurrentTurn, ReplayOf, Inbox;
    var t, r := CurrentTurn(w, s), ReplayOf(w.hub, s);
    LoadInbox(w, c, s);
    var before, sent := Inbox(w, c), [History(s, r.truncated)] + AsEvents(s, t, r.events);
    assert before + [History(s, r.truncated)] + AsEvents(s, t, r.events) == before + sent;
    assert (before + sent)[|before|..] == sent;
    NoticeThenBuffer(s, t, r.truncated, r.events);
  }

  lemma LoadFollows(w: World, c: ClientId, s: SessionId)
    requires TurnsOf(w, s) != [] && c in w.hub.clients
    ensures var t := CurrentTurn(w, s);
            Follows(Do(w, Load(c, s)), c, s, t, |Inbox(w, c)|, ReplayOf(w.hub, s).events + InFlight(w, s, t, c),
                    |TurnsOf(w, s)[t].log|)
  {
    hide EventsOf, AsEvents, InFlight;
    LoadDelivers(w, c, s);
    var t := CurrentTurn(w, s);
    InFlightFrame(w, Do(w, Load(c, s)), s, t, c);
    var log := TurnsOf(w, s)[t].log;
    assert log[|log|..] == [];
  }

  /**
    Main result. A connected client that loads a session in the middle of a turn is
    sent the history notice and the buffered events at once. From then on, for every
    interleaving, the events of that turn it has been sent, together with the one in
    flight to it, are: the buffered events, then the event whose recipient snapshot
    already named it when it loaded (if any), then every event recorded since, in
    order and with no other repetition or gap.
   */
  lemma MidTurnDelivery(w: World, c: ClientId, s: SessionId, steps: seq<Step>)
    requires Reachable(w) && ReplayOf(w.hub, s).active && c in w.hub.clients
    requires Runs(Do(w, Load(c, s)), steps)
    requires forall i :: 0 <= i < |steps| ==> !Moves(steps[i], c)
    ensures TurnsOf(w, s) != []
    ensures var t := CurrentTurn(w, s);
            var buffer := ReplayOf(w.hub, s).events;
            var from := |TurnsOf(w, s)[t].log|;
            && Inbox(Do(w, Load(c, s)), c) ==
               Inbox(w, c) + [History(s, ReplayOf(w.hub, s).truncated)] + AsEvents(s, t, buffer)
            && Follows(Run(Do(w, Load(c, s)), steps), c, s, t, |Inbox(w, c)|, buffer + InFlight(w, s, t, c), from)
  {
    ReachableInv(w);
    ActiveTurn(w, s);
    LoadDelivers(w, c, s);
    LoadFollows(w, c, s);
    StepKeepsInv(w, Load(c, s));
    var t := CurrentTurn(w, s);
    RunFollows(Do(w, Load(c, s)), steps, c, s, t, |Inbox(w, c)|,
               ReplayOf(w.hub, s).events + InFlight(w, s, t, c), |TurnsOf(w, s)[t].log|);
  }

  /**
    Exactly once: when the notice says nothing was truncated, the client is sent the
    whole turn, each event once and in order, if and only if no recipient snapshot of
    that turn named it at the moment it loaded.
   */
  lemma WholeTurnExactlyOnce(w: World, c: ClientId, s: SessionId, steps: seq<Step>)
    requires Reachable(w) && ReplayOf(w.hub, s).active && c in w.hub.clients
    requires !ReplayOf(w.hub, s).truncated
    requires Runs(Do(w, Load(c, s)), steps)
    requires forall i :: 0 <= i < |steps| ==> !Moves(steps[i], c)
    ensures var t := CurrentTurn(w, s);
            var w' := Run(Do(w, Load(c, s)), steps);
            && t < |TurnsOf(w', s)|
            && |Inbox(w, c)| <= |Inbox(w', c)|
            && (EventsOf(Inbox(w', c)[|Inbox(w, c)|..], s, t) + InFlight(w', s, t, c) == TurnsOf(w', s)[t].log
                <==> InFlight(w, s, t, c) == [])
  {
    MidTurnDelivery(w, c, s, steps);
    var t := CurrentTurn(w, s);
    var w1 := Do(w, Load(c, s));
    var w' := Run(w1, steps);
    UntruncatedBuffer(w, s);
    RunLogPrefix(w1, steps, s, t);
    FollowsWhole(w', c, s, t, |Inbox(w, c)|, TurnsOf(w, s)[t].log, InFlight(w, s, t, c));
  }

  lemma UntruncatedBuffer(w: World, s: SessionId)
    requires Reachable(w) && ReplayOf(w.hub, s).active && !ReplayOf(w.hub, s).truncated
    ensures TurnsOf(w, s) != []
    ensures ReplayOf(w.hub, s).events == TurnsOf(w, s)[CurrentTurn(w, s)].log
  {
    ReachableInv(w);
    ActiveTurn(w, s);
  }

  lemma FollowsWhole(w: World, c: ClientId, s: SessionId, t: nat, base: nat, log: seq<ServerMsg>, extra: seq<ServerMsg>)
    requires Follows(w, c, s, t, base, log + extra, |log|)
    requires log <= TurnsOf(w, s)[t].log
    ensures EventsOf(Inbox(w, c)[base..], s, t) + InFlight(w, s, t, c) == TurnsOf(w, s)[t].log <==> extra == []
  {
    OnceIffNothingExtra(log, TurnsOf(w, s)[t].log, extra);
  }

  lemma OnceIffNothingExtra(log: seq<ServerMsg>, log': seq<ServerMsg>, extra: seq<ServerMsg>)
    requires log <= log'
    ensures (log + extra) + log'[|log|..] == log' <==> extra == []
  {
    assert log' == log + log'[|log|..];
    if extra == [] {
      assert log + [] == log;
    } else {
      assert |(log + extra) + log'[|log|..]| > |log'|;
    }
  }

  /** A turn's log only grows. */
  lemma {:induction false} RunLogPrefix(w: World, steps: seq<Step>, s: SessionId, t: nat)
    requires Runs(w, steps) && t < |TurnsOf(w, s)|
    ensures t < |TurnsOf(Run(w, steps), s)|
    ensures TurnsOf(w, s)[t].log <= TurnsOf(Run(w, steps), s)[t].log
    decreases |steps|
  {
    if steps != [] {
      var w1 := Do(w, steps[0]);
      assert t < |TurnsOf(w1, s)| && TurnsOf(w, s)[t].log <= TurnsOf(w1, s)[t].log;
      RunLogPrefix(w1, steps[1..], s, t);
    }
  }

  // ---------------------------------------------------------------------------
  // A client that is sent an event twice
  // ---------------------------------------------------------------------------

  const FIRST: ClientId := 1

  /** The turn is running, `m` is recorded and buffered, and its recipient snapshot names the client. */
  function Recording(m: ServerMsg): seq<Step> {
    [Connect, Chat(FIRST, "s"), Record("s", 0, m)]
  }

  /** The world those steps lead to. */
  function MidTurn(m: ServerMsg): World {
    World(Hub({FIRST}, map["s" := {FIRST}], {"s"}, map["s" := Replay(true, [m], Size(m), false)]), 1,
          map["s" := [Turn([m], Some(Sending(m, {FIRST})))]], map[])
  }

  lemma AppendFirst(m: ServerMsg)
    requires Size(m) <= MAX_REPLAY_BYTES
    ensures Append(FRESH, m) == Replay(true, [m], Size(m), false)
  {
    assert [] + [m] == [m];
  }

  const CONNECTED: World := World(Hub({FIRST}, map[], {}, map[]), 1, map[], map[])

  const CHATTING: World :=
    World(Hub({FIRST}, map["s" := {FIRST}], {"s"}, map["s" := FRESH]), 1, map["s" := [Turn([], Some(Waiting))]], map[])

  lemma FirstConnects()
    ensures Do(INIT, Connect) == CONNECTED
  {
    assert {} + {FIRST} == {FIRST};
  }

  lemma FirstChats()
    ensures Do(CONNECTED, Chat(FIRST, "s")) == CHATTING
  {
    var w := Do(CONNECTED, Chat(FIRST, "s"));
    assert [] + [Turn([], Some(Waiting))] == [Turn([], Some(Waiting))];
    assert {} + {FIRST} == {FIRST} && {} + {"s"} == {"s"};
    assert w.hub.relays == {"s"} && w.hub.sessionClients["s"] == {FIRST};
    assert w.hub.sessionClients == map["s" := {FIRST}];
  }

  lemma FirstRecords(m: ServerMsg)
    requires !Terminal(m) && Size(m) <= MAX_REPLAY_BYTES
    ensures Enabled(CHATTING, Record("s", 0, m)) && Do(CHATTING, Record("s", 0, m)) == MidTurn(m)
  {
    hide Append, Terminal;
    AppendFirst(m);
    var w := Do(CHATTING, Record("s", 0, m));
    assert Recipients(w.hub, "s") == {FIRST};
    assert [] + [m] == [m];
    assert w.turns["s"] == [Turn([m], Some(Sending(m, {FIRST})))];
  }

  lemma RecordingReaches(m: ServerMsg)
    requires !Terminal(m) && Size(m) <= MAX_REPLAY_BYTES
    ensures Runs(INIT, Recording(m)) && Run(INIT, Recording(m)) == MidTurn(m)
    ensures Reachable(MidTurn(m))
  {
    FirstConnects();
    FirstChats();
    FirstRecords(m);
    hide Do, Terminal;
    var steps := Recording(m);
    var record := [Record("s", 0, m)];
    assert steps[1..] == [Chat(FIRST, "s")] + record && steps[1..][1..] == record && record[1..] == [];
    assert Runs(CHATTING, record) && Run(CHATTING, record) == MidTurn(m);
    assert Runs(CONNECTED, steps[1..]) && Run(CONNECTED, steps[1..]) == MidTurn(m);
  }

  /**
    The exactly-once condition can fail: in a reachable world, mid-turn, the client already
    named by the snapshot of `m` loads the session and is then sent `m` a second time.
   */
  lemma SentTwice(m: ServerMsg)
    requires !Terminal(m) && Size(m) <= MAX_REPLAY_BYTES
    ensures var w := MidTurn(m);
            && Reachable(w) && ReplayOf(w.hub, "s").active && !ReplayOf(w.hub, "s").truncated && FIRST in w.hub.clients
            && ReplayOf(w.hub, "s").events == InFlight(w, "s", 0, FIRST) == [m]
            && Enabled(Do(w, Load(FIRST, "s")), Send("s", 0, FIRST))
            && EventsOf(Inbox(Do(Do(w, Load(FIRST, "s")), Send("s", 0, FIRST)), FIRST), "s", 0) == [m, m]
            && TurnsOf(Do(Do(w, Load(FIRST, "s")), Send("s", 0, FIRST)), "s")[0].log == [m]
  {
    hide EventsOf, AsEvents;
    RecordingReaches(m);
    var w := MidTurn(m);
    LoadDelivers(w, FIRST, "s");
    var w1 := Do(w, Load(FIRST, "s"));
    assert Inbox(w, FIRST) == [] && Inbox(w1, FIRST)[0..] == Inbox(w1, FIRST);
    assert EventsOf(Inbox(w1, FIRST), "s", 0) == [m];
    EventsOfSnoc(Inbox(w1, FIRST), Event("s", 0, m), "s", 0);
  }
}
