/**
  The relay hub of the WebSocket channel. It shares the buffer algorithm of the Unix
  hub, but a chat restarts an active turn instead of being refused, a terminal event
  resets the buffer even when no turn is active, and every attachment goes through
  one routine that first removes the client from all sessions.
 */
module WsHub {
  import opened Common
  import opened ReplayBuffer
  import opened RelayHub

  datatype WsState = WsState(
    sessionClients: map<SessionId, set<ClientId>>,
    replay: map<SessionId, Replay>)

  function ReplayIn(h: WsState, s: SessionId): Replay {
    if s in h.replay then h.replay[s] else IDLE
  }

  function MoveTo(h: WsState, c: ClientId, s: SessionId): WsState {
    h.(sessionClients := Joined(WithoutClient(h.sessionClients, c), c, s))
  }

  function Restarted(h: WsState, c: ClientId, s: SessionId): WsState {
    MoveTo(h, c, s).(replay := h.replay[s := FRESH])
  }

  function Left(h: WsState, c: ClientId): WsState {
    h.(sessionClients := WithoutClient(h.sessionClients, c))
  }

  function WsRelayed(r: Replay, m: ServerMsg): Replay {
    if Terminal(m) then IDLE else if r.active then Append(r, m) else r
  }

  function WsRecorded(h: WsState, s: SessionId, m: ServerMsg): WsState {
    h.(replay := h.replay[s := WsRelayed(ReplayIn(h, s), m)])
  }

  class WsRelayHub {
    var sessionClients: map<SessionId, set<ClientId>>
    var replay: map<SessionId, Replay>

    ghost function State(): WsState
      reads this
    {
      WsState(sessionClients, replay)
    }

    constructor ()
      ensures State() == WsState(map[], map[])
    {
      sessionClients, replay := map[], map[];
    }

    method DetachClient(c: ClientId)
      modifies this`sessionClients
      ensures State() == Left(old(State()), c)
    {
      var pending := sessionClients.Keys;
      while pending != {}
        invariant pending <= sessionClients.Keys == old(sessionClients).Keys
        invariant forall s :: s in pending ==> sessionClients[s] == old(sessionClients)[s]
        invariant forall s :: s in sessionClients && s !in pending ==>
                                sessionClients[s] == old(sessionClients)[s] - {c}
        decreases pending
      {
        var s :| s in pending;
        sessionClients := sessionClients[s := sessionClients[s] - {c}];
        pending := pending - {s};
      }
    }

    method AttachClient(c: ClientId, s: SessionId)
      modifies this`sessionClients
      ensures State() == MoveTo(old(State()), c, s)
    {
      DetachClient(c);
      sessionClients := Joined(sessionClients, c, s);
    }

    /** The chat arm: attach and restart the replay, whether or not a turn is active. */
    method StartTurn(c: ClientId, s: SessionId)
      modifies this
      ensures State() == Restarted(old(State()), c, s)
    {
      AttachClient(c, s);
      replay := replay[s := FRESH];
    }

    method RelayEvent(s: SessionId, m: ServerMsg) returns (recipients: set<ClientId>)
      modifies this
      ensures State() == WsRecorded(old(State()), s, m)
      ensures recipients == if s in sessionClients then sessionClients[s] else {}
    {
      var r := if s in replay then replay[s] else IDLE;
      if r.active {
        var bytes := Size(m);
        if bytes > MAX_REPLAY_BYTES {
          r := r.(events := [], bytes := 0, truncated := true);
        } else {
          r := r.(bytes := SatAdd(r.bytes, bytes));
          r := r.(events := r.events + [m]);
          ghost var grown := r;
          while r.bytes > MAX_REPLAY_BYTES && |r.events| > 1
            invariant Evict(r) == Evict(grown)
            decreases |r.events|
          {
            var removed := r.events[0];
            r := r.(events := r.events[1..], bytes := SatSub(r.bytes, Size(removed)), truncated := true);
          }
        }
      }
      if Terminal(m) {
        r := r.(active := false, events := [], bytes := 0, truncated := false);
      }
      replay := replay[s := r];
      recipients := if s in sessionClients then sessionClients[s] else {};
    }
  }

  // ---------------------------------------------------------------------------
  // Every run
  // ---------------------------------------------------------------------------

  datatype WsStep =
    | Chat(client: ClientId, session: SessionId)
    | Load(client: ClientId, session: SessionId)
    | Relay(session: SessionId, msg: ServerMsg)
    | Leave(client: ClientId)

  function WsDo(h: WsState, a: WsStep): WsState {
    match a
    case Chat(c, s) => Restarted(h, c, s)
    case Load(c, s) => MoveTo(h, c, s)
    case Relay(s, m) => WsRecorded(h, s, m)
    case Leave(c) => Left(h, c)
  }

  function WsRun(steps: seq<WsStep>): WsState {
    if steps == [] then WsState(map[], map[])
    else WsDo(WsRun(steps[..|steps| - 1]), steps[|steps| - 1])
  }

  /** Reference: the events relayed in the turn of `s` that is still open, if one is. */
  function OpenTurn(steps: seq<WsStep>, s: SessionId): Option<seq<ServerMsg>> {
    if steps == [] then None
    else
      var before := OpenTurn(steps[..|steps| - 1], s);
      match steps[|steps| - 1]
      case Chat(_, s') => if s' == s then Some([]) else before
      case Relay(s', m) =>
        if s' != s || before.None? then before
        else if Terminal(m) then None
        else Some(before.value + [m])
      case _ => before
  }

  ghost predicate WsBufferOk(r: Replay, turn: Option<seq<ServerMsg>>) {
    match turn
    case None => r == IDLE
    case Some(log) => Retains(r, log)
  }

  lemma FreshRetains()
    ensures Retains(FRESH, [])
  {
    var log: seq<ServerMsg> := [];
    assert log[0..] == [];
  }

  /** In every run the buffer of an open turn is the longest fitting suffix of that turn. */
  lemma {:induction false} WsBufferIsLongestFit(steps: seq<WsStep>, s: SessionId)
    ensures WsBufferOk(ReplayIn(WsRun(steps), s), OpenTurn(steps, s))
    decreases |steps|
  {
    if steps != [] {
      var before, a := steps[..|steps| - 1], steps[|steps| - 1];
      WsBufferIsLongestFit(before, s);
      FreshRetains();
      var turn := OpenTurn(before, s);
      if a.Relay? && a.session == s && turn.Some? && !Terminal(a.msg) {
        AppendRetains(ReplayIn(WsRun(before), s), turn.value, a.msg);
      }
    }
  }

  /** In every run a client belongs to at most one session. */
  lemma {:induction false} OneSessionPerClient(steps: seq<WsStep>, c: ClientId, s: SessionId, s': SessionId)
    requires s in WsRun(steps).sessionClients && c in WsRun(steps).sessionClients[s]
    requires s' in WsRun(steps).sessionClients && c in WsRun(steps).sessionClients[s']
    ensures s == s'
    decreases |steps|
  {
    if steps != [] {
      var a := steps[|steps| - 1];
      // A fresh attachment of `c` leaves it in the target session only.
      if !((a.Chat? || a.Load?) && a.client == c) {
        OneSessionPerClient(steps[..|steps| - 1], c, s, s');
      }
    }
  }

  // ---------------------------------------------------------------------------
  // Membership read off the steps
  // ---------------------------------------------------------------------------

  predicate Enters(a: WsStep, c: ClientId, s: SessionId) {
    a == Chat(c, s) || a == Load(c, s)
  }

  /** The client leaves, or attaches anywhere. */
  predicate Moves(a: WsStep, c: ClientId) {
    a == Leave(c) || ((a.Chat? || a.Load?) && a.client == c)
  }

  ghost predicate EnteredLast(steps: seq<WsStep>, k: nat, c: ClientId, s: SessionId) {
    k < |steps| && Enters(steps[k], c, s) && forall j :: k < j < |steps| ==> !Moves(steps[j], c)
  }

  lemma WsMembersStep(h: WsState, a: WsStep, c: ClientId, s: SessionId)
    ensures var next := WsDo(h, a).sessionClients;
            (s in next && c in next[s]) <==>
            Enters(a, c, s) || (s in h.sessionClients && c in h.sessionClients[s] && !Moves(a, c))
  {
    hide Append;
  }

  /** In every run a session's members are exactly the clients whose last move was to enter it. */
  lemma {:induction false} WsMembersEnteredLast(steps: seq<WsStep>, c: ClientId, s: SessionId)
    ensures (s in WsRun(steps).sessionClients && c in WsRun(steps).sessionClients[s]) <==>
            exists k: nat :: EnteredLast(steps, k, c, s)
    decreases |steps|
  {
    hide WsDo, Enters, Moves;
    if steps != [] {
      var init, a := steps[..|steps| - 1], steps[|steps| - 1];
      assert steps == init + [a] && forall i :: 0 <= i < |init| ==> init[i] == steps[i];
      WsMembersEnteredLast(init, c, s);
      WsMembersStep(WsRun(init), a, c, s);
      EnteringMoves(a, c, s);
      if k: nat :| EnteredLast(init, k, c, s) {
        if !Moves(a, c) { assert EnteredLast(steps, k, c, s); }
      }
      if Enters(a, c, s) { assert EnteredLast(steps, |init|, c, s); }
      if k: nat :| EnteredLast(steps, k, c, s) {
        if k < |init| {
          assert EnteredLast(init, k, c, s);
          assert !Moves(steps[|init|], c);
        }
      }
    }
  }

  lemma EnteringMoves(a: WsStep, c: ClientId, s: SessionId)
    ensures Enters(a, c, s) ==> Moves(a, c)
  {
  }
}
