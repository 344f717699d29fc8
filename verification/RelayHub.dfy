/**
  The relay hub of the Unix channel: the state behind its mutex and the critical
  sections that change it. Each method is proved against a function on values, so
  that whole runs can be reasoned about in `RelayRuns`.
 */
module RelayHub {
  import opened Common
  import opened ReplayBuffer

  type ClientId = nat
  type SessionId = string

  datatype Hub = Hub(
    clients: set<ClientId>,
    sessionClients: map<SessionId, set<ClientId>>,
    relays: set<SessionId>,
    replay: map<SessionId, Replay>)

  /** Outcome of the chat arm's critical section. */
  datatype Activation = Refused | Activated(startRelay: bool)

  function ReplayOf(h: Hub, s: SessionId): Replay {
    if s in h.replay then h.replay[s] else IDLE
  }

  function Members(h: Hub, s: SessionId): set<ClientId> {
    if s in h.sessionClients then h.sessionClients[s] else {}
  }

  function WithoutClient(m: map<SessionId, set<ClientId>>, c: ClientId): map<SessionId, set<ClientId>> {
    map s | s in m :: m[s] - {c}
  }

  function Joined(m: map<SessionId, set<ClientId>>, c: ClientId, s: SessionId): map<SessionId, set<ClientId>> {
    m[s := (if s in m then m[s] else {}) + {c}]
  }

  function Connected(h: Hub, c: ClientId): Hub {
    h.(clients := h.clients + {c})
  }

  function Detached(h: Hub, c: ClientId): Hub {
    h.(clients := h.clients - {c}, sessionClients := WithoutClient(h.sessionClients, c))
  }

  /** The replay an event leaves; a terminal event ends an active turn. */
  function Relayed(r: Replay, m: ServerMsg): Replay {
    if !r.active then r
    else if Terminal(m) then IDLE
    else Append(r, m)
  }

  function Recorded(h: Hub, s: SessionId, m: ServerMsg): Hub {
    h.(replay := h.replay[s := Relayed(ReplayOf(h, s), m)],
       relays := if Terminal(m) then h.relays - {s} else h.relays)
  }

  /** Connected members of the session: who an event is sent to. */
  function Recipients(h: Hub, s: SessionId): set<ClientId> {
    Members(h, s) * h.clients
  }

  function ActivationOf(h: Hub, s: SessionId): Activation {
    if ReplayOf(h, s).active then Refused else Activated(s !in h.relays)
  }

  function ActivatedHub(h: Hub, c: ClientId, s: SessionId): Hub {
    if ReplayOf(h, s).active then h
    else h.(sessionClients := Joined(h.sessionClients, c, s),
            replay := h.replay[s := FRESH],
            relays := h.relays + {s})
  }

  function Attached(h: Hub, c: ClientId, s: SessionId): Hub {
    h.(sessionClients := Joined(WithoutClient(h.sessionClients, c), c, s))
  }

  class RelayHub {
    var clients: set<ClientId>
    var sessionClients: map<SessionId, set<ClientId>>
    var relays: set<SessionId>
    var replay: map<SessionId, Replay>

    ghost function State(): Hub
      reads this
    {
      Hub(clients, sessionClients, relays, replay)
    }

    constructor ()
      ensures State() == Hub({}, map[], {}, map[])
    {
      clients, sessionClients, relays, replay := {}, map[], {}, map[];
    }

    method Connect(c: ClientId)
      modifies this
      ensures State() == Connected(old(State()), c)
    {
      clients := clients + {c};
    }

    method RemoveFromSessions(c: ClientId)
      modifies this`sessionClients
      ensures sessionClients == WithoutClient(old(sessionClients), c)
    {
      var pending := sessionClients.Keys;
      while pending != {}
        invariant pending <= sessionClients.Keys == old(sessionClients).Keys
        invariant forall s :: s in pending ==> sessionClients[s] == old(sessionClients)[s]
        invariant forall s :: s in sessionClients && s !in pending ==>
                                sessionClients[s] == old(sessionClients)[s] - {c}
        decreases pending
      {
        var s :| s in pending;
        sessionClients := sessionClients[s := sessionClients[s] - {c}];
        pending := pending - {s};
      }
    }

    method Detach(c: ClientId)
      modifies this
      ensures State() == Detached(old(State()), c)
    {
      clients := clients - {c};
      RemoveFromSessions(c);
    }

    /** The half of `relay_event` that runs under the lock. */
    method RecordEvent(s: SessionId, m: ServerMsg) returns (recipients: set<ClientId>)
      modifies this
      ensures State() == Recorded(old(State()), s, m)
      ensures recipients == Recipients(State(), s)
    {
      var r := if s in replay then replay[s] else IDLE;
      if r.active {
        var bytes := Size(m);
        if bytes > MAX_REPLAY_BYTES {
          r := r.(events := [], bytes := 0, truncated := true);
        } else {
          r := r.(bytes := SatAdd(r.bytes, bytes));
          r := r.(events := r.events + [m]);
          ghost var grown := r;
          while r.bytes > MAX_REPLAY_BYTES && |r.events| > 1
            invariant Evict(r) == Evict(grown) && r.active
            decreases |r.events|
          {
            var removed := r.events[0];
            r := r.(events := r.events[1..], bytes := SatSub(r.bytes, Size(removed)), truncated := true);
          }
        }
        if Terminal(m) {
          r := r.(active := false, events := [], bytes := 0, truncated := false);
        }
      }
      replay := replay[s := r];
      if Terminal(m) {
        relays := relays - {s};
      }
      recipients := (if s in sessionClients then sessionClients[s] else {}) * clients;
    }

    /** The chat arm's critical section: refuse a second turn or start one. */
    method Activate(c: ClientId, s: SessionId) returns (outcome: Activation)
      modifies this
      ensures State() == ActivatedHub(old(State()), c, s)
      ensures outcome == ActivationOf(old(State()), s)
    {
      if s in replay && replay[s].active {
        return Refused;
      }
      sessionClients := Joined(sessionClients, c, s);
      replay := replay[s := FRESH];
      outcome := Activated(s !in relays);
      relays := relays + {s};
    }

    /** The load and reattach arm: move the client, hand out the buffered turn. */
    method Attach(c: ClientId, s: SessionId) returns (truncated: bool, events: seq<ServerMsg>)
      modifies this
      ensures State() == Attached(old(State()), c, s)
      ensures truncated == ReplayOf(old(State()), s).truncated
      ensures events == ReplayOf(old(State()), s).events
    {
      RemoveFromSessions(c);
      sessionClients := Joined(sessionClients, c, s);
      truncated, events := false, [];
      if s in replay {
        truncated, events := replay[s].truncated, replay[s].events;
      }
    }
  }
}
