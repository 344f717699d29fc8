/** Who the Unix hub sends an event to, told from the steps of a run alone. */
module RelayMembers {
  import opened Common
  import opened ReplayBuffer
  import opened RelayHub
  import opened RelayRuns

  // ---------------------------------------------------------------------------
  // Reference: membership read off the steps
  // ---------------------------------------------------------------------------

  /** The world before step `k`. */
  ghost function WorldAt(steps: seq<Step>, k: nat): World
    requires k <= |steps|
  {
    if Runs(INIT, steps[..k]) then Run(INIT, steps[..k]) else INIT
  }

  /** Step `k` puts the client into the session: it loads it, or its chat there is accepted. */
  ghost predicate Joins(steps: seq<Step>, k: nat, c: ClientId, s: SessionId) {
    && k < |steps|
    && (steps[k] == Load(c, s) || (steps[k] == Chat(c, s) && !ReplayOf(WorldAt(steps, k).hub, s).active))
  }

  /** The step takes the client out of the session: it leaves, or it loads another one. */
  predicate Leaves(a: Step, c: ClientId, s: SessionId) {
    a == Detach(c) || (a.Load? && a.client == c && a.session != s)
  }

  ghost predicate JoinedSince(steps: seq<Step>, k: nat, c: ClientId, s: SessionId) {
    Joins(steps, k, c, s) && forall j :: k < j < |steps| ==> !Leaves(steps[j], c, s)
  }

  /** The client joined the session and has not left it since. */
  ghost predicate HasJoined(steps: seq<Step>, c: ClientId, s: SessionId) {
    exists k: nat :: JoinedSince(steps, k, c, s)
  }

  function Connects(steps: seq<Step>): nat {
    if steps == [] then 0 else Connects(steps[..|steps| - 1]) + (if steps[|steps| - 1].Connect? then 1 else 0)
  }

  ghost predicate ConnectedSince(steps: seq<Step>, k: nat, c: ClientId) {
    && k < |steps| && steps[k].Connect? && Connects(steps[..k + 1]) == c
    && forall j :: k < j < |steps| ==> steps[j] != Detach(c)
  }

  /** The connection numbered `c` was opened and has not gone away since. */
  ghost predicate IsConnected(steps: seq<Step>, c: ClientId) {
    exists k: nat :: ConnectedSince(steps, k, c)
  }

  // ---------------------------------------------------------------------------
  // One more step
  // ---------------------------------------------------------------------------

  lemma {:induction false} RunSnoc(w: World, steps: seq<Step>, a: Step)
    ensures Runs(w, steps + [a]) <==> Runs(w, steps) && Enabled(Run(w, steps), a)
    ensures Runs(w, steps + [a]) ==> Run(w, steps + [a]) == Do(Run(w, steps), a)
    decreases |steps|
  {
    hide Do, Enabled;
    if steps == [] {
      assert ([] + [a])[1..] == [];
    } else {
      assert (steps + [a])[1..] == steps[1..] + [a];
      if Enabled(w, steps[0]) {
        RunSnoc(Do(w, steps[0]), steps[1..], a);
      }
    }
  }

  lemma JoinedSnoc(steps: seq<Step>, a: Step, c: ClientId, s: SessionId)
    ensures HasJoined(steps + [a], c, s) <==>
            Joins(steps + [a], |steps|, c, s) || (HasJoined(steps, c, s) && !Leaves(a, c, s))
  {
    hide Leaves, WorldAt;
    var all := steps + [a];
    assert all[|steps|] == a && forall i :: 0 <= i < |steps| ==> all[i] == steps[i];
    forall k: nat | k < |steps| ensures Joins(all, k, c, s) <==> Joins(steps, k, c, s) {
      SameWorld(steps, a, k);
    }
    if k: nat :| JoinedSince(all, k, c, s) {
      if k < |steps| {
        assert JoinedSince(steps, k, c, s);
        assert !Leaves(all[|steps|], c, s);
      }
    }
    if k: nat :| JoinedSince(steps, k, c, s) {
      if !Leaves(a, c, s) { assert JoinedSince(all, k, c, s); }
    }
    if Joins(all, |steps|, c, s) { assert JoinedSince(all, |steps|, c, s); }
  }

  lemma SameWorld(steps: seq<Step>, a: Step, k: nat)
    requires k <= |steps|
    ensures WorldAt(steps + [a], k) == WorldAt(steps, k)
  {
    assert (steps + [a])[..k] == steps[..k];
  }

  lemma ConnectedSnoc(steps: seq<Step>, a: Step, c: ClientId)
    ensures IsConnected(steps + [a], c) <==>
            (a.Connect? && Connects(steps) + 1 == c) || (IsConnected(steps, c) && a != Detach(c))
    ensures Connects(steps + [a]) == Connects(steps) + (if a.Connect? then 1 else 0)
  {
    var all := steps + [a];
    assert all[|steps|] == a && all[..|steps|] == steps && all[..|steps| + 1] == all;
    assert forall i :: 0 <= i < |steps| ==> all[i] == steps[i];
    hide Connects;
    ConnectsSnoc(steps, a);
    if k: nat :| ConnectedSince(all, k, c) {
      if k < |steps| {
        assert all[..k + 1] == steps[..k + 1];
        assert ConnectedSince(steps, k, c);
        assert all[|steps|] != Detach(c);
      }
    }
    if k: nat :| ConnectedSince(steps, k, c) {
      assert all[..k + 1] == steps[..k + 1];
      if a != Detach(c) { assert ConnectedSince(all, k, c); }
    }
    if a.Connect? && Connects(steps) + 1 == c { assert ConnectedSince(all, |steps|, c); }
  }

  lemma ConnectsSnoc(steps: seq<Step>, a: Step)
    ensures Connects(steps + [a]) == Connects(steps) + (if a.Connect? then 1 else 0)
  {
    assert (steps + [a])[..|steps|] == steps;
  }

  /** What a step does to the members of a session and to the connections. */
  lemma MembersStep(w: World, a: Step, c: ClientId, s: SessionId)
    requires Enabled(w, a)
    ensures c in Members(Do(w, a).hub, s) <==>
            || a == Load(c, s)
            || (a == Chat(c, s) && !ReplayOf(w.hub, s).active)
            || (c in Members(w.hub, s) && !Leaves(a, c, s))
    ensures c in Do(w, a).hub.clients <==>
            (a == Connect && c == w.nextId + 1) || (c in w.hub.clients && a != Detach(c))
    ensures Do(w, a).nextId == w.nextId + (if a.Connect? then 1 else 0)
  {
    hide AsEvents, Append;
  }

  // ---------------------------------------------------------------------------
  // Every run
  // ---------------------------------------------------------------------------

  /** In every run the hub knows exactly the clients the steps say have joined and are connected. */
  lemma {:induction false} MembersAreJoined(steps: seq<Step>, c: ClientId, s: SessionId)
    requires Runs(INIT, steps)
    ensures c in Members(Run(INIT, steps).hub, s) <==> HasJoined(steps, c, s)
    ensures c in Run(INIT, steps).hub.clients <==> IsConnected(steps, c)
    ensures Run(INIT, steps).nextId == Connects(steps)
    decreases |steps|
  {
    hide HasJoined, IsConnected, Members, Do, Enabled, Leaves, Runs, Run;
    if steps == [] {
      NobodyAtFirst(steps, c, s);
    } else {
      var init, a := steps[..|steps| - 1], steps[|steps| - 1];
      assert steps == init + [a] && steps[..|init|] == init;
      RunSnoc(INIT, init, a);
      MembersAreJoined(init, c, s);
      MembersStep(Run(INIT, init), a, c, s);
      JoinedSnoc(init, a, c, s);
      ConnectedSnoc(init, a, c);
    }
  }

  lemma NobodyAtFirst(steps: seq<Step>, c: ClientId, s: SessionId)
    requires steps == []
    ensures Runs(INIT, steps) && Run(INIT, steps) == INIT
    ensures c !in Members(INIT.hub, s) && c !in INIT.hub.clients && INIT.nextId == Connects(steps)
    ensures !HasJoined(steps, c, s) && !IsConnected(steps, c)
  {
  }

  /** The recipients an event of turn `t` is to be sent to, right after it was recorded. */
  function SnapshotOf(w: World, s: SessionId, t: nat): set<ClientId> {
    if InPhase(w, s, t, (p: Phase) => p.Sending?) then TurnsOf(w, s)[t].relay.value.remaining else {}
  }

  lemma RecordSnapshots(w: World, s: SessionId, t: nat, m: ServerMsg)
    requires Enabled(w, Record(s, t, m))
    ensures forall c :: c in SnapshotOf(Do(w, Record(s, t, m)), s, t) <==> c in Members(w.hub, s) && c in w.hub.clients
  {
    hide Append;
  }

  /**
    In every run an event is addressed to exactly the clients that are connected and, by
    the steps so far, have joined its session and not left it.
   */
  lemma SentToExactlyTheJoined(steps: seq<Step>, s: SessionId, t: nat, m: ServerMsg, c: ClientId)
    requires Runs(INIT, steps + [Record(s, t, m)])
    ensures c in SnapshotOf(Run(INIT, steps + [Record(s, t, m)]), s, t) <==>
            IsConnected(steps, c) && HasJoined(steps, c, s)
  {
    hide HasJoined, IsConnected, Members, Do, Enabled, Runs, Run, SnapshotOf;
    RunSnoc(INIT, steps, Record(s, t, m));
    RecordSnapshots(Run(INIT, steps), s, t, m);
    MembersAreJoined(steps, c, s);
  }

  // ---------------------------------------------------------------------------
  // Nothing for those who never joined
  // ---------------------------------------------------------------------------

  ghost predicate NoEvents(ds: seq<Delivery>, s: SessionId) {
    forall i :: 0 <= i < |ds| && ds[i].Event? ==> ds[i].session != s
  }

  /** The session has nothing to do with the client: no membership, nothing in flight, nothing sent. */
  ghost predicate Apart(w: World, c: ClientId, s: SessionId) {
    && c !in Members(w.hub, s)
    && (forall t: nat :: InFlight(w, s, t, c) == [])
    && NoEvents(Inbox(w, c), s)
  }

  lemma {:induction false} OtherEvents(s: SessionId, t: nat, ms: seq<ServerMsg>, s': SessionId)
    requires s != s'
    ensures NoEvents(AsEvents(s, t, ms), s')
  {
    if ms != [] { OtherEvents(s, t, ms[1..], s'); }
  }

  lemma NoEventsConcat(a: seq<Delivery>, b: seq<Delivery>, s: SessionId)
    requires NoEvents(a, s) && NoEvents(b, s)
    ensures NoEvents(a + b, s)
  {
  }

  lemma InboxStaysApart(w: World, a: Step, c: ClientId, s: SessionId)
    requires Enabled(w, a) && Apart(w, c, s) && a != Load(c, s)
    ensures NoEvents(Inbox(Do(w, a), c), s)
  {
    hide AsEvents, Append, Members;
    match a
    case Load(c', s') =>
      if c' == c {
        var r := ReplayOf(w.hub, s');
        OtherEvents(s', CurrentTurn(w, s'), r.events, s);
        NoEventsConcat([History(s', r.truncated)], AsEvents(s', CurrentTurn(w, s'), r.events), s);
        NoEventsConcat(Inbox(w, c), [History(s', r.truncated)] + AsEvents(s', CurrentTurn(w, s'), r.events), s);
      }
    case Send(_, t, _) => assert InFlight(w, s, t, c) == [];
    case _ =>
  }

  lemma FlightStaysApart(w: World, a: Step, c: ClientId, s: SessionId, t: nat)
    requires Enabled(w, a) && Apart(w, c, s)
    ensures InFlight(Do(w, a), s, t, c) == []
  {
    hide AsEvents, Append, NoEvents;
    assert InFlight(w, s, t, c) == [];
  }

  lemma StaysApart(w: World, a: Step, c: ClientId, s: SessionId)
    requires Enabled(w, a) && Apart(w, c, s)
    requires a != Load(c, s) && !(a == Chat(c, s) && !ReplayOf(w.hub, s).active)
    ensures Apart(Do(w, a), c, s)
  {
    hide Do, Enabled, InFlight, Members, NoEvents;
    MembersStep(w, a, c, s);
    InboxStaysApart(w, a, c, s);
    forall t: nat ensures InFlight(Do(w, a), s, t, c) == [] {
      FlightStaysApart(w, a, c, s, t);
    }
  }

  /** In every run a client that never joined a session is never sent an event of it. */
  lemma {:induction false} NeverJoinedNeverSent(steps: seq<Step>, c: ClientId, s: SessionId)
    requires Runs(INIT, steps) && forall k: nat :: !Joins(steps, k, c, s)
    ensures Apart(Run(INIT, steps), c, s)
    decreases |steps|
  {
    hide Apart, Do, Enabled, Runs, Run;
    if steps == [] {
      ApartAtFirst(steps, c, s);
    } else {
      var init, a := steps[..|steps| - 1], steps[|steps| - 1];
      assert steps == init + [a] && steps[..|init|] == init;
      RunSnoc(INIT, init, a);
      forall k: nat ensures !Joins(init, k, c, s) {
        if k < |init| {
          SameWorld(init, a, k);
          assert !Joins(steps, k, c, s);
        }
      }
      NeverJoinedNeverSent(init, c, s);
      assert !Joins(steps, |init|, c, s);
      StaysApart(Run(INIT, init), a, c, s);
    }
  }

  lemma ApartAtFirst(steps: seq<Step>, c: ClientId, s: SessionId)
    requires steps == []
    ensures Runs(INIT, steps) && Apart(Run(INIT, steps), c, s)
  {
  }
}
