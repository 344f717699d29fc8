/**
  The byte-bounded replay buffer that both relay hubs keep for the active turn of
  a session, and the reference it must agree with: the longest suffix of the turn
  whose serialized size fits the limit.
 */
module ReplayBuffer {
  import opened Common

  /** Kinds of server message; the first three end a turn. */
  datatype MsgKind = Done | Error | TurnInterrupted | Progress(tag: nat)

  /** A server message together with what serializing it yields, if that succeeds. */
  datatype ServerMsg = ServerMsg(kind: MsgKind, payload: string, encoded: Option<seq<bv8>>)

  const MAX_REPLAY_BYTES: nat := 4 * 1024 * 1024

  predicate Terminal(m: ServerMsg) {
    m.kind.Done? || m.kind.Error? || m.kind.TurnInterrupted?
  }

  /** Serialized length, zero when serialization fails. */
  function Size(m: ServerMsg): nat {
    match m.encoded
    case None => 0
    case Some(bytes) => |bytes|
  }

  function TotalSize(events: seq<ServerMsg>): nat {
    if events == [] then 0 else Size(events[0]) + TotalSize(events[1..])
  }

  datatype Replay = Replay(active: bool, events: seq<ServerMsg>, bytes: nat, truncated: bool)

  /** `SessionReplay::default()`. */
  const IDLE: Replay := Replay(false, [], 0, false)

  /** The state an activation leaves. */
  const FRESH: Replay := Replay(true, [], 0, false)

  /** What the eviction loop leaves of a buffer. */
  function Evict(r: Replay): (kept: Replay)
    decreases |r.events|
  {
    if r.bytes > MAX_REPLAY_BYTES && |r.events| > 1 then
      Evict(r.(events := r.events[1..], bytes := SatSub(r.bytes, Size(r.events[0])), truncated := true))
    else r
  }

  /** What buffering one event in an active replay leaves. */
  function Append(r: Replay, m: ServerMsg): (r': Replay) {
    if Size(m) > MAX_REPLAY_BYTES then
      r.(events := [], bytes := 0, truncated := true)
    else
      Evict(r.(events := r.events + [m], bytes := SatAdd(r.bytes, Size(m))))
  }

  /** Reference: `kept` is the longest suffix of `log` that fits the limit. */
  ghost predicate LongestFit(log: seq<ServerMsg>, kept: seq<ServerMsg>) {
    && |kept| <= |log|
    && kept == log[|log| - |kept|..]
    && TotalSize(kept) <= MAX_REPLAY_BYTES
    && forall j :: 0 <= j < |log| - |kept| ==> TotalSize(log[j..]) > MAX_REPLAY_BYTES
  }

  /** The buffer is exactly the longest fitting suffix of the turn `log`. */
  ghost predicate Retains(r: Replay, log: seq<ServerMsg>) {
    && r.active
    && LongestFit(log, r.events)
    && r.bytes == TotalSize(r.events)
    && (r.truncated <==> |r.events| < |log|)
  }

  lemma {:induction false} TotalSizeConcat(a: seq<ServerMsg>, b: seq<ServerMsg>)
    ensures TotalSize(a + b) == TotalSize(a) + TotalSize(b)
  {
    if a == [] {
      assert a + b == b;
    } else {
      assert (a + b)[1..] == a[1..] + b;
      TotalSizeConcat(a[1..], b);
    }
  }

  /** The longest fitting suffix is unique, so `LongestFit` pins the buffer down. */
  lemma LongestFitUnique(log: seq<ServerMsg>, a: seq<ServerMsg>, b: seq<ServerMsg>)
    requires LongestFit(log, a) && LongestFit(log, b)
    ensures a == b
  {
    assert a == log[|log| - |a|..] && b == log[|log| - |b|..];
  }

  /** A suffix of the turn that may still be too large, while every longer one is. */
  ghost predicate Candidate(r: Replay, log: seq<ServerMsg>) {
    && r.active && 0 < |r.events| <= |log|
    && r.events == log[|log| - |r.events|..]
    && r.bytes == TotalSize(r.events)
    && (forall j :: 0 <= j < |log| - |r.events| ==> TotalSize(log[j..]) > MAX_REPLAY_BYTES)
    && (r.truncated <==> |r.events| < |log|)
  }

  /** One round of the eviction loop. */
  function WithoutOldest(r: Replay): Replay
    requires r.events != []
  {
    r.(events := r.events[1..], bytes := SatSub(r.bytes, Size(r.events[0])), truncated := true)
  }

  lemma OldestCounts(events: seq<ServerMsg>)
    requires events != []
    ensures TotalSize(events) == Size(events[0]) + TotalSize(events[1..])
    ensures |events| == 1 ==> TotalSize(events) == Size(events[0])
  {
  }

  lemma EvictOne(r: Replay, log: seq<ServerMsg>)
    requires Candidate(r, log) && r.bytes > MAX_REPLAY_BYTES && |r.events| > 1
    ensures Candidate(WithoutOldest(r), log)
  {
    hide TotalSize, Size;
    OldestCounts(r.events);
    var next := WithoutOldest(r);
    assert next.events == log[|log| - |next.events|..];
    forall j | 0 <= j < |log| - |next.events| ensures TotalSize(log[j..]) > MAX_REPLAY_BYTES {
      if j == |log| - |r.events| {
        assert log[j..] == r.events;
      }
    }
  }

  lemma EvictStops(r: Replay, log: seq<ServerMsg>)
    requires Candidate(r, log) && !(r.bytes > MAX_REPLAY_BYTES && |r.events| > 1)
    requires Size(log[|log| - 1]) <= MAX_REPLAY_BYTES
    ensures Retains(r, log)
  {
    hide TotalSize, Size;
    OldestCounts(r.events);
    assert |r.events| == 1 ==> r.events[0] == log[|log| - 1];
  }

  /** The eviction loop turns an oversized suffix into the longest fitting one. */
  lemma {:induction false} EvictFits(r: Replay, log: seq<ServerMsg>)
    requires Candidate(r, log) && Size(log[|log| - 1]) <= MAX_REPLAY_BYTES
    ensures Retains(Evict(r), log)
    decreases |r.events|
  {
    hide TotalSize, Size, Retains;
    if r.bytes > MAX_REPLAY_BYTES && |r.events| > 1 {
      EvictOne(r, log);
      EvictFits(WithoutOldest(r), log);
    } else {
      EvictStops(r, log);
    }
  }

  lemma SuffixGrows(log: seq<ServerMsg>, m: ServerMsg, j: nat)
    requires j <= |log|
    ensures (log + [m])[j..] == log[j..] + [m]
    ensures TotalSize((log + [m])[j..]) == TotalSize(log[j..]) + Size(m)
  {
    hide TotalSize;
    assert (log + [m])[j..] == log[j..] + [m];
    TotalSizeConcat(log[j..], [m]);
    OldestCounts([m]);
  }

  /** Buffering one event keeps the buffer equal to the longest fitting suffix. */
  lemma AppendRetains(r: Replay, log: seq<ServerMsg>, m: ServerMsg)
    requires Retains(r, log)
    ensures Retains(Append(r, m), log + [m])
  {
    hide TotalSize, Size, Evict;
    var log' := log + [m];
    forall j | 0 <= j <= |log| ensures TotalSize(log'[j..]) == TotalSize(log[j..]) + Size(m) {
      SuffixGrows(log, m, j);
    }
    if Size(m) > MAX_REPLAY_BYTES {
      assert log'[|log'|..] == [];
      NothingCounts();
    } else {
      var k := |log| - |r.events|;
      SuffixGrows(log, m, k);
      EvictFits(r.(events := r.events + [m], bytes := SatAdd(r.bytes, Size(m))), log');
    }
  }

  lemma NothingCounts()
    ensures TotalSize([]) == 0
  {
  }

  function AppendAll(r: Replay, ms: seq<ServerMsg>): Replay {
    if ms == [] then r else Append(AppendAll(r, ms[..|ms| - 1]), ms[|ms| - 1])
  }

  /**
    After any sequence of events since activation the buffer holds the longest suffix
    that fits, its byte count is exact, and `truncated` says whether anything was lost.
   */
  lemma {:induction false} BufferIsLongestFit(ms: seq<ServerMsg>)
    ensures Retains(AppendAll(FRESH, ms), ms)
  {
    if ms == [] {
      assert ms[0..] == [];
    } else {
      var init, last := ms[..|ms| - 1], ms[|ms| - 1];
      assert ms == init + [last];
      BufferIsLongestFit(init);
      AppendRetains(AppendAll(FRESH, init), init, last);
    }
  }
}
