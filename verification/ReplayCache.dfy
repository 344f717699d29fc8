/**
  The duplicate-delivery cache that the Telegram, WeChat and DingTalk channels each
  carry: a queue of claimed message ids bounded by age and by count. The reference is
  an unbounded log of the accepted claims.
 */
module ReplayCache {
  import opened Common

  datatype Claim = Claim(id: string, at: nat)

  /** `now.saturating_duration_since(seen) < ttl`. */
  predicate Fresh(c: Claim, now: nat, ttl: nat) {
    SatSub(now, c.at) < ttl
  }

  function Retain(es: seq<Claim>, now: nat, ttl: nat): (kept: seq<Claim>)
    ensures |kept| <= |es|
  {
    if es == [] then []
    else
      var last := es[|es| - 1];
      Retain(es[..|es| - 1], now, ttl) + (if Fresh(last, now, ttl) then [last] else [])
  }

  /** The newest `n` elements. */
  function Newest(es: seq<Claim>, n: nat): seq<Claim> {
    if |es| <= n then es else es[|es| - n..]
  }

  predicate Holds(es: seq<Claim>, id: string) {
    exists i :: 0 <= i < |es| && es[i].id == id
  }

  function After(es: seq<Claim>, c: Claim, capacity: nat, ttl: nat): seq<Claim>
    requires 0 < capacity
  {
    var kept := Retain(es, c.at, ttl);
    if Holds(kept, c.id) then kept else Newest(kept, capacity - 1) + [c]
  }

  class ReplayCache {
    var entries: seq<Claim>
    const capacity: nat
    const ttl: nat

    ghost predicate Valid() {
      0 < capacity
    }

    constructor (capacity: nat, ttl: nat)
      ensures Valid() && entries == [] && this.ttl == ttl
      ensures this.capacity == if capacity == 0 then 1 else capacity
    {
      this.entries := [];
      this.capacity := if capacity == 0 then 1 else capacity;
      this.ttl := ttl;
    }

    method TryClaim(id: string, now: nat) returns (accepted: bool)
      requires Valid()
      modifies this`entries
      ensures accepted == !Holds(Retain(old(entries), now, ttl), id)
      ensures entries == After(old(entries), Claim(id, now), capacity, ttl)
    {
      entries := Retain(entries, now, ttl);
      if exists i :: 0 <= i < |entries| && entries[i].id == id {
        return false;
      }
      ghost var kept := entries;
      while |entries| >= capacity
        invariant |entries| <= |kept| && entries == kept[|kept| - |entries|..]
        invariant |entries| < |kept| ==> |entries| >= capacity - 1
        decreases |entries|
      {
        entries := entries[1..];
      }
      entries := entries + [Claim(id, now)];
      accepted := true;
    }
  }

  // ---------------------------------------------------------------------------
  // Runs of claims, in the order in which they take the lock
  // ---------------------------------------------------------------------------

  function Entries(calls: seq<Claim>, capacity: nat, ttl: nat): seq<Claim>
    requires 0 < capacity
  {
    if calls == [] then []
    else After(Entries(calls[..|calls| - 1], capacity, ttl), calls[|calls| - 1], capacity, ttl)
  }

  /** Whether the cache accepts call `i`. */
  predicate Accepts(calls: seq<Claim>, i: nat, capacity: nat, ttl: nat)
    requires 0 < capacity && i < |calls|
  {
    !Holds(Retain(Entries(calls[..i], capacity, ttl), calls[i].at, ttl), calls[i].id)
  }

  /** Number of calls accepted from `i` up to, not including, `j`. */
  function AcceptedCount(calls: seq<Claim>, i: nat, j: nat, capacity: nat, ttl: nat): nat
    requires 0 < capacity && i <= j <= |calls|
    decreases j - i
  {
    if i == j then 0
    else AcceptedCount(calls, i, j - 1, capacity, ttl) + (if Accepts(calls, j - 1, capacity, ttl) then 1 else 0)
  }

  // ---------------------------------------------------------------------------
  // Spacing of accepted claims, whatever the clock does
  // ---------------------------------------------------------------------------

  /** `c` is in `es` with at most `after` newer entries. */
  ghost predicate HeldWithin(es: seq<Claim>, c: Claim, after: int) {
    exists p :: 0 <= p < |es| && es[p] == c && |es| - 1 - p <= after
  }

  lemma {:induction false} RetainKeepsFresh(es: seq<Claim>, c: Claim, after: int, now: nat, ttl: nat)
    requires HeldWithin(es, c, after) && Fresh(c, now, ttl)
    ensures HeldWithin(Retain(es, now, ttl), c, after)
    decreases |es|
  {
    var p :| 0 <= p < |es| && es[p] == c && |es| - 1 - p <= after;
    var init := es[..|es| - 1];
    var kept := Retain(init, now, ttl);
    if p == |es| - 1 {
      assert Retain(es, now, ttl)[|kept|] == c;
    } else {
      assert init[p] == c;
      RetainKeepsFresh(init, c, after - 1, now, ttl);
      var q :| 0 <= q < |kept| && kept[q] == c && |kept| - 1 - q <= after - 1;
      assert Retain(es, now, ttl)[q] == c;
    }
  }

  lemma NewestKeeps(es: seq<Claim>, c: Claim, after: nat, n: nat)
    requires HeldWithin(es, c, after) && after < n
    ensures HeldWithin(Newest(es, n), c, after)
  {
    var p :| 0 <= p < |es| && es[p] == c && |es| - 1 - p <= after;
    if |es| > n {
      assert Newest(es, n)[p - (|es| - n)] == c;
    }
  }

  lemma HeldSnoc(es: seq<Claim>, c: Claim, after: int, d: Claim)
    requires HeldWithin(es, c, after)
    ensures HeldWithin(es + [d], c, after + 1)
  {
    var p :| 0 <= p < |es| && es[p] == c && |es| - 1 - p <= after;
    assert (es + [d])[p] == c;
  }

  /** Claim `i` was seen to have expired by some call after it, before `j`. */
  ghost predicate ExpiredBefore(calls: seq<Claim>, i: nat, j: nat, ttl: nat)
    requires i < j <= |calls|
  {
    exists k :: i < k < j && !Fresh(calls[i], calls[k].at, ttl)
  }

  /** Until it expires or enough newer claims are accepted, an accepted claim stays in the cache. */
  lemma {:induction false} AcceptedStays(calls: seq<Claim>, i: nat, j: nat, capacity: nat, ttl: nat)
    requires 0 < capacity && i < j <= |calls|
    requires Accepts(calls, i, capacity, ttl)
    requires !ExpiredBefore(calls, i, j, ttl)
    requires AcceptedCount(calls, i + 1, j, capacity, ttl) < capacity
    ensures HeldWithin(Entries(calls[..j], capacity, ttl), calls[i], AcceptedCount(calls, i + 1, j, capacity, ttl))
    decreases j
  {
    var d := calls[j - 1];
    var before := Entries(calls[..j - 1], capacity, ttl);
    assert calls[..j][..j - 1] == calls[..j - 1];
    var kept := Retain(before, d.at, ttl);
    if i == j - 1 {
      var es := Entries(calls[..j], capacity, ttl);
      assert es[|es| - 1] == d;
    } else {
      var n := AcceptedCount(calls, i + 1, j - 1, capacity, ttl);
      AcceptedStays(calls, i, j - 1, capacity, ttl);
      assert Fresh(calls[i], calls[j - 1].at, ttl);
      RetainKeepsFresh(before, calls[i], n, d.at, ttl);
      if Accepts(calls, j - 1, capacity, ttl) {
        NewestKeeps(kept, calls[i], n, capacity - 1);
        HeldSnoc(Newest(kept, capacity - 1), calls[i], n, d);
      }
    }
  }

  /**
    Whatever the clock readings: two accepted claims of one id are separated by a call
    whose reading is at least the time-to-live past the first claim, or by at least
    `capacity` other accepted claims.
   */
  lemma AcceptedClaimsAreSpaced(calls: seq<Claim>, i: nat, j: nat, capacity: nat, ttl: nat)
    requires 0 < capacity && i < j < |calls| && calls[i].id == calls[j].id
    requires Accepts(calls, i, capacity, ttl) && Accepts(calls, j, capacity, ttl)
    ensures ExpiredBefore(calls, i, j + 1, ttl) || AcceptedCount(calls, i + 1, j, capacity, ttl) >= capacity
  {
    if !ExpiredBefore(calls, i, j + 1, ttl) && AcceptedCount(calls, i + 1, j, capacity, ttl) < capacity {
      assert !ExpiredBefore(calls, i, j, ttl);
      var n := AcceptedCount(calls, i + 1, j, capacity, ttl);
      AcceptedStays(calls, i, j, capacity, ttl);
      var held := Entries(calls[..j], capacity, ttl);
      assert Fresh(calls[i], calls[j].at, ttl);
      RetainKeepsFresh(held, calls[i], n, calls[j].at, ttl);
      assert false;
    }
  }

  lemma {:induction false} RetainedAreFresh(es: seq<Claim>, now: nat, ttl: nat)
    ensures forall c :: c in Retain(es, now, ttl) ==> c in es && Fresh(c, now, ttl)
  {
    if es != [] { RetainedAreFresh(es[..|es| - 1], now, ttl); }
  }

  /** No call strictly between `i` and `j` claims the id of `i` with success. */
  ghost predicate NotReclaimed(calls: seq<Claim>, i: nat, j: nat, capacity: nat, ttl: nat)
    requires 0 < capacity && i < j <= |calls|
  {
    forall k :: i < k < j && calls[k].id == calls[i].id ==> !Accepts(calls, k, capacity, ttl)
  }

  /** The only entry with the id of `c` is `c` itself, and there is none once it was seen to expire. */
  ghost predicate OnlyEntry(es: seq<Claim>, c: Claim, expired: bool) {
    forall e :: e in es && e.id == c.id ==> e == c && !expired
  }

  lemma RetainOnlyEntry(es: seq<Claim>, c: Claim, expired: bool, now: nat, ttl: nat)
    requires OnlyEntry(es, c, expired)
    ensures OnlyEntry(Retain(es, now, ttl), c, expired || !Fresh(c, now, ttl))
  {
    hide Retain;
    RetainedAreFresh(es, now, ttl);
  }

  lemma AfterOnlyEntry(es: seq<Claim>, c: Claim, expired: bool, d: Claim, capacity: nat, ttl: nat)
    requires 0 < capacity && OnlyEntry(es, c, expired)
    requires d.id == c.id ==> Holds(Retain(es, d.at, ttl), d.id)
    ensures OnlyEntry(After(es, d, capacity, ttl), c, expired || !Fresh(c, d.at, ttl))
  {
    hide Retain;
    RetainOnlyEntry(es, c, expired, d.at, ttl);
  }

  lemma FirstEntry(es: seq<Claim>, c: Claim, capacity: nat, ttl: nat)
    requires 0 < capacity && !Holds(Retain(es, c.at, ttl), c.id)
    ensures OnlyEntry(After(es, c, capacity, ttl), c, false)
  {
    hide Retain;
    var kept := Retain(es, c.at, ttl);
    forall e | e in kept ensures e.id != c.id {
      var k :| 0 <= k < |kept| && kept[k] == e;
    }
  }

  lemma {:induction false} ExpiredStaysOut(calls: seq<Claim>, i: nat, j: nat, capacity: nat, ttl: nat)
    requires 0 < capacity && i < j <= |calls|
    requires Accepts(calls, i, capacity, ttl) && NotReclaimed(calls, i, j, capacity, ttl)
    ensures OnlyEntry(Entries(calls[..j], capacity, ttl), calls[i], ExpiredBefore(calls, i, j, ttl))
    decreases j
  {
    hide Retain, After, Holds;
    var d := calls[j - 1];
    var before := Entries(calls[..j - 1], capacity, ttl);
    assert calls[..j][..j - 1] == calls[..j - 1];
    if i == j - 1 {
      FirstEntry(before, d, capacity, ttl);
    } else {
      ExpiredStaysOut(calls, i, j - 1, capacity, ttl);
      AfterOnlyEntry(before, calls[i], ExpiredBefore(calls, i, j - 1, ttl), d, capacity, ttl);
      ExpiredStep(calls, i, j, ttl);
    }
  }

  lemma ExpiredStep(calls: seq<Claim>, i: nat, j: nat, ttl: nat)
    requires i + 1 < j <= |calls|
    ensures ExpiredBefore(calls, i, j, ttl) <==>
            ExpiredBefore(calls, i, j - 1, ttl) || !Fresh(calls[i], calls[j - 1].at, ttl)
  {
    if k :| i < k < j && !Fresh(calls[i], calls[k].at, ttl) {
      if k < j - 1 {
        assert ExpiredBefore(calls, i, j - 1, ttl);
      }
    }
  }

  /**
    Whatever the clock readings: while fewer than `capacity` claims were accepted since an
    accepted claim, and none of them with its id, the next claim of that id is accepted
    exactly when some reading since, its own included, had the first one expired.
   */
  lemma ReadmittedIff(calls: seq<Claim>, i: nat, j: nat, capacity: nat, ttl: nat)
    requires 0 < capacity && i < j < |calls| && calls[i].id == calls[j].id
    requires Accepts(calls, i, capacity, ttl) && NotReclaimed(calls, i, j, capacity, ttl)
    requires AcceptedCount(calls, i + 1, j, capacity, ttl) < capacity
    ensures Accepts(calls, j, capacity, ttl) <==> ExpiredBefore(calls, i, j + 1, ttl)
  {
    hide Retain, Entries, AcceptedCount;
    if Accepts(calls, j, capacity, ttl) {
      AcceptedClaimsAreSpaced(calls, i, j, capacity, ttl);
    }
    if ExpiredBefore(calls, i, j + 1, ttl) {
      var es := Entries(calls[..j], capacity, ttl);
      ExpiredStaysOut(calls, i, j, capacity, ttl);
      RetainOnlyEntry(es, calls[i], ExpiredBefore(calls, i, j, ttl), calls[j].at, ttl);
      assert ExpiredBefore(calls, i, j, ttl) || !Fresh(calls[i], calls[j].at, ttl);
      assert forall e :: e in Retain(es, calls[j].at, ttl) ==> e.id != calls[i].id;
    }
  }

  /** Call `j` re-admits the id of `i` although its own reading is within the time-to-live. */
  ghost predicate SpacingBreaks(calls: seq<Claim>, i: nat, j: nat, capacity: nat, ttl: nat)
    requires 0 < capacity && i < j < |calls|
  {
    Accepts(calls, j, capacity, ttl) && calls[j].at < calls[i].at + ttl
  }

  /**
    The spacing in time breaks exactly when the later reading is within the time-to-live of
    the first while some reading in between was past it; a time-to-live of zero keeps nothing.
   */
  lemma SpacingBreaksIff(calls: seq<Claim>, i: nat, j: nat, capacity: nat, ttl: nat)
    requires 0 < capacity && i < j < |calls| && calls[i].id == calls[j].id
    requires Accepts(calls, i, capacity, ttl) && NotReclaimed(calls, i, j, capacity, ttl)
    requires AcceptedCount(calls, i + 1, j, capacity, ttl) < capacity
    ensures SpacingBreaks(calls, i, j, capacity, ttl) <==>
            && calls[j].at < calls[i].at + ttl
            && (ttl == 0 || exists k :: i < k < j && calls[k].at >= calls[i].at + ttl)
  {
    hide Accepts, AcceptedCount, NotReclaimed;
    ReadmittedIff(calls, i, j, capacity, ttl);
    if calls[j].at < calls[i].at + ttl {
      if k :| i < k < j + 1 && !Fresh(calls[i], calls[k].at, ttl) {
        assert ttl > 0 ==> k < j && calls[k].at >= calls[i].at + ttl;
      }
      if k :| i < k < j && calls[k].at >= calls[i].at + ttl {
        assert !Fresh(calls[i], calls[k].at, ttl);
      }
      if ttl == 0 {
        assert !Fresh(calls[i], calls[j].at, ttl);
      }
    }
  }

  // ---------------------------------------------------------------------------
  // Agreement with the unbounded log, for clock readings that never go back
  // ---------------------------------------------------------------------------

  predicate Monotone(calls: seq<Claim>) {
    forall i, j :: 0 <= i < j < |calls| ==> calls[i].at <= calls[j].at
  }

  /** With such readings the spacing is in time: at least the time-to-live apart. */
  lemma MonotoneClaimsAreSpaced(calls: seq<Claim>, i: nat, j: nat, capacity: nat, ttl: nat)
    requires 0 < capacity && i < j < |calls| && calls[i].id == calls[j].id && Monotone(calls)
    requires Accepts(calls, i, capacity, ttl) && Accepts(calls, j, capacity, ttl)
    ensures calls[j].at >= calls[i].at + ttl || AcceptedCount(calls, i + 1, j, capacity, ttl) >= capacity
  {
    AcceptedClaimsAreSpaced(calls, i, j, capacity, ttl);
    if ExpiredBefore(calls, i, j + 1, ttl) {
      var k :| i < k < j + 1 && !Fresh(calls[i], calls[k].at, ttl);
      assert calls[k].at <= calls[j].at;
    }
  }

  /** Clock readings are taken before the lock: a late holder of an early reading can re-admit an id. */
  lemma LateReadingReadmits()
    ensures var calls := [Claim("a", 10), Claim("b", 100), Claim("a", 20)];
            && Accepts(calls, 0, 2, 50) && Accepts(calls, 2, 2, 50)
            && calls[2].at < calls[0].at + 50 && AcceptedCount(calls, 1, 2, 2, 50) < 2
  {
    hide Entries;
    var a, b, late := Claim("a", 10), Claim("b", 100), Claim("a", 20);
    var calls := [a, b, late];
    assert calls[..0] == [] && calls[..1] == [a] && calls[..2] == [a, b];
    FirstTwoEntries(a, b);
    RetainOne(b, 20, 50);
    assert !Holds([b], "a");
    assert AcceptedCount(calls, 1, 1, 2, 50) == 0;
  }

  /** A second claim past the time-to-live of the first leaves only itself. */
  lemma FirstTwoEntries(a: Claim, b: Claim)
    requires !Fresh(a, b.at, 50)
    ensures Entries([], 2, 50) == [] && Entries([a, b], 2, 50) == [b]
  {
    assert [a] == [] + [a] && [a, b] == [a] + [b];
    EntriesSnoc([], a, 2, 50);
    assert After([], a, 2, 50) == [] + [a];
    EntriesSnoc([a], b, 2, 50);
    RetainOne(a, b.at, 50);
    assert After([a], b, 2, 50) == [] + [b];
  }

  lemma EntriesSnoc(calls: seq<Claim>, c: Claim, capacity: nat, ttl: nat)
    requires 0 < capacity
    ensures Entries(calls + [c], capacity, ttl) == After(Entries(calls, capacity, ttl), c, capacity, ttl)
  {
    assert (calls + [c])[..|calls|] == calls;
  }

  /** Reference: the claims accepted so far, with no bound on their number or age. */
  function Log(calls: seq<Claim>, capacity: nat, ttl: nat): seq<Claim> {
    if calls == [] then []
    else
      var log, c := Log(calls[..|calls| - 1], capacity, ttl), calls[|calls| - 1];
      if Seen(log, c, capacity, ttl) then log else log + [c]
  }

  /** Reference decision: one of the newest `capacity` accepted claims has this id and is still fresh. */
  predicate Seen(log: seq<Claim>, c: Claim, capacity: nat, ttl: nat) {
    exists i :: 0 <= i < |log| && |log| - capacity <= i && log[i].id == c.id && Fresh(log[i], c.at, ttl)
  }

  ghost predicate SortedUpTo(es: seq<Claim>, now: nat) {
    && (forall i, j :: 0 <= i < j < |es| ==> es[i].at <= es[j].at)
    && (forall i :: 0 <= i < |es| ==> es[i].at <= now)
  }

  lemma {:induction false} RetainConcat(a: seq<Claim>, b: seq<Claim>, now: nat, ttl: nat)
    ensures Retain(a + b, now, ttl) == Retain(a, now, ttl) + Retain(b, now, ttl)
    decreases |b|
  {
    if b == [] {
      assert a + b == a;
    } else {
      var init := b[..|b| - 1];
      assert (a + b)[..|a + b| - 1] == a + init;
      RetainConcat(a, init, now, ttl);
    }
  }

  lemma RetainOne(c: Claim, now: nat, ttl: nat)
    ensures Retain([c], now, ttl) == if Fresh(c, now, ttl) then [c] else []
  {
    assert [c][..0] == [];
  }

  /** What is fresh later was fresh earlier, so retaining in two stages changes nothing. */
  lemma {:induction false} RetainTwice(es: seq<Claim>, now: nat, n: nat, ttl: nat)
    requires now <= n
    ensures Retain(Retain(es, now, ttl), n, ttl) == Retain(es, n, ttl)
  {
    if es != [] {
      var init, last := es[..|es| - 1], es[|es| - 1];
      RetainTwice(init, now, n, ttl);
      if Fresh(last, now, ttl) {
        RetainConcat(Retain(init, now, ttl), [last], n, ttl);
        RetainOne(last, n, ttl);
      } else {
        assert Retain(init, now, ttl) + [] == Retain(init, now, ttl);
        assert Retain(init, n, ttl) + [] == Retain(init, n, ttl);
      }
    }
  }

  lemma {:induction false} RetainAllFresh(es: seq<Claim>, now: nat, ttl: nat)
    requires forall i :: 0 <= i < |es| ==> Fresh(es[i], now, ttl)
    ensures Retain(es, now, ttl) == es
  {
    if es != [] { RetainAllFresh(es[..|es| - 1], now, ttl); }
  }

  /** In order of time the oldest entry expires first. */
  lemma OldestExpiresFirst(es: seq<Claim>, now: nat, n: nat, ttl: nat)
    requires SortedUpTo(es, now) && now <= n && es != []
    requires |Retain(es, now, ttl)| < |es|
    ensures Retain(es, n, ttl) == Retain(es[1..], n, ttl)
  {
    if Fresh(es[0], now, ttl) {
      RetainAllFresh(es, now, ttl);
    }
    assert es == [es[0]] + es[1..];
    RetainConcat([es[0]], es[1..], n, ttl);
    RetainOne(es[0], n, ttl);
  }

  /** Trimming the retained window or the whole window first gives the same fresh claims. */
  lemma TrimThenRetain(log: seq<Claim>, now: nat, n: nat, capacity: nat, ttl: nat)
    requires SortedUpTo(log, now) && now <= n && 0 < capacity
    ensures var window := Newest(log, capacity);
            Retain(Newest(Retain(window, now, ttl), capacity - 1), n, ttl) == Retain(Newest(log, capacity - 1), n, ttl)
  {
    hide Retain;
    var window := Newest(log, capacity);
    var kept := Retain(window, now, ttl);
    if |kept| <= capacity - 1 {
      RetainTwice(window, now, n, ttl);
      if |log| >= capacity {
        OldestExpiresFirst(window, now, n, ttl);
        assert window[1..] == Newest(log, capacity - 1);
      }
    } else {
      FullRetain(window, now, ttl);
      assert window[1..] == Newest(log, capacity - 1);
    }
  }

  lemma {:induction false} FullRetain(es: seq<Claim>, now: nat, ttl: nat)
    requires |Retain(es, now, ttl)| == |es|
    ensures Retain(es, now, ttl) == es
  {
    if es != [] { FullRetain(es[..|es| - 1], now, ttl); }
  }

  lemma {:induction false} HoldsRetained(es: seq<Claim>, id: string, now: nat, ttl: nat)
    ensures Holds(Retain(es, now, ttl), id) <==>
            exists i :: 0 <= i < |es| && es[i].id == id && Fresh(es[i], now, ttl)
  {
    if es != [] {
      var init, last := es[..|es| - 1], es[|es| - 1];
      HoldsRetained(init, id, now, ttl);
      var before, kept := Retain(init, now, ttl), Retain(es, now, ttl);
      if Holds(before, id) {
        var i :| 0 <= i < |before| && before[i].id == id;
        assert kept[i].id == id;
        var k :| 0 <= k < |init| && init[k].id == id && Fresh(init[k], now, ttl);
        assert es[k].id == id;
      }
      if last.id == id && Fresh(last, now, ttl) {
        assert kept[|before|] == last;
      }
      if Holds(kept, id) && !Holds(before, id) {
        assert last.id == id;
      }
      if k :| 0 <= k < |es| && es[k].id == id && Fresh(es[k], now, ttl) {
        if k < |init| { assert init[k].id == id; }
      }
    }
  }

  lemma SeenIsHeld(log: seq<Claim>, c: Claim, capacity: nat, ttl: nat)
    ensures Seen(log, c, capacity, ttl) <==> Holds(Retain(Newest(log, capacity), c.at, ttl), c.id)
  {
    var window := Newest(log, capacity);
    HoldsRetained(window, c.id, c.at, ttl);
    var skip := |log| - |window|;
    if i :| 0 <= i < |log| && |log| - capacity <= i && log[i].id == c.id && Fresh(log[i], c.at, ttl) {
      assert window[i - skip] == log[i];
    }
    if i :| 0 <= i < |window| && window[i].id == c.id && Fresh(window[i], c.at, ttl) {
      assert log[i + skip] == window[i];
    }
  }

  lemma {:induction false} LogSorted(calls: seq<Claim>, now: nat, capacity: nat, ttl: nat)
    requires SortedUpTo(calls, now)
    ensures SortedUpTo(Log(calls, capacity, ttl), now)
  {
    if calls != [] {
      var c := calls[|calls| - 1];
      LogSorted(calls[..|calls| - 1], c.at, capacity, ttl);
    }
  }

  /** An accepted claim moves the cache and the log's window alike. */
  lemma WindowStep(es: seq<Claim>, log: seq<Claim>, c: Claim, n: nat, capacity: nat, ttl: nat)
    requires 0 < capacity && SortedUpTo(log, c.at) && c.at <= n
    requires Retain(es, c.at, ttl) == Retain(Newest(log, capacity), c.at, ttl)
    ensures Retain(Newest(Retain(es, c.at, ttl), capacity - 1) + [c], n, ttl) ==
            Retain(Newest(log + [c], capacity), n, ttl)
  {
    hide Retain;
    TrimThenRetain(log, c.at, n, capacity, ttl);
    RetainConcat(Newest(Retain(es, c.at, ttl), capacity - 1), [c], n, ttl);
    RetainConcat(Newest(log, capacity - 1), [c], n, ttl);
    assert Newest(log + [c], capacity) == Newest(log, capacity - 1) + [c];
  }

  /** From the latest reading on, the cache and the newest part of the log hold the same fresh claims. */
  lemma {:induction false} WindowAgrees(calls: seq<Claim>, n: nat, capacity: nat, ttl: nat)
    requires SortedUpTo(calls, n) && 0 < capacity
    ensures Retain(Entries(calls, capacity, ttl), n, ttl) == Retain(Newest(Log(calls, capacity, ttl), capacity), n, ttl)
    decreases |calls|
  {
    hide Retain, Holds, Seen;
    if calls != [] {
      var init, c := calls[..|calls| - 1], calls[|calls| - 1];
      var es, log := Entries(init, capacity, ttl), Log(init, capacity, ttl);
      WindowAgrees(init, c.at, capacity, ttl);
      WindowAgrees(init, n, capacity, ttl);
      SeenIsHeld(log, c, capacity, ttl);
      var kept := Retain(es, c.at, ttl);
      if Holds(kept, c.id) {
        RetainTwice(es, c.at, n, ttl);
      } else {
        LogSorted(init, c.at, capacity, ttl);
        WindowStep(es, log, c, n, capacity, ttl);
      }
    }
  }

  /** Whatever the clock readings, the cache never holds more than its capacity. */
  lemma {:induction false} EntriesWithinCapacity(calls: seq<Claim>, capacity: nat, ttl: nat)
    requires 0 < capacity
    ensures |Entries(calls, capacity, ttl)| <= capacity
  {
    hide Holds, Retain;
    if calls != [] {
      EntriesWithinCapacity(calls[..|calls| - 1], capacity, ttl);
    }
  }

  /** After a call every entry is fresh at its reading, the new one exactly for a positive time-to-live. */
  lemma AfterAllFresh(es: seq<Claim>, c: Claim, capacity: nat, ttl: nat)
    requires 0 < capacity
    ensures 0 < ttl ==> Retain(After(es, c, capacity, ttl), c.at, ttl) == After(es, c, capacity, ttl)
    ensures ttl == 0 ==> Retain(After(es, c, capacity, ttl), c.at, ttl) == [] && After(es, c, capacity, ttl) == [c]
  {
    hide Retain, Holds;
    var kept, next := Retain(es, c.at, ttl), After(es, c, capacity, ttl);
    RetainedAreFresh(es, c.at, ttl);
    if ttl == 0 {
      NoneFresh(es, c.at);
      NoneHeld(c.id);
      NoneFresh(next, c.at);
    } else {
      forall i | 0 <= i < |next| ensures Fresh(next[i], c.at, ttl) {
        assert next[i] in next;
      }
      RetainAllFresh(next, c.at, ttl);
    }
  }

  lemma {:induction false} NoneFresh(es: seq<Claim>, now: nat)
    ensures Retain(es, now, 0) == []
  {
    if es != [] { NoneFresh(es[..|es| - 1], now); }
  }

  lemma NoneHeld(id: string)
    ensures !Holds([], id)
  {
  }

  /**
    With clock readings that never go back, the entries are exactly the newest `capacity`
    accepted claims that are fresh at the latest call, if and only if the time-to-live is
    positive; at zero the latest claim is kept although it is not fresh.
   */
  lemma EntriesAreWindow(calls: seq<Claim>, capacity: nat, ttl: nat)
    requires Monotone(calls) && calls != [] && 0 < capacity
    ensures 0 < ttl <==>
            Entries(calls, capacity, ttl) ==
            Retain(Newest(Log(calls, capacity, ttl), capacity), calls[|calls| - 1].at, ttl)
    ensures ttl == 0 ==> Entries(calls, capacity, ttl) == [calls[|calls| - 1]]
  {
    hide Retain, Log, After;
    var c := calls[|calls| - 1];
    WindowAgrees(calls, c.at, capacity, ttl);
    AfterAllFresh(Entries(calls[..|calls| - 1], capacity, ttl), c, capacity, ttl);
  }

  /**
    The cache refines the unbounded log: with clock readings that never go back, every
    call is answered as the log would answer it.
   */
  lemma CacheAgreesWithLog(calls: seq<Claim>, i: nat, capacity: nat, ttl: nat)
    requires Monotone(calls) && 0 < capacity && i < |calls|
    ensures Accepts(calls, i, capacity, ttl) <==> !Seen(Log(calls[..i], capacity, ttl), calls[i], capacity, ttl)
  {
    WindowAgrees(calls[..i], calls[i].at, capacity, ttl);
    SeenIsHeld(Log(calls[..i], capacity, ttl), calls[i], capacity, ttl);
  }
}
