/** Aggregation of benchmark results into one report for each deployment and dataset. */
module Aggregate {
  import opened Common
  import opened Sums
  import opened Bench
  import opened OrderStats

  datatype AgentCoordinate = AgentCoordinate(key: GroupKey, taskId: string, runOrdinal: U32)

  datatype GroupKey = GroupKey(
    benchmarkId: string,
    datasetName: string,
    datasetVersion: string,
    agentRevision: string,
    providerId: string,
    protocol: string,
    modelId: string)

  datatype Status = Passed | Failed | AgentFailure | NotRun | NotApplicable | InfrastructureFailure

  /** The fields of a result that aggregation reads. */
  datatype AgentResult = AgentResult(
    schemaVersion: U32,
    coordinate: AgentCoordinate,
    status: Status,
    reward: Option<Reward>,
    durationMs: U64,
    inputTokens: U64,
    outputTokens: U64,
    cachedTokens: Option<U64>)

  datatype AggregateError = UnsupportedResultSchema | RepeatedCoordinate | InconsistentResult | CounterOverflow

  /** `validate`; `None` is success. */
  function ResultProblem(r: AgentResult): Option<AggregateError> {
    if r.schemaVersion != 1 then Some(UnsupportedResultSchema)
    else if ((r.status == Passed || r.status == Failed) != r.reward.Some?)
            || (r.reward.Some? && (r.reward.value.NonFinite? || !(0.0 <= r.reward.value.value <= 1.0)))
    then Some(InconsistentResult)
    else None
  }

  /** A result is valid exactly when it carries a reward between zero and one if and only if it was executed. */
  lemma ValidResultIff(r: AgentResult)
    ensures ResultProblem(r).None? <==>
            && r.schemaVersion == 1
            && (r.status in {Passed, Failed} <==> r.reward.Some?)
            && (r.reward.Some? ==> r.reward.value.Finite? && 0.0 <= r.reward.value.value <= 1.0)
    ensures ResultProblem(r) == Some(UnsupportedResultSchema) <==> r.schemaVersion != 1
  {
  }

  datatype Counters = Counters(
    total: U32,
    executed: U32,
    passed: U32,
    failed: U32,
    agentError: U32,
    infrastructure: U32,
    notRun: U32,
    notApplicable: U32,
    rewardSum: real,
    durationSum: U64,
    inputTokens: U64,
    outputTokens: U64,
    cachedTokens: Option<U64>)

  const ZERO: Counters := Counters(0, 0, 0, 0, 0, 0, 0, 0, 0.0, 0, 0, 0, None)

  // ---------------------------------------------------------------------------
  // Statistics
  // ---------------------------------------------------------------------------

  /** The integer statistics of a group. */
  datatype Stat =
    | TotalCells | ExecutedCells | CellsOf(status: Status) | Duration | InputTokens | OutputTokens | CachedTokens

  function Limit(s: Stat): nat {
    if s.TotalCells? || s.ExecutedCells? || s.CellsOf? then U32_MAX else U64_MAX
  }

  function Value(c: Counters, s: Stat): nat {
    match s
    case TotalCells => c.total
    case ExecutedCells => c.executed
    case CellsOf(Passed) => c.passed
    case CellsOf(Failed) => c.failed
    case CellsOf(AgentFailure) => c.agentError
    case CellsOf(NotRun) => c.notRun
    case CellsOf(NotApplicable) => c.notApplicable
    case CellsOf(InfrastructureFailure) => c.infrastructure
    case Duration => c.durationSum
    case InputTokens => c.inputTokens
    case OutputTokens => c.outputTokens
    case CachedTokens => if c.cachedTokens.Some? then c.cachedTokens.value else 0
  }

  /** What one result adds to a statistic. */
  function Share(r: AgentResult, s: Stat): nat {
    match s
    case TotalCells => 1
    case ExecutedCells => if r.status == Passed || r.status == Failed then 1 else 0
    case CellsOf(status) => if r.status == status then 1 else 0
    case Duration => r.durationMs
    case InputTokens => r.inputTokens
    case OutputTokens => r.outputTokens
    case CachedTokens => if r.cachedTokens.Some? then r.cachedTokens.value else 0
  }

  /** Adding one result to a group keeps every counter within its width. */
  ghost predicate Fits(c: Counters, r: AgentResult) {
    forall s :: Value(c, s) + Share(r, s) <= Limit(s)
  }

  function RewardOf(r: AgentResult): real {
    if r.reward.Some? && r.reward.value.Finite? then r.reward.value.value else 0.0
  }

  /** `c` with one result added. */
  ghost predicate IsAdded(c: Counters, r: AgentResult, next: Counters) {
    && (forall s :: Value(next, s) == Value(c, s) + Share(r, s))
    && (next.cachedTokens.None? <==> c.cachedTokens.None? && r.cachedTokens.None?)
    && next.rewardSum == c.rewardSum + RewardOf(r)
  }

  predicate StatusFits(c: Counters, status: Status) {
    match status
    case Passed => c.executed < U32_MAX && c.passed < U32_MAX
    case Failed => c.executed < U32_MAX && c.failed < U32_MAX
    case AgentFailure => c.agentError < U32_MAX
    case InfrastructureFailure => c.infrastructure < U32_MAX
    case NotRun => c.notRun < U32_MAX
    case NotApplicable => c.notApplicable < U32_MAX
  }

  function Counted(c: Counters, status: Status): Counters
    requires StatusFits(c, status)
  {
    match status
    case Passed => c.(executed := c.executed + 1, passed := c.passed + 1)
    case Failed => c.(executed := c.executed + 1, failed := c.failed + 1)
    case AgentFailure => c.(agentError := c.agentError + 1)
    case InfrastructureFailure => c.(infrastructure := c.infrastructure + 1)
    case NotRun => c.(notRun := c.notRun + 1)
    case NotApplicable => c.(notApplicable := c.notApplicable + 1)
  }

  function Rewarded(c: Counters, reward: Option<Reward>): Counters {
    if reward.Some? && reward.value.Finite? then c.(rewardSum := c.rewardSum + reward.value.value) else c
  }

  predicate AmountsFit(c: Counters, r: AgentResult) {
    && c.durationSum + r.durationMs <= U64_MAX
    && c.inputTokens + r.inputTokens <= U64_MAX
    && c.outputTokens + r.outputTokens <= U64_MAX
    && Value(c, CachedTokens) + Share(r, CachedTokens) <= U64_MAX
  }

  function WithAmounts(c: Counters, r: AgentResult): Counters
    requires AmountsFit(c, r)
  {
    c.(durationSum := c.durationSum + r.durationMs,
       inputTokens := c.inputTokens + r.inputTokens,
       outputTokens := c.outputTokens + r.outputTokens,
       cachedTokens := if r.cachedTokens.None? then c.cachedTokens
                       else Some(Value(c, CachedTokens) + r.cachedTokens.value))
  }

  /** The checks of `add`, each on the counters the earlier ones left. */
  predicate CountersFit(c: Counters, r: AgentResult) {
    && c.total < U32_MAX
    && StatusFits(c.(total := c.total + 1), r.status)
    && AmountsFit(Rewarded(Counted(c.(total := c.total + 1), r.status), r.reward), r)
  }

  /** The counters of a group after one more result. */
  function Added(c: Counters, r: AgentResult): Counters
    requires CountersFit(c, r)
  {
    WithAmounts(Rewarded(Counted(c.(total := c.total + 1), r.status), r.reward), r)
  }

  /** The checks of the individual counters are exactly that every statistic stays within its width. */
  lemma FitsMeans(c: Counters, r: AgentResult)
    ensures CountersFit(c, r) <==> Fits(c, r)
  {
    if Fits(c, r) {
      assert Value(c, TotalCells) + Share(r, TotalCells) <= Limit(TotalCells);
      assert Value(c, ExecutedCells) + Share(r, ExecutedCells) <= Limit(ExecutedCells);
      assert Value(c, CellsOf(r.status)) + Share(r, CellsOf(r.status)) <= Limit(CellsOf(r.status));
      assert Value(c, Duration) + Share(r, Duration) <= Limit(Duration);
      assert Value(c, InputTokens) + Share(r, InputTokens) <= Limit(InputTokens);
      assert Value(c, OutputTokens) + Share(r, OutputTokens) <= Limit(OutputTokens);
      assert Value(c, CachedTokens) + Share(r, CachedTokens) <= Limit(CachedTokens);
    }
  }

  /** Adding a result adds its share to every statistic. */
  lemma AddedMeans(c: Counters, r: AgentResult)
    requires CountersFit(c, r)
    ensures IsAdded(c, r, Added(c, r))
  {
    forall s ensures Value(Added(c, r), s) == Value(c, s) + Share(r, s) {
      StatAdded(c, r, s);
    }
  }

  function StatusShare(status: Status, s: Stat): nat {
    match s
    case ExecutedCells => if status == Passed || status == Failed then 1 else 0
    case CellsOf(x) => if status == x then 1 else 0
    case _ => 0
  }

  lemma CountedValue(c: Counters, status: Status, s: Stat)
    requires StatusFits(c, status)
    ensures Value(Counted(c, status), s) == Value(c, s) + StatusShare(status, s)
  {
    match status {
      case Passed =>
      case Failed =>
      case AgentFailure =>
      case InfrastructureFailure =>
      case NotRun =>
      case NotApplicable =>
    }
  }

  lemma RewardedValue(c: Counters, reward: Option<Reward>, s: Stat)
    ensures Value(Rewarded(c, reward), s) == Value(c, s)
  {
  }

  lemma AmountsValue(c: Counters, r: AgentResult, s: Stat)
    requires AmountsFit(c, r)
    ensures Value(WithAmounts(c, r), s) ==
            Value(c, s) + (if s in {Duration, InputTokens, OutputTokens, CachedTokens} then Share(r, s) else 0)
  {
    match s {
      case CellsOf(status) =>
      case _ =>
    }
  }

  lemma TotalValue(c: Counters, s: Stat)
    requires c.total < U32_MAX
    ensures Value(c.(total := c.total + 1), s) == Value(c, s) + (if s == TotalCells then 1 else 0)
  {
    match s {
      case CellsOf(status) =>
      case _ =>
    }
  }

  lemma StatAdded(c: Counters, r: AgentResult, s: Stat)
    requires CountersFit(c, r)
    ensures Value(Added(c, r), s) == Value(c, s) + Share(r, s)
  {
    hide Value, Counted, Rewarded, WithAmounts, StatusFits, AmountsFit;
    var c1 := c.(total := c.total + 1);
    var c2 := Counted(c1, r.status);
    TotalValue(c, s);
    CountedValue(c1, r.status, s);
    RewardedValue(c2, r.reward, s);
    AmountsValue(Rewarded(c2, r.reward), r, s);
  }

  /** `Accumulator`. */
  class Accumulator {
    var total: U32
    var executed: U32
    var passed: U32
    var failed: U32
    var agentError: U32
    var infrastructure: U32
    var notRun: U32
    var notApplicable: U32
    var rewardSum: real
    var durationSum: U64
    var inputTokens: U64
    var outputTokens: U64
    var cachedTokens: Option<U64>

    function State(): Counters
      reads this
    {
      Counters(total, executed, passed, failed, agentError, infrastructure, notRun, notApplicable, rewardSum,
               durationSum, inputTokens, outputTokens, cachedTokens)
    }

    constructor (c: Counters)
      ensures State() == c
    {
      total, executed, passed, failed := c.total, c.executed, c.passed, c.failed;
      agentError, infrastructure, notRun, notApplicable := c.agentError, c.infrastructure, c.notRun, c.notApplicable;
      rewardSum, durationSum := c.rewardSum, c.durationSum;
      inputTokens, outputTokens, cachedTokens := c.inputTokens, c.outputTokens, c.cachedTokens;
    }

    /** `add`, which fails on the first counter that would overflow. */
    method Add(r: AgentResult) returns (ok: bool)
      modifies this
      ensures ok <==> CountersFit(old(State()), r)
      ensures ok ==> State() == Added(old(State()), r)
    {
      hide Counted, WithAmounts, StatusFits, AmountsFit;
      if total == U32_MAX {
        return false;
      }
      total := total + 1;
      ok := CountStatus(r.status);
      if !ok {
        return;
      }
      if r.reward.Some? && r.reward.value.Finite? {
        rewardSum := rewardSum + r.reward.value.value;
      }
      ok := AddAmounts(r);
    }

    method CountStatus(status: Status) returns (ok: bool)
      modifies `executed, `passed, `failed, `agentError, `infrastructure, `notRun, `notApplicable
      ensures ok <==> StatusFits(old(State()), status)
      ensures ok ==> State() == Counted(old(State()), status)
    {
      if status == Passed || status == Failed {
        if executed == U32_MAX {
          return false;
        }
        executed := executed + 1;
      }
      match status {
        case Passed => if passed == U32_MAX { return false; } passed := passed + 1;
        case Failed => if failed == U32_MAX { return false; } failed := failed + 1;
        case AgentFailure => if agentError == U32_MAX { return false; } agentError := agentError + 1;
        case InfrastructureFailure =>
          if infrastructure == U32_MAX { return false; }
          infrastructure := infrastructure + 1;
        case NotRun => if notRun == U32_MAX { return false; } notRun := notRun + 1;
        case NotApplicable => if notApplicable == U32_MAX { return false; } notApplicable := notApplicable + 1;
      }
      ok := true;
    }

    method AddAmounts(r: AgentResult) returns (ok: bool)
      modifies `durationSum, `inputTokens, `outputTokens, `cachedTokens
      ensures ok <==> AmountsFit(old(State()), r)
      ensures ok ==> State() == WithAmounts(old(State()), r)
    {
      if durationSum + r.durationMs > U64_MAX {
        return false;
      }
      durationSum := durationSum + r.durationMs;
      if inputTokens + r.inputTokens > U64_MAX {
        return false;
      }
      inputTokens := inputTokens + r.inputTokens;
      if outputTokens + r.outputTokens > U64_MAX {
        return false;
      }
      outputTokens := outputTokens + r.outputTokens;
      if r.cachedTokens.Some? {
        var before := if cachedTokens.Some? then cachedTokens.value else 0;
        if before + r.cachedTokens.value > U64_MAX {
          return false;
        }
        cachedTokens := Some(before + r.cachedTokens.value);
      }
      ok := true;
    }
  }

  // ---------------------------------------------------------------------------
  // What aggregation computes
  // ---------------------------------------------------------------------------

  /** What a result adds to a statistic of one group. */
  function ShareIn(k: GroupKey, s: Stat): AgentResult -> nat {
    (r: AgentResult) => if r.coordinate.key == k then Share(r, s) else 0
  }

  /** What a result adds to the reward sum of one group. */
  function RewardIn(k: GroupKey): AgentResult -> real {
    (r: AgentResult) => if r.coordinate.key == k then RewardOf(r) else 0.0
  }

  ghost predicate InGroup(results: seq<AgentResult>, k: GroupKey) {
    exists i :: 0 <= i < |results| && results[i].coordinate.key == k
  }

  ghost predicate ReportsCached(results: seq<AgentResult>, k: GroupKey) {
    exists i :: 0 <= i < |results| && results[i].coordinate.key == k && results[i].cachedTokens.Some?
  }

  type Groups = map<GroupKey, Counters>

  /** One group holds the statistics of its own results. */
  ghost predicate Tallies(results: seq<AgentResult>, k: GroupKey, c: Counters) {
    && (forall s :: Value(c, s) == Sum(results, ShareIn(k, s)))
    && (c.cachedTokens.Some? <==> ReportsCached(results, k))
    && c.rewardSum == RealSum(results, RewardIn(k))
    && 0.0 <= c.rewardSum <= c.executed as real
  }

  ghost predicate AllTally(results: seq<AgentResult>, groups: Groups) {
    && (forall k :: k in groups <==> InGroup(results, k))
    && (forall k :: k in groups ==> Tallies(results, k, groups[k]))
  }

  /** Every result is valid, no coordinate repeats and every group's statistics fit their counters. */
  ghost predicate Acceptable(results: seq<AgentResult>) {
    && (forall i :: 0 <= i < |results| ==> ResultProblem(results[i]).None?)
    && (forall i, j :: 0 <= i < j < |results| ==> results[i].coordinate != results[j].coordinate)
    && (forall k, s :: Sum(results, ShareIn(k, s)) <= Limit(s))
  }

  function OrZero(groups: Groups, k: GroupKey): Counters {
    if k in groups then groups[k] else ZERO
  }

  lemma {:induction false} OutOfGroup(results: seq<AgentResult>, k: GroupKey, s: Stat)
    requires !InGroup(results, k)
    ensures Sum(results, ShareIn(k, s)) == 0
  {
    if results != [] {
      var init, last := results[..|results| - 1], results[|results| - 1];
      assert last.coordinate.key != k;
      assert forall i :: 0 <= i < |init| ==> init[i] == results[i];
      OutOfGroup(init, k, s);
    }
  }

  lemma GroupSum(results: seq<AgentResult>, groups: Groups, k: GroupKey, s: Stat)
    requires AllTally(results, groups)
    ensures Value(OrZero(groups, k), s) == Sum(results, ShareIn(k, s))
  {
    hide Sum, ShareIn;
    if k !in groups {
      OutOfGroup(results, k, s);
    }
  }

  lemma SumSnoc(results: seq<AgentResult>, r: AgentResult, k: GroupKey, s: Stat)
    ensures Sum(results + [r], ShareIn(k, s)) ==
            Sum(results, ShareIn(k, s)) + (if r.coordinate.key == k then Share(r, s) else 0)
  {
    assert (results + [r])[..|results|] == results;
  }

  /** The next result fits its group exactly when all the statistics still fit. */
  lemma FitsIff(results: seq<AgentResult>, groups: Groups, r: AgentResult)
    requires AllTally(results, groups) && Acceptable(results)
    ensures Fits(OrZero(groups, r.coordinate.key), r) <==>
            forall k, s :: Sum(results + [r], ShareIn(k, s)) <= Limit(s)
  {
    hide Sum, ShareIn, Share, Value, Limit, AllTally;
    var g := r.coordinate.key;
    forall k, s ensures Sum(results + [r], ShareIn(k, s)) ==
                        Sum(results, ShareIn(k, s)) + (if g == k then Share(r, s) else 0) {
      SumSnoc(results, r, k, s);
    }
    forall s ensures Value(OrZero(groups, g), s) == Sum(results, ShareIn(g, s)) {
      GroupSum(results, groups, g, s);
    }
  }

  lemma SnocGroups(results: seq<AgentResult>, r: AgentResult, k: GroupKey)
    ensures InGroup(results + [r], k) <==> InGroup(results, k) || r.coordinate.key == k
    ensures ReportsCached(results + [r], k) <==>
            ReportsCached(results, k) || (r.coordinate.key == k && r.cachedTokens.Some?)
  {
    var all := results + [r];
    assert all[|results|] == r && forall i :: 0 <= i < |results| ==> all[i] == results[i];
    if i :| 0 <= i < |results| && results[i].coordinate.key == k && results[i].cachedTokens.Some? {
      assert all[i] == results[i];
    }
    if i :| 0 <= i < |results| && results[i].coordinate.key == k {
      assert all[i] == results[i];
    }
  }

  lemma NothingCached(results: seq<AgentResult>, k: GroupKey)
    requires !InGroup(results, k)
    ensures !ReportsCached(results, k)
  {
  }

  lemma {:induction false} NothingRewarded(results: seq<AgentResult>, k: GroupKey)
    requires !InGroup(results, k)
    ensures RealSum(results, RewardIn(k)) == 0.0
  {
    if results != [] {
      var init, last := results[..|results| - 1], results[|results| - 1];
      assert last.coordinate.key != k;
      assert forall i :: 0 <= i < |init| ==> init[i] == results[i];
      NothingRewarded(init, k);
    }
  }

  lemma RewardSnoc(results: seq<AgentResult>, r: AgentResult, k: GroupKey)
    ensures RealSum(results + [r], RewardIn(k)) ==
            RealSum(results, RewardIn(k)) + (if r.coordinate.key == k then RewardOf(r) else 0.0)
  {
    assert (results + [r])[..|results|] == results;
  }

  lemma TalliesOrZero(results: seq<AgentResult>, groups: Groups, k: GroupKey)
    requires AllTally(results, groups)
    ensures Tallies(results, k, OrZero(groups, k))
  {
    hide Sum, ShareIn, Value, ReportsCached, InGroup, RealSum;
    forall s ensures Value(OrZero(groups, k), s) == Sum(results, ShareIn(k, s)) {
      GroupSum(results, groups, k, s);
    }
    if k !in groups {
      NothingCached(results, k);
      NothingRewarded(results, k);
    }
  }

  /** Adding a valid result to a group's statistics gives the statistics with the result in the list. */
  lemma TalliesSnoc(results: seq<AgentResult>, k: GroupKey, c: Counters, r: AgentResult, next: Counters)
    requires Tallies(results, k, c) && r.coordinate.key == k && ResultProblem(r).None? && IsAdded(c, r, next)
    ensures Tallies(results + [r], k, next)
  {
    hide Sum, ShareIn, ReportsCached, InGroup, RealSum;
    RewardSnoc(results, r, k);
    forall s ensures Value(next, s) == Sum(results + [r], ShareIn(k, s)) {
      SumSnoc(results, r, k, s);
    }
    SnocGroups(results, r, k);
    assert Value(next, ExecutedCells) == Value(c, ExecutedCells) + Share(r, ExecutedCells);
  }

  lemma TalliesOther(results: seq<AgentResult>, k: GroupKey, c: Counters, r: AgentResult)
    requires Tallies(results, k, c) && r.coordinate.key != k
    ensures Tallies(results + [r], k, c)
  {
    hide Sum, ShareIn, ReportsCached, InGroup, Value, RealSum;
    RewardSnoc(results, r, k);
    forall s ensures Value(c, s) == Sum(results + [r], ShareIn(k, s)) {
      SumSnoc(results, r, k, s);
    }
    SnocGroups(results, r, k);
  }

  lemma AllTallySnoc(results: seq<AgentResult>, groups: Groups, r: AgentResult, next: Counters)
    requires AllTally(results, groups) && ResultProblem(r).None?
    requires IsAdded(OrZero(groups, r.coordinate.key), r, next)
    ensures AllTally(results + [r], groups[r.coordinate.key := next])
  {
    hide Tallies, InGroup, ReportsCached, IsAdded, ResultProblem;
    var g := r.coordinate.key;
    TalliesOrZero(results, groups, g);
    TalliesSnoc(results, g, OrZero(groups, g), r, next);
    forall k ensures InGroup(results + [r], k) <==> InGroup(results, k) || g == k {
      SnocGroups(results, r, k);
    }
    forall k | k in groups && k != g ensures Tallies(results + [r], k, groups[k]) {
      TalliesOther(results, k, groups[k], r);
    }
  }

  lemma AcceptableSnoc(results: seq<AgentResult>, r: AgentResult)
    requires Acceptable(results)
    ensures Acceptable(results + [r]) <==>
            && ResultProblem(r).None?
            && (forall i :: 0 <= i < |results| ==> results[i].coordinate != r.coordinate)
            && (forall k, s :: Sum(results + [r], ShareIn(k, s)) <= Limit(s))
  {
    hide Sum, ShareIn, Limit, ResultProblem;
    var all := results + [r];
    assert all[|results|] == r && forall i :: 0 <= i < |results| ==> all[i] == results[i];
    if Acceptable(all) {
      forall i | 0 <= i < |results| ensures results[i].coordinate != r.coordinate {
        assert all[i].coordinate != all[|results|].coordinate;
      }
    }
  }

  /** A list with an unacceptable beginning is unacceptable. */
  lemma AcceptablePrefix(results: seq<AgentResult>, n: nat)
    requires n <= |results| && Acceptable(results)
    ensures Acceptable(results[..n])
  {
    hide Sum, ShareIn, Limit, ResultProblem;
    forall k, s ensures Sum(results[..n], ShareIn(k, s)) <= Limit(s) {
      assert results == results[..n] + results[n..];
      SumAppend(results[..n], results[n..], ShareIn(k, s));
    }
  }

  lemma NothingAggregated()
    ensures Acceptable([]) && AllTally([], map[])
  {
    forall k, s ensures Sum([], ShareIn(k, s)) <= Limit(s) {
    }
  }

  ghost predicate Repeats(results: seq<AgentResult>, i: nat)
    requires i < |results|
  {
    exists j :: 0 <= j < i && results[j].coordinate == results[i].coordinate
  }

  /** Result `i` is the first that makes the list unacceptable, for the reason given. */
  ghost predicate FailsAt(results: seq<AgentResult>, i: nat, e: AggregateError) {
    && i < |results|
    && Acceptable(results[..i]) && !Acceptable(results[..i + 1])
    && e == if ResultProblem(results[i]).Some? then ResultProblem(results[i]).value
            else if Repeats(results, i) then RepeatedCoordinate
            else CounterOverflow
  }

  /**
    `aggregate_results`, up to the last conversion of its groups: it succeeds exactly on
    acceptable results, and then every group holds the statistics of its own results.
    Otherwise it reports the first result that makes the list unacceptable.
   */
  method AggregateResults(results: seq<AgentResult>) returns (r: Result<Groups, AggregateError>)
    ensures r.Ok? <==> Acceptable(results)
    ensures r.Ok? ==> AllTally(results, r.value)
    ensures r.Err? ==> exists i: nat :: FailsAt(results, i, r.error)
  {
    hide Acceptable, AllTally, Fits, IsAdded, ResultProblem, CountersFit, Added, OrZero;
    NothingAggregated();
    var seen: set<AgentCoordinate> := {};
    var groups: Groups := map[];
    assert results[..0] == [];
    for i := 0 to |results|
      invariant seen == set j | 0 <= j < i :: results[j].coordinate
      invariant Acceptable(results[..i]) && AllTally(results[..i], groups)
    {
      var result := results[i];
      assert results[..i] + [result] == results[..i + 1];
      AcceptableSnoc(results[..i], result);
      Refuses(results, i + 1);
      if ResultProblem(result).Some? {
        assert FailsAt(results, i, ResultProblem(result).value);
        return Err(ResultProblem(result).value);
      }
      assert result.coordinate in seen <==> Repeats(results, i);
      assert Repeats(results, i) <==>
             exists j :: 0 <= j < |results[..i]| && results[..i][j].coordinate == result.coordinate;
      if result.coordinate in seen {
        assert FailsAt(results, i, RepeatedCoordinate);
        return Err(RepeatedCoordinate);
      }
      seen := seen + {result.coordinate};
      var key := result.coordinate.key;
      FitsIff(results[..i], groups, result);
      FitsMeans(OrZero(groups, key), result);
      var accumulator := new Accumulator(OrZero(groups, key));
      var ok := accumulator.Add(result);
      if !ok {
        assert FailsAt(results, i, CounterOverflow);
        return Err(CounterOverflow);
      }
      AddedMeans(OrZero(groups, key), result);
      AllTallySnoc(results[..i], groups, result, accumulator.State());
      groups := groups[key := accumulator.State()];
    }
    assert results[..|results|] == results;
    r := Ok(groups);
  }

  lemma Refuses(results: seq<AgentResult>, n: nat)
    requires n <= |results|
    ensures !Acceptable(results[..n]) ==> !Acceptable(results)
  {
    hide Acceptable;
    if Acceptable(results) {
      AcceptablePrefix(results, n);
    }
  }

  // ---------------------------------------------------------------------------
  // What the reports conserve
  // ---------------------------------------------------------------------------

  /** `AgentAggregate`, with its means over the reals. */
  datatype AgentAggregate = AgentAggregate(
    key: GroupKey,
    counters: Counters,
    meanReward: Option<real>,
    passRate: Option<real>,
    meanDurationMs: Option<real>)

  /** `Accumulator::finish`. */
  function FinishGroup(k: GroupKey, c: Counters): AgentAggregate {
    AgentAggregate(k, c,
                   if c.executed > 0 then Some(c.rewardSum / c.executed as real) else None,
                   if c.executed > 0 then Some(c.passed as real / c.executed as real) else None,
                   if c.total > 0 then Some(c.durationSum as real / c.total as real) else None)
  }

  function Reports(groups: Groups, order: seq<GroupKey>): (reports: seq<AgentAggregate>)
    requires forall k :: k in order ==> k in groups
  {
    if order == [] then []
    else
      var init, k := order[..|order| - 1], order[|order| - 1];
      Reports(groups, init) + [FinishGroup(k, groups[k])]
  }

  function TotalIn(results: seq<AgentResult>): GroupKey -> nat {
    k => Sum(results, ShareIn(k, TotalCells))
  }

  function One(k: GroupKey): GroupKey -> nat {
    x => if x == k then 1 else 0
  }

  function CellsReported(): AgentAggregate -> nat {
    (a: AgentAggregate) => a.counters.total
  }

  lemma {:induction false} TotalsStep(results: seq<AgentResult>, r: AgentResult, order: seq<GroupKey>)
    ensures Sum(order, TotalIn(results + [r])) == Sum(order, TotalIn(results)) + Sum(order, One(r.coordinate.key))
  {
    if order != [] {
      TotalsStep(results, r, order[..|order| - 1]);
      SumSnoc(results, r, order[|order| - 1], TotalCells);
    }
  }

  lemma {:induction false} OneInOrder(order: seq<GroupKey>, k: GroupKey)
    requires NoDuplicates(order)
    ensures Sum(order, One(k)) == if k in order then 1 else 0
  {
    if order != [] {
      var init := order[..|order| - 1];
      assert order == init + [order[|order| - 1]];
      OneInOrder(init, k);
    }
  }

  lemma {:induction false} NoResultsNoTotals(order: seq<GroupKey>)
    ensures Sum(order, TotalIn([])) == 0
  {
    if order != [] {
      NoResultsNoTotals(order[..|order| - 1]);
    }
  }

  lemma {:induction false} TotalsConserve(results: seq<AgentResult>, order: seq<GroupKey>)
    requires NoDuplicates(order)
    requires forall i :: 0 <= i < |results| ==> results[i].coordinate.key in order
    ensures Sum(order, TotalIn(results)) == |results|
  {
    hide Sum, NoDuplicates, TotalIn;
    if results == [] {
      NoResultsNoTotals(order);
    } else {
      var init, last := results[..|results| - 1], results[|results| - 1];
      assert results == init + [last];
      TotalsConserve(init, order);
      TotalsStep(init, last, order);
      OneInOrder(order, last.coordinate.key);
    }
  }

  lemma {:induction false} ReportedTotals(results: seq<AgentResult>, groups: Groups, order: seq<GroupKey>)
    requires AllTally(results, groups) && forall k :: k in order ==> k in groups
    ensures Sum(Reports(groups, order), CellsReported()) == Sum(order, TotalIn(results))
  {
    hide AllTally;
    if order != [] {
      var init, k := order[..|order| - 1], order[|order| - 1];
      ReportedTotals(results, groups, init);
      GroupSum(results, groups, k, TotalCells);
      assert Reports(groups, order)[..|Reports(groups, init)|] == Reports(groups, init);
    }
  }

  /** The reported totals, over any enumeration of the groups, add up to the number of results. */
  lemma ReportsConserve(results: seq<AgentResult>, groups: Groups, order: seq<GroupKey>)
    requires AllTally(results, groups) && Enumerates(order, groups.Keys)
    ensures Sum(Reports(groups, order), CellsReported()) == |results|
  {
    hide Sum, TotalIn, Reports;
    ReportedTotals(results, groups, order);
    forall i | 0 <= i < |results| ensures results[i].coordinate.key in order {
      assert InGroup(results, results[i].coordinate.key);
      assert results[i].coordinate.key in groups.Keys;
    }
    TotalsConserve(results, order);
  }

  lemma {:induction false} StatusesPartition(results: seq<AgentResult>, k: GroupKey)
    ensures Sum(results, ShareIn(k, TotalCells)) ==
            Sum(results, ShareIn(k, CellsOf(Passed))) + Sum(results, ShareIn(k, CellsOf(Failed))) +
            Sum(results, ShareIn(k, CellsOf(AgentFailure))) + Sum(results, ShareIn(k, CellsOf(InfrastructureFailure))) +
            Sum(results, ShareIn(k, CellsOf(NotRun))) + Sum(results, ShareIn(k, CellsOf(NotApplicable)))
    ensures Sum(results, ShareIn(k, ExecutedCells)) ==
            Sum(results, ShareIn(k, CellsOf(Passed))) + Sum(results, ShareIn(k, CellsOf(Failed)))
  {
    if results != [] {
      StatusesPartition(results[..|results| - 1], k);
    }
  }

  /** Each report: the statuses partition its cells, and the mean reward and pass rate lie between zero and one. */
  lemma ReportIsSound(results: seq<AgentResult>, groups: Groups, k: GroupKey)
    requires AllTally(results, groups) && k in groups
    ensures var c := groups[k];
            && c.total == c.passed + c.failed + c.agentError + c.infrastructure + c.notRun + c.notApplicable
            && c.executed == c.passed + c.failed
    ensures var a := FinishGroup(k, groups[k]);
            && (a.meanReward.Some? ==> 0.0 <= a.meanReward.value <= 1.0)
            && (a.passRate.Some? ==> 0.0 <= a.passRate.value <= 1.0)
            && (a.meanReward.Some? <==> groups[k].executed > 0) && (a.passRate.Some? <==> groups[k].executed > 0)
            && (a.meanReward.Some? ==> a.meanReward.value == RealSum(results, RewardIn(k)) / groups[k].executed as real)
    ensures var a := FinishGroup(k, groups[k]);
            var executed, total := Sum(results, ShareIn(k, ExecutedCells)), Sum(results, ShareIn(k, TotalCells));
            && a.key == k && a.counters == groups[k]
            && a.passRate == (if executed == 0 then None
                              else Some(Sum(results, ShareIn(k, CellsOf(Passed))) as real / executed as real))
            && a.meanDurationMs == (if total == 0 then None
                                    else Some(Sum(results, ShareIn(k, Duration)) as real / total as real))
  {
    hide Sum, ShareIn;
    var c := groups[k];
    assert Tallies(results, k, c);
    StatusesPartition(results, k);
    assert Value(c, TotalCells) == Sum(results, ShareIn(k, TotalCells));
    assert Value(c, ExecutedCells) == Sum(results, ShareIn(k, ExecutedCells));
    assert Value(c, Duration) == Sum(results, ShareIn(k, Duration));
    assert forall s: Status :: Value(c, CellsOf(s)) == Sum(results, ShareIn(k, CellsOf(s)));
    assert Value(c, CellsOf(Passed)) == c.passed && Value(c, CellsOf(Failed)) == c.failed;
    assert Value(c, CellsOf(AgentFailure)) == c.agentError;
    assert Value(c, CellsOf(InfrastructureFailure)) == c.infrastructure;
    assert Value(c, CellsOf(NotRun)) == c.notRun && Value(c, CellsOf(NotApplicable)) == c.notApplicable;
    if c.executed > 0 {
      RatioInUnit(c.rewardSum, c.executed as real);
      RatioInUnit(c.passed as real, c.executed as real);
    }
  }

  lemma RatioInUnit(a: real, b: real)
    requires 0.0 <= a <= b && 0.0 < b
    ensures 0.0 <= a / b <= 1.0
  {
  }

  lemma ValidIsOrderFree(results: seq<AgentResult>, results2: seq<AgentResult>)
    requires multiset(results) == multiset(results2) && Acceptable(results)
    ensures forall i :: 0 <= i < |results2| ==> ResultProblem(results2[i]).None?
    ensures forall i, j :: 0 <= i < j < |results2| ==> results2[i].coordinate != results2[j].coordinate
  {
    hide Sum, ShareIn, ResultProblem;
    forall i | 0 <= i < |results2| ensures results2[i] in results {
      assert results2[i] in multiset(results2);
      assert results2[i] in multiset(results);
    }
    forall i, j | 0 <= i < j < |results2| ensures results2[i].coordinate != results2[j].coordinate {
      if results2[i] == results2[j] {
        TwiceInMultiset(results2, i, j);
        OnceInMultiset(results, results2[i]);
      }
      var k :| 0 <= k < |results| && results[k] == results2[i];
      var l :| 0 <= l < |results| && results[l] == results2[j];
    }
  }

  /** Whether results are acceptable, and every sum over them, does not depend on their order. */
  lemma AcceptableIsOrderFree(results: seq<AgentResult>, results2: seq<AgentResult>)
    requires multiset(results) == multiset(results2) && Acceptable(results)
    ensures Acceptable(results2)
    ensures forall k, s :: Sum(results2, ShareIn(k, s)) == Sum(results, ShareIn(k, s))
    ensures forall k :: InGroup(results, k) <==> InGroup(results2, k)
  {
    hide Sum, ShareIn, ResultProblem, InGroup;
    forall k, s ensures Sum(results2, ShareIn(k, s)) == Sum(results, ShareIn(k, s)) {
      SumPermuted(results, results2, ShareIn(k, s));
    }
    ValidIsOrderFree(results, results2);
    forall k ensures InGroup(results, k) <==> InGroup(results2, k) {
      SameGroups(results, results2, k);
      SameGroups(results2, results, k);
    }
  }

  lemma SameGroups(results: seq<AgentResult>, results2: seq<AgentResult>, k: GroupKey)
    requires multiset(results) == multiset(results2)
    ensures InGroup(results, k) ==> InGroup(results2, k)
  {
    if i :| 0 <= i < |results| && results[i].coordinate.key == k {
      assert results[i] in multiset(results2);
      var j :| 0 <= j < |results2| && results2[j] == results[i];
    }
  }

  lemma SameReports(results: seq<AgentResult>, results2: seq<AgentResult>, k: GroupKey)
    requires multiset(results) == multiset(results2)
    ensures ReportsCached(results, k) ==> ReportsCached(results2, k)
  {
    if i :| 0 <= i < |results| && results[i].coordinate.key == k && results[i].cachedTokens.Some? {
      assert results[i] in multiset(results2);
      var j :| 0 <= j < |results2| && results2[j] == results[i];
    }
  }

  /** Counters are their statistics, the reward sum and whether cached tokens were reported. */
  lemma SameCounters(c: Counters, d: Counters)
    requires forall s :: Value(c, s) == Value(d, s)
    requires c.rewardSum == d.rewardSum && (c.cachedTokens.Some? <==> d.cachedTokens.Some?)
    ensures c == d
  {
    assert Value(c, TotalCells) == Value(d, TotalCells) && Value(c, ExecutedCells) == Value(d, ExecutedCells);
    assert Value(c, CellsOf(Passed)) == Value(d, CellsOf(Passed));
    assert Value(c, CellsOf(Failed)) == Value(d, CellsOf(Failed));
    assert Value(c, CellsOf(AgentFailure)) == Value(d, CellsOf(AgentFailure));
    assert Value(c, CellsOf(InfrastructureFailure)) == Value(d, CellsOf(InfrastructureFailure));
    assert Value(c, CellsOf(NotRun)) == Value(d, CellsOf(NotRun));
    assert Value(c, CellsOf(NotApplicable)) == Value(d, CellsOf(NotApplicable));
    assert Value(c, Duration) == Value(d, Duration) && Value(c, CachedTokens) == Value(d, CachedTokens);
    assert Value(c, InputTokens) == Value(d, InputTokens) && Value(c, OutputTokens) == Value(d, OutputTokens);
  }

  lemma GroupIsOrderFree(results: seq<AgentResult>, c: Counters, results2: seq<AgentResult>, d: Counters, k: GroupKey)
    requires multiset(results) == multiset(results2)
    requires Tallies(results, k, c) && Tallies(results2, k, d)
    ensures c == d
  {
    hide Sum, ShareIn, RealSum, Value, ReportsCached;
    forall s ensures Value(c, s) == Value(d, s) {
      SumPermuted(results, results2, ShareIn(k, s));
    }
    RealSumPermuted(results, results2, RewardIn(k));
    SameReports(results, results2, k);
    SameReports(results2, results, k);
    SameCounters(c, d);
  }

  /** Groups tallied from the same results, whatever their order, are the same groups. */
  lemma GroupsAreOrderFree(results: seq<AgentResult>, groups: Groups, results2: seq<AgentResult>, groups2: Groups)
    requires multiset(results) == multiset(results2)
    requires AllTally(results, groups) && AllTally(results2, groups2)
    ensures groups == groups2
  {
    hide Tallies, InGroup;
    forall k ensures InGroup(results, k) <==> InGroup(results2, k) {
      SameGroups(results, results2, k);
      SameGroups(results2, results, k);
    }
    forall k | k in groups ensures k in groups2 && groups[k] == groups2[k] {
      GroupIsOrderFree(results, groups[k], results2, groups2[k], k);
    }
    forall k | k in groups2 ensures k in groups {
    }
  }
}
