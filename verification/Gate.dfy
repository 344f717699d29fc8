/**
  The paired evidence gate. Baseline and candidate results are indexed by pair key,
  compared pair by pair, and summarised by order statistics in integer basis points.

  The source walks its index in key order. The model takes any enumeration of the keys,
  so what is proved holds for that order and every other.
 */
module Gate {
  import opened Common
  import opened Bench
  import opened Corpus
  import opened OrderStats
  import opened Sums

  datatype PairKey = PairKey(
    suite: string,
    suiteRevision: string,
    scenarioId: string,
    family: Family,
    topology: Topology,
    workspace: WorkspaceProfile,
    failurePoint: FailurePoint,
    runOrdinal: U32)

  function KeyOf(c: Coordinate): PairKey {
    PairKey(c.suite, c.suiteRevision, c.scenarioId, c.family, c.topology, c.workspace, c.failurePoint, c.runOrdinal)
  }

  /** Two coordinates have one key exactly when they agree on everything but profile and models. */
  lemma SameKeyIff(c: Coordinate, d: Coordinate)
    ensures KeyOf(c) == KeyOf(d) <==>
            && c.suite == d.suite && c.suiteRevision == d.suiteRevision && c.scenarioId == d.scenarioId
            && c.family == d.family && c.topology == d.topology && c.workspace == d.workspace
            && c.failurePoint == d.failurePoint && c.runOrdinal == d.runOrdinal
  {
  }

  /** The keys of a group of results. */
  function KeysOf(results: seq<BenchResult>): set<PairKey> {
    set i | 0 <= i < |results| :: KeyOf(results[i].coordinate)
  }

  datatype GateError =
    | InvalidPolicy | InvalidCandidate | InvalidGateResult(error: BenchError) | ProfileMismatch | UnpairedEvidence
    | DuplicatePair | PrimaryModelMismatch | MissingReward | RewardOutOfRange | UnsafeBaseline | ZeroBaselineMetric
    | MetricOverflow | TooManyPairs | IneligibleReport | CorpusInvalid

  datatype Policy = Policy(
    minimumPairs: U32,
    minimumRewardGainMicros: int,
    minimumQualityWinBasisPoints: nat,
    maximumTokenIncreaseBasisPoints: nat,
    maximumP95LatencyIncreaseBasisPoints: nat)

  predicate PolicyOk(p: Policy) {
    p.minimumPairs != 0 && p.minimumQualityWinBasisPoints <= 10000
  }

  // ---------------------------------------------------------------------------
  // Indexing
  // ---------------------------------------------------------------------------

  type Index = map<PairKey, BenchResult>

  /** `indexed_results`. */
  function Indexed(results: seq<BenchResult>, expected: Profile): Result<Index, GateError> {
    if results == [] then Ok(map[])
    else
      var before, last := Indexed(results[..|results| - 1], expected), results[|results| - 1];
      if before.Err? then before
      else if ResultError(last).Some? then Err(InvalidGateResult(ResultError(last).value))
      else if last.coordinate.cognition != expected then Err(ProfileMismatch)
      else if KeyOf(last.coordinate) in before.value then Err(DuplicatePair)
      else Ok(before.value[KeyOf(last.coordinate) := last])
  }

  lemma {:induction false} IndexStaysFailed(results: seq<BenchResult>, expected: Profile, n: nat)
    requires n <= |results| && Indexed(results[..n], expected).Err?
    ensures Indexed(results, expected) == Indexed(results[..n], expected)
    decreases |results|
  {
    hide ResultError, KeyOf;
    if n < |results| {
      assert results[..|results| - 1][..n] == results[..n];
      IndexStaysFailed(results[..|results| - 1], expected, n);
    } else {
      assert results[..n] == results;
    }
  }

  method IndexResults(results: seq<BenchResult>, expected: Profile) returns (r: Result<Index, GateError>)
    ensures r == Indexed(results, expected)
  {
    hide ResultError, KeyOf;
    var indexed: Index := map[];
    for i := 0 to |results|
      invariant Indexed(results[..i], expected) == Ok(indexed)
    {
      var next := results[..i + 1];
      assert next[..|next| - 1] == results[..i] && next[|next| - 1] == results[i];
      var error := ResultError(results[i]);
      if error.Some? {
        IndexStaysFailed(results, expected, i + 1);
        return Err(InvalidGateResult(error.value));
      }
      if results[i].coordinate.cognition != expected {
        IndexStaysFailed(results, expected, i + 1);
        return Err(ProfileMismatch);
      }
      var key := KeyOf(results[i].coordinate);
      if key in indexed {
        IndexStaysFailed(results, expected, i + 1);
        return Err(DuplicatePair);
      }
      indexed := indexed[key := results[i]];
    }
    assert results[..|results|] == results;
    r := Ok(indexed);
  }

  /** Results that index: all valid, all of the expected profile, no two with one key. */
  ghost predicate Indexable(results: seq<BenchResult>, expected: Profile) {
    && (forall i :: 0 <= i < |results| ==> ResultError(results[i]).None? && results[i].coordinate.cognition == expected)
    && (forall i, j :: 0 <= i < j < |results| ==> KeyOf(results[i].coordinate) != KeyOf(results[j].coordinate))
  }

  /** An index holds exactly the results, each under its own key. */
  ghost predicate IndexOf(results: seq<BenchResult>, index: Index) {
    && (forall i :: 0 <= i < |results| ==>
          KeyOf(results[i].coordinate) in index && index[KeyOf(results[i].coordinate)] == results[i])
    && (forall k :: k in index ==> k == KeyOf(index[k].coordinate) && index[k] in results)
  }

  lemma IndexableSnoc(init: seq<BenchResult>, last: BenchResult, expected: Profile, index: Index)
    requires Indexable(init, expected) && IndexOf(init, index)
    ensures Indexable(init + [last], expected) <==>
            (&& ResultError(last).None? && last.coordinate.cognition == expected
             && KeyOf(last.coordinate) !in index)
    ensures KeyOf(last.coordinate) !in index ==> IndexOf(init + [last], index[KeyOf(last.coordinate) := last])
  {
    hide ResultError, KeyOf;
    var all := init + [last];
    assert all[|init|] == last && forall i :: 0 <= i < |init| ==> all[i] == init[i];
    if KeyOf(last.coordinate) in index {
      var r := index[KeyOf(last.coordinate)];
      var i :| 0 <= i < |init| && init[i] == r;
      assert KeyOf(all[i].coordinate) == KeyOf(all[|init|].coordinate);
    }
  }

  lemma IndexableInit(init: seq<BenchResult>, last: BenchResult, expected: Profile)
    requires Indexable(init + [last], expected)
    ensures Indexable(init, expected)
  {
    hide ResultError, KeyOf;
    var all := init + [last];
    assert forall i :: 0 <= i < |init| ==> all[i] == init[i];
  }

  lemma NothingIndexed(expected: Profile)
    ensures Indexable([], expected) && IndexOf([], map[])
  {
  }

  lemma {:induction false} IndexedIff(results: seq<BenchResult>, expected: Profile)
    ensures Indexed(results, expected).Ok? <==> Indexable(results, expected)
    ensures Indexed(results, expected).Ok? ==> IndexOf(results, Indexed(results, expected).value)
  {
    hide ResultError, KeyOf, Indexable, IndexOf;
    if results == [] {
      NothingIndexed(expected);
    } else {
      var init, last := results[..|results| - 1], results[|results| - 1];
      assert results == init + [last];
      IndexedIff(init, expected);
      if Indexable(results, expected) {
        IndexableInit(init, last, expected);
      }
      if Indexed(init, expected).Ok? {
        IndexableSnoc(init, last, expected, Indexed(init, expected).value);
      }
    }
  }

  // ---------------------------------------------------------------------------
  // One pair
  // ---------------------------------------------------------------------------

  function FindPrimary(models: seq<Binding>): Option<string> {
    if models == [] then None
    else if models[0].role == Primary then Some(models[0].model)
    else FindPrimary(models[1..])
  }

  /** `reward_micros`, rounding half up, over the reals. */
  function RewardMicros(reward: Option<Reward>): (r: Result<int, GateError>)
    ensures r.Ok? <==> reward.Some? && reward.value.Finite? && 0.0 <= reward.value.value <= 1.0
    ensures r.Ok? ==> 0 <= r.value <= 1000000
    ensures r.Ok? ==> -0.5 <= r.value as real - reward.value.value * 1000000.0 <= 0.5
  {
    if reward.None? then Err(MissingReward)
    else if reward.value.NonFinite? || !(0.0 <= reward.value.value <= 1.0) then Err(RewardOutOfRange)
    else Ok((reward.value.value * 1000000.0 + 0.5).Floor)
  }

  /** Integer division that truncates toward zero. */
  function TruncDiv(a: int, b: nat): int
    requires 0 < b
  {
    if a >= 0 then a / b else -((-a) / b)
  }

  /** `relative_delta_basis_points`; 64-bit operands cannot saturate its 128-bit products. */
  function RelativeDelta(baseline: U64, candidate: U64): Result<int, GateError> {
    if baseline == 0 then Err(ZeroBaselineMetric)
    else
      var v := TruncDiv((candidate - baseline) * 10000, baseline);
      if -0x8000_0000 <= v <= 0x7FFF_FFFF then Ok(v) else Err(MetricOverflow)
  }

  /** A delta truncated toward zero is within a limit, as a statement about the two measurements. */
  predicate WithinIncrease(baseline: nat, candidate: nat, limit: int) {
    if limit >= 0 then 10000 * (candidate - baseline) < (limit + 1) * baseline
    else 10000 * (candidate - baseline) <= limit * baseline
  }

  lemma QuotientWithin(a: nat, b: nat, l: nat)
    requires 0 < b
    ensures a / b <= l <==> a < (l + 1) * b
  {
    var q, r := a / b, a % b;
    assert a == q * b + r;
    if q <= l {
      assert q * b <= l * b;
      assert (l + 1) * b == l * b + b;
    } else {
      assert (l + 1) * b <= q * b;
    }
  }

  lemma TruncWithin(a: int, b: nat, l: int)
    requires 0 < b
    ensures TruncDiv(a, b) <= l <==> if l >= 0 then a < (l + 1) * b else a <= l * b
  {
    if l >= 0 {
      TruncWithinUp(a, b, l);
    } else {
      TruncWithinDown(a, b, -l);
    }
  }

  lemma TruncWithinUp(a: int, b: nat, l: nat)
    requires 0 < b
    ensures TruncDiv(a, b) <= l <==> a < (l + 1) * b
  {
    if a >= 0 {
      QuotientWithin(a, b, l);
    } else {
      Product(l + 1, b);
    }
  }

  lemma TruncWithinDown(a: int, b: nat, m: nat)
    requires 0 < b && 0 < m
    ensures TruncDiv(a, b) <= -(m as int) <==> a <= -(m as int) * b
  {
    assert -(m as int) * b == -(m * b);
    Product(m, b);
    if a >= 0 {
      QuotientNonNegative(a, b);
    } else {
      QuotientWithin(-a, b, m - 1);
    }
  }

  lemma QuotientNonNegative(a: nat, b: nat)
    requires 0 < b
    ensures a / b >= 0
  {
  }

  lemma DeltaWithin(baseline: U64, candidate: U64, limit: int)
    requires RelativeDelta(baseline, candidate).Ok?
    ensures RelativeDelta(baseline, candidate).value <= limit <==> WithinIncrease(baseline, candidate, limit)
  {
    hide TruncDiv;
    TruncWithin((candidate - baseline) * 10000, baseline, limit);
  }

  lemma TruncAtLeast(a: int, b: nat, l: nat)
    requires 0 < b && -a < (l + 1) * b
    ensures TruncDiv(a, b) + l >= 0
  {
    if a < 0 {
      QuotientWithin(-a, b, l);
    } else {
      QuotientNonNegative(a, b);
    }
  }

  /** A delta fits 32 bits exactly when the increase is under 2^31 basis points; a decrease always does. */
  lemma DeltaFitsIff(baseline: U64, candidate: U64)
    ensures RelativeDelta(baseline, candidate).Ok? <==>
            0 < baseline && WithinIncrease(baseline, candidate, 0x7FFF_FFFF)
  {
    hide TruncDiv;
    if 0 < baseline {
      TruncWithin((candidate - baseline) * 10000, baseline, 0x7FFF_FFFF);
      TruncAtLeast((candidate - baseline) * 10000, baseline, 10000);
    }
  }

  datatype Sample = Sample(gain: int, token: int, latency: int, unsafeCandidate: bool)

  function Tokens(r: BenchResult): U64 {
    SatAdd(r.inputTokens, r.outputTokens)
  }

  lemma TokensMean(r: BenchResult)
    ensures r.inputTokens + r.outputTokens <= U64_MAX ==> Tokens(r) == r.inputTokens + r.outputTokens
    ensures r.inputTokens + r.outputTokens > U64_MAX ==> Tokens(r) == U64_MAX
  {
  }

  lemma ConsRoles(first: Binding, rest: seq<Binding>)
    ensures Binds([first] + rest, Primary) <==> first.role == Primary || Binds(rest, Primary)
    ensures RolesDiffer([first] + rest) ==> RolesDiffer(rest) && (first.role == Primary ==> !Binds(rest, Primary))
  {
    var all := [first] + rest;
    assert all[0] == first && forall i :: 0 <= i < |rest| ==> all[i + 1] == rest[i];
    if i :| 0 <= i < |rest| && rest[i].role == Primary {
      assert all[i + 1].role == Primary;
    }
    if RolesDiffer(all) {
      forall i, j | 0 <= i < j < |rest| ensures rest[i].role != rest[j].role {
        assert all[i + 1].role != all[j + 1].role;
      }
    }
  }

  lemma BoundIsBinding(models: seq<Binding>, model: string)
    ensures Binding(Primary, model) in models ==> Binds(models, Primary)
  {
  }

  /** The primary model of distinct roles is the model bound to the primary role, wherever it stands in the list. */
  lemma {:induction false} PrimaryIs(models: seq<Binding>, model: string)
    requires RolesDiffer(models)
    ensures FindPrimary(models) == Some(model) <==> Binding(Primary, model) in models
    ensures FindPrimary(models) == None <==> !Binds(models, Primary)
  {
    if models != [] {
      hide RolesDiffer, Binds;
      var first, rest := models[0], models[1..];
      assert models == [first] + rest;
      ConsRoles(first, rest);
      PrimaryIs(rest, model);
      BoundIsBinding(rest, model);
    }
  }

  /** The body of the comparison loop for one pair, with its errors in order. */
  function PairSample(b: BenchResult, c: BenchResult): Result<Sample, GateError> {
    if FindPrimary(b.coordinate.models) != FindPrimary(c.coordinate.models) then Err(PrimaryModelMismatch)
    else if RewardMicros(b.verifierReward).Err? then Err(RewardMicros(b.verifierReward).error)
    else if RewardMicros(c.verifierReward).Err? then Err(RewardMicros(c.verifierReward).error)
    else if RelativeDelta(Tokens(b), Tokens(c)).Err? then Err(RelativeDelta(Tokens(b), Tokens(c)).error)
    else if RelativeDelta(b.durationMillis, c.durationMillis).Err? then
      Err(RelativeDelta(b.durationMillis, c.durationMillis).error)
    else if !RuntimeSafe(b) then Err(UnsafeBaseline)
    else Ok(Sample(RewardMicros(c.verifierReward).value - RewardMicros(b.verifierReward).value,
                   RelativeDelta(Tokens(b), Tokens(c)).value,
                   RelativeDelta(b.durationMillis, c.durationMillis).value,
                   !RuntimeSafe(c)))
  }

  /** The sample of one key, with a default where there is none. */
  function SampleAt(b: Index, c: Index, k: PairKey): Sample {
    if k in b && k in c && PairSample(b[k], c[k]).Ok? then PairSample(b[k], c[k]).value
    else Sample(0, 0, 0, false)
  }

  /** The first error along the keys, if there is one. */
  function FirstError(b: Index, c: Index, order: seq<PairKey>): Option<GateError> {
    if order == [] then None
    else
      var init, k := order[..|order| - 1], order[|order| - 1];
      if FirstError(b, c, init).Some? then FirstError(b, c, init)
      else if k !in b || k !in c then Some(UnpairedEvidence)
      else match PairSample(b[k], c[k])
        case Err(e) => Some(e)
        case Ok(_) => None
  }

  lemma {:induction false} NoErrorIff(b: Index, c: Index, order: seq<PairKey>)
    ensures FirstError(b, c, order).None? <==>
            forall k :: k in order ==> k in b && k in c && PairSample(b[k], c[k]).Ok?
  {
    hide PairSample;
    if order != [] {
      var init := order[..|order| - 1];
      assert order == init + [order[|order| - 1]];
      NoErrorIff(b, c, init);
    }
  }

  // ---------------------------------------------------------------------------
  // The report
  // ---------------------------------------------------------------------------

  datatype Report = Report(
    candidate: Profile,
    eligible: bool,
    pairs: nat,
    unsafeCandidates: nat,
    medianRewardGainMicros: int,
    qualityWinBasisPoints: nat,
    medianTokenIncreaseBasisPoints: int,
    p95LatencyIncreaseBasisPoints: int)

  /** `basis_points` of the gate. */
  function BasisPoints(numerator: nat, denominator: nat): nat
    requires 0 < denominator
  {
    Min(SatMul(numerator, 10000) / denominator, 65535)
  }

  function GainOf(b: Index, c: Index): PairKey -> int {
    k => SampleAt(b, c, k).gain
  }

  function TokenOf(b: Index, c: Index): PairKey -> int {
    k => SampleAt(b, c, k).token
  }

  function LatencyOf(b: Index, c: Index): PairKey -> int {
    k => SampleAt(b, c, k).latency
  }

  function UnsafeOf(b: Index, c: Index): PairKey -> int {
    k => if SampleAt(b, c, k).unsafeCandidate then 1 else 0
  }

  function ReportOf(profile: Profile, policy: Policy, gains: seq<int>, tokens: seq<int>, latencies: seq<int>,
                    wins: nat, unsafeCandidates: nat): Report
    requires gains != [] && tokens != [] && latencies != []
  {
    var pairs := |gains|;
    var medianGain, medianToken := LowerMedian(gains), LowerMedian(tokens);
    var p95, quality := Percentile95(latencies), BasisPoints(wins, pairs);
    Report(profile,
           && pairs >= policy.minimumPairs
           && unsafeCandidates == 0
           && medianGain >= policy.minimumRewardGainMicros
           && quality >= policy.minimumQualityWinBasisPoints
           && medianToken <= policy.maximumTokenIncreaseBasisPoints
           && p95 <= policy.maximumP95LatencyIncreaseBasisPoints,
           pairs, unsafeCandidates, medianGain, quality, medianToken, p95)
  }

  /** Number of positive values: what the loop counts as wins, and as unsafe candidates. */
  function CountPositive(s: seq<int>): nat {
    |s| - CountAtMost(s, 0)
  }

  /** The comparison of two indexes along an enumeration of their keys. */
  function Compared(b: Index, c: Index, profile: Profile, policy: Policy, order: seq<PairKey>)
    : Result<Report, GateError>
    requires order != []
  {
    if FirstError(b, c, order).Some? then Err(FirstError(b, c, order).value)
    else if |order| > U32_MAX then Err(TooManyPairs)
    else
      var gains := Values(order, GainOf(b, c));
      Ok(ReportOf(profile, policy, gains, Values(order, TokenOf(b, c)), Values(order, LatencyOf(b, c)),
                  CountPositive(gains), CountPositive(Values(order, UnsafeOf(b, c)))))
  }

  /** `evaluate_cognition_activation`, walking the keys of the baseline in some order. */
  function Evaluated(baseline: seq<BenchResult>, candidate: seq<BenchResult>, profile: Profile, policy: Policy,
                     order: seq<PairKey>): Result<Report, GateError>
    requires Enumerates(order, KeysOf(baseline))
  {
    if !PolicyOk(policy) then Err(InvalidPolicy)
    else if profile == PrimaryOnly || baseline == [] || candidate == [] then Err(InvalidCandidate)
    else
      var b, c := Indexed(baseline, PrimaryOnly), Indexed(candidate, profile);
      if b.Err? then Err(b.error)
      else if c.Err? then Err(c.error)
      else if b.value.Keys != c.value.Keys then Err(UnpairedEvidence)
      else
        assert KeyOf(baseline[0].coordinate) in order;
        Compared(b.value, c.value, profile, policy, order)
  }

  // ---------------------------------------------------------------------------
  // The loop
  // ---------------------------------------------------------------------------

  lemma {:induction false} FirstErrorStays(b: Index, c: Index, order: seq<PairKey>, n: nat)
    requires n <= |order| && FirstError(b, c, order[..n]).Some?
    ensures FirstError(b, c, order) == FirstError(b, c, order[..n])
    decreases |order|
  {
    hide PairSample;
    if n < |order| {
      assert order[..|order| - 1][..n] == order[..n];
      FirstErrorStays(b, c, order[..|order| - 1], n);
    } else {
      assert order[..n] == order;
    }
  }

  lemma ValuesSnoc(order: seq<PairKey>, f: PairKey -> int, i: nat)
    requires i < |order|
    ensures Values(order[..i + 1], f) == Values(order[..i], f) + [f(order[i])]
    ensures forall l :: CountAtMost(Values(order[..i + 1], f), l) ==
              CountAtMost(Values(order[..i], f), l) + (if f(order[i]) <= l then 1 else 0)
  {
    var before := Values(order[..i], f);
    assert Values(order[..i + 1], f) == before + [f(order[i])];
    forall l
      ensures CountAtMost(before + [f(order[i])], l) == CountAtMost(before, l) + (if f(order[i]) <= l then 1 else 0)
    {
      CountSnoc(before, f(order[i]), l);
    }
  }

  lemma FirstErrorStep(b: Index, c: Index, order: seq<PairKey>, i: nat)
    requires i < |order| && FirstError(b, c, order[..i]).None?
    ensures FirstError(b, c, order[..i + 1]) ==
            if order[i] !in b || order[i] !in c then Some(UnpairedEvidence)
            else if PairSample(b[order[i]], c[order[i]]).Err? then Some(PairSample(b[order[i]], c[order[i]]).error)
            else None
  {
    hide PairSample;
    var next := order[..i + 1];
    assert next[..|next| - 1] == order[..i] && next[|next| - 1] == order[i];
  }

  method Compare(b: Index, c: Index, profile: Profile, policy: Policy, order: seq<PairKey>)
    returns (r: Result<Report, GateError>)
    requires order != []
    ensures r == Compared(b, c, profile, policy, order)
  {
    hide PairSample, CountAtMost, Values, ReportOf, FirstError;
    var gains: seq<int>, tokens: seq<int>, latencies: seq<int> := [], [], [];
    var wins: nat, unsafeCandidates: nat := 0, 0;
    StartOfLoop(b, c, order);
    for i := 0 to |order|
      invariant gains == Values(order[..i], GainOf(b, c))
      invariant tokens == Values(order[..i], TokenOf(b, c))
      invariant latencies == Values(order[..i], LatencyOf(b, c))
      invariant wins == CountPositive(gains)
      invariant unsafeCandidates == CountPositive(Values(order[..i], UnsafeOf(b, c)))
      invariant FirstError(b, c, order[..i]).None?
    {
      var key := order[i];
      FirstErrorStep(b, c, order, i);
      if key !in b || key !in c {
        FirstErrorStays(b, c, order, i + 1);
        return Err(UnpairedEvidence);
      }
      var sample := PairSample(b[key], c[key]);
      if sample.Err? {
        FirstErrorStays(b, c, order, i + 1);
        return Err(sample.error);
      }
      ValuesSnoc(order, GainOf(b, c), i);
      ValuesSnoc(order, TokenOf(b, c), i);
      ValuesSnoc(order, LatencyOf(b, c), i);
      ValuesSnoc(order, UnsafeOf(b, c), i);
      gains := gains + [sample.value.gain];
      if sample.value.gain > 0 {
        wins := wins + 1;
      }
      tokens := tokens + [sample.value.token];
      latencies := latencies + [sample.value.latency];
      if sample.value.unsafeCandidate {
        unsafeCandidates := unsafeCandidates + 1;
      }
    }
    assert order[..|order|] == order;
    if |order| > U32_MAX {
      return Err(TooManyPairs);
    }
    r := Ok(ReportOf(profile, policy, gains, tokens, latencies, wins, unsafeCandidates));
  }

  lemma StartOfLoop(b: Index, c: Index, order: seq<PairKey>)
    ensures FirstError(b, c, order[..0]).None?
    ensures Values(order[..0], GainOf(b, c)) == Values(order[..0], TokenOf(b, c)) == []
    ensures Values(order[..0], LatencyOf(b, c)) == Values(order[..0], UnsafeOf(b, c)) == []
    ensures CountPositive([]) == 0
  {
  }

  method Evaluate(baseline: seq<BenchResult>, candidate: seq<BenchResult>, profile: Profile, policy: Policy,
                  order: seq<PairKey>) returns (r: Result<Report, GateError>)
    requires Enumerates(order, KeysOf(baseline))
    ensures r == Evaluated(baseline, candidate, profile, policy, order)
  {
    hide Compared, Indexed, KeyOf;
    if !PolicyOk(policy) {
      return Err(InvalidPolicy);
    }
    if profile == PrimaryOnly || baseline == [] || candidate == [] {
      return Err(InvalidCandidate);
    }
    var b := IndexResults(baseline, PrimaryOnly);
    if b.Err? {
      return Err(b.error);
    }
    var c := IndexResults(candidate, profile);
    if c.Err? {
      return Err(c.error);
    }
    if b.value.Keys != c.value.Keys {
      return Err(UnpairedEvidence);
    }
    assert KeyOf(baseline[0].coordinate) in order;
    r := Compare(b.value, c.value, profile, policy, order);
  }

  // ---------------------------------------------------------------------------
  // What eligibility means
  // ---------------------------------------------------------------------------

  /** The pairs both indexes can be compared on. */
  ghost predicate Comparable(b: Index, c: Index) {
    b.Keys == c.Keys && forall k :: k in b ==> PairSample(b[k], c[k]).Ok?
  }

  ghost function Gain(b: Index, c: Index, k: PairKey): int
    requires Comparable(b, c) && k in b
  {
    RewardMicros(c[k].verifierReward).value - RewardMicros(b[k].verifierReward).value
  }

  lemma SampleMeans(b: Index, c: Index, k: PairKey, limit: int)
    requires Comparable(b, c) && k in b
    ensures GainOf(b, c)(k) == Gain(b, c, k)
    ensures UnsafeOf(b, c)(k) <= 0 <==> RuntimeSafe(c[k])
    ensures TokenOf(b, c)(k) <= limit <==> WithinIncrease(Tokens(b[k]), Tokens(c[k]), limit)
    ensures LatencyOf(b, c)(k) <= limit <==> WithinIncrease(b[k].durationMillis, c[k].durationMillis, limit)
  {
    hide RuntimeSafe, WithinIncrease, RelativeDelta, RewardMicros, Tokens, FindPrimary;
    DeltaWithin(Tokens(b[k]), Tokens(c[k]), limit);
    DeltaWithin(b[k].durationMillis, c[k].durationMillis, limit);
  }

  /** The pairs whose reward gain reaches a minimum. */
  ghost function Gaining(b: Index, c: Index, minimum: int): set<PairKey>
    requires Comparable(b, c)
  {
    set k | k in b && Gain(b, c, k) >= minimum
  }

  /** The pairs whose token use stays within a limit. */
  ghost function TokensWithin(b: Index, c: Index, limit: int): set<PairKey>
    requires b.Keys == c.Keys
  {
    set k | k in b && WithinIncrease(Tokens(b[k]), Tokens(c[k]), limit)
  }

  /** The pairs whose duration stays within a limit. */
  ghost function LatencyWithin(b: Index, c: Index, limit: int): set<PairKey>
    requires b.Keys == c.Keys
  {
    set k | k in b && WithinIncrease(b[k].durationMillis, c[k].durationMillis, limit)
  }

  /** The gate as a statement about sets of pairs. */
  ghost predicate Passes(b: Index, c: Index, policy: Policy)
    requires Comparable(b, c)
  {
    var n := |b.Keys|;
    && n >= policy.minimumPairs
    && (forall k :: k in b ==> RuntimeSafe(c[k]))
    && |Gaining(b, c, policy.minimumRewardGainMicros)| >= n / 2 + 1
    && 10000 * |Gaining(b, c, 1)| >= policy.minimumQualityWinBasisPoints * n
    && |TokensWithin(b, c, policy.maximumTokenIncreaseBasisPoints)| >= (n + 1) / 2
    && 100 * |LatencyWithin(b, c, policy.maximumP95LatencyIncreaseBasisPoints)| >= 95 * n
  }

  lemma MedianGainReaches(b: Index, c: Index, order: seq<PairKey>, minimum: int)
    requires Comparable(b, c) && order != [] && Enumerates(order, b.Keys)
    ensures LowerMedian(Values(order, GainOf(b, c))) >= minimum <==> |Gaining(b, c, minimum)| >= |b.Keys| / 2 + 1
    ensures |order| == |b.Keys|
  {
    hide Enumerates, PairSample, CountAtMost, Values, LowerMedian;
    forall k | k in b ensures GainOf(b, c)(k) == Gain(b, c, k) {
      SampleMeans(b, c, k, 0);
    }
    EnumerationLength(order, b.Keys);
    CountAbove(order, b.Keys, GainOf(b, c), minimum - 1, Gaining(b, c, minimum));
    MedianReaches(Values(order, GainOf(b, c)), minimum);
  }

  lemma WinsAreGaining(b: Index, c: Index, order: seq<PairKey>)
    requires Comparable(b, c) && Enumerates(order, b.Keys)
    ensures CountPositive(Values(order, GainOf(b, c))) == |Gaining(b, c, 1)|
  {
    hide Enumerates, PairSample, CountAtMost, Values;
    forall k | k in b ensures GainOf(b, c)(k) == Gain(b, c, k) {
      SampleMeans(b, c, k, 0);
    }
    CountAbove(order, b.Keys, GainOf(b, c), 0, Gaining(b, c, 1));
  }

  /** The pairs whose candidate is not safe. */
  ghost function Unsafe(b: Index, c: Index): set<PairKey>
    requires b.Keys == c.Keys
  {
    set k | k in b && !RuntimeSafe(c[k])
  }

  lemma UnsafeCount(b: Index, c: Index, order: seq<PairKey>)
    requires Comparable(b, c) && Enumerates(order, b.Keys)
    ensures CountPositive(Values(order, UnsafeOf(b, c))) == |Unsafe(b, c)|
    ensures |Unsafe(b, c)| == 0 <==> forall k :: k in b ==> RuntimeSafe(c[k])
  {
    hide Enumerates, PairSample, CountAtMost, Values, RuntimeSafe;
    forall k | k in b ensures UnsafeOf(b, c)(k) <= 0 <==> RuntimeSafe(c[k]) {
      SampleMeans(b, c, k, 0);
    }
    CountAbove(order, b.Keys, UnsafeOf(b, c), 0, Unsafe(b, c));
    if k :| k in b && !RuntimeSafe(c[k]) {
      assert k in Unsafe(b, c);
    }
  }

  lemma MedianTokensWithin(b: Index, c: Index, order: seq<PairKey>, limit: int)
    requires Comparable(b, c) && order != [] && Enumerates(order, b.Keys)
    ensures LowerMedian(Values(order, TokenOf(b, c))) <= limit <==> |TokensWithin(b, c, limit)| >= (|b.Keys| + 1) / 2
  {
    hide Enumerates, PairSample, CountAtMost, Values, LowerMedian, WithinIncrease;
    forall k | k in b ensures TokenOf(b, c)(k) <= limit <==> WithinIncrease(Tokens(b[k]), Tokens(c[k]), limit) {
      SampleMeans(b, c, k, limit);
    }
    EnumerationLength(order, b.Keys);
    CountWithin(order, b.Keys, TokenOf(b, c), limit, TokensWithin(b, c, limit));
    MedianWithin(Values(order, TokenOf(b, c)), limit);
  }

  lemma P95LatencyWithin(b: Index, c: Index, order: seq<PairKey>, limit: int)
    requires Comparable(b, c) && 0 < |order| <= U32_MAX && Enumerates(order, b.Keys)
    ensures Percentile95(Values(order, LatencyOf(b, c))) <= limit <==>
            100 * |LatencyWithin(b, c, limit)| >= 95 * |b.Keys|
  {
    hide Enumerates, PairSample, CountAtMost, Values, Percentile95, WithinIncrease;
    forall k | k in b
      ensures LatencyOf(b, c)(k) <= limit <==> WithinIncrease(b[k].durationMillis, c[k].durationMillis, limit)
    {
      SampleMeans(b, c, k, limit);
    }
    EnumerationLength(order, b.Keys);
    CountWithin(order, b.Keys, LatencyOf(b, c), limit, LatencyWithin(b, c, limit));
    Percentile95Within(Values(order, LatencyOf(b, c)), limit);
  }

  lemma BasisPointsReach(wins: nat, n: nat, minimum: nat)
    requires wins <= n && 0 < n <= U32_MAX
    ensures BasisPoints(wins, n) >= minimum <==> 10000 * wins >= minimum * n
  {
    QuotientWithin(wins * 10000, n, 10000);
    if minimum > 0 {
      QuotientWithin(wins * 10000, n, minimum - 1);
    }
  }

  lemma ComparedPassesIff(b: Index, c: Index, profile: Profile, policy: Policy, order: seq<PairKey>)
    requires Comparable(b, c) && 0 < |order| <= U32_MAX && Enumerates(order, b.Keys)
    ensures Compared(b, c, profile, policy, order).Ok?
    ensures var report := Compared(b, c, profile, policy, order).value;
            report.pairs == |b.Keys| && (report.eligible <==> Passes(b, c, policy))
  {
    hide Enumerates, PairSample, CountAtMost, Values, Percentile95, LowerMedian, BasisPoints,
         Gaining, TokensWithin, LatencyWithin, RuntimeSafe, FirstError, Unsafe;
    ComparableMeansNoError(b, c, order);
    MedianGainReaches(b, c, order, policy.minimumRewardGainMicros);
    WinsAreGaining(b, c, order);
    UnsafeCount(b, c, order);
    MedianTokensWithin(b, c, order, policy.maximumTokenIncreaseBasisPoints);
    P95LatencyWithin(b, c, order, policy.maximumP95LatencyIncreaseBasisPoints);
    BasisPointsReach(CountPositive(Values(order, GainOf(b, c))), |order|, policy.minimumQualityWinBasisPoints);
  }

  /**
    Every figure of a report, through what it is compared with: each statement pins the
    figure, since it holds for every limit.
   */
  ghost predicate Describes(report: Report, b: Index, c: Index, profile: Profile)
    requires Comparable(b, c)
  {
    var n := |b.Keys|;
    && report.candidate == profile && report.pairs == n && report.unsafeCandidates == |Unsafe(b, c)|
    && (forall g: int :: report.medianRewardGainMicros >= g <==> |Gaining(b, c, g)| >= n / 2 + 1)
    && (forall q: nat :: report.qualityWinBasisPoints >= q <==> WinsReach(b, c, q))
    && (forall l: int :: report.medianTokenIncreaseBasisPoints <= l <==> |TokensWithin(b, c, l)| >= (n + 1) / 2)
    && (forall l: int :: report.p95LatencyIncreaseBasisPoints <= l <==> 100 * |LatencyWithin(b, c, l)| >= 95 * n)
  }

  /** The pairs that gain make up at least `q` basis points of all. */
  ghost predicate WinsReach(b: Index, c: Index, q: nat)
    requires Comparable(b, c)
  {
    10000 * |Gaining(b, c, 1)| >= q * |b.Keys|
  }

  lemma ComparedDescribes(b: Index, c: Index, profile: Profile, policy: Policy, order: seq<PairKey>)
    requires Comparable(b, c) && 0 < |order| <= U32_MAX && Enumerates(order, b.Keys)
    ensures Compared(b, c, profile, policy, order).Ok?
    ensures Describes(Compared(b, c, profile, policy, order).value, b, c, profile)
  {
    hide Enumerates, PairSample, CountAtMost, Values, Percentile95, LowerMedian, BasisPoints,
         Gaining, TokensWithin, LatencyWithin, RuntimeSafe, FirstError, Unsafe;
    ComparableMeansNoError(b, c, order);
    UnsafeCount(b, c, order);
    WinsAreGaining(b, c, order);
    MedianGainReaches(b, c, order, 0);
    var report := Compared(b, c, profile, policy, order).value;
    forall g: int ensures report.medianRewardGainMicros >= g <==> |Gaining(b, c, g)| >= |b.Keys| / 2 + 1 {
      MedianGainReaches(b, c, order, g);
    }
    forall q: nat ensures report.qualityWinBasisPoints >= q <==> WinsReach(b, c, q) {
      BasisPointsReach(CountPositive(Values(order, GainOf(b, c))), |order|, q);
    }
    forall l: int
      ensures report.medianTokenIncreaseBasisPoints <= l <==> |TokensWithin(b, c, l)| >= (|b.Keys| + 1) / 2
    {
      MedianTokensWithin(b, c, order, l);
    }
    forall l: int
      ensures report.p95LatencyIncreaseBasisPoints <= l <==> 100 * |LatencyWithin(b, c, l)| >= 95 * |b.Keys|
    {
      P95LatencyWithin(b, c, order, l);
    }
  }

  lemma ComparableMeansNoError(b: Index, c: Index, order: seq<PairKey>)
    requires b.Keys == c.Keys && Enumerates(order, b.Keys)
    ensures FirstError(b, c, order).None? <==> Comparable(b, c)
  {
    hide PairSample;
    NoErrorIff(b, c, order);
  }

  lemma IndexKeys(results: seq<BenchResult>, index: Index)
    requires IndexOf(results, index)
    ensures index.Keys == KeysOf(results)
  {
    hide KeyOf;
    forall k | k in index ensures k in KeysOf(results) {
      var i :| 0 <= i < |results| && results[i] == index[k];
    }
  }

  /**
    When evaluation succeeds, both groups index, their pairs are comparable, and the report
    says eligible exactly when the counts over the set of pairs pass the policy, and every
    figure of the report is the one those pairs have.
   */
  lemma EligibleIff(baseline: seq<BenchResult>, candidate: seq<BenchResult>, profile: Profile, policy: Policy,
                    order: seq<PairKey>)
    requires Enumerates(order, KeysOf(baseline))
    requires Evaluated(baseline, candidate, profile, policy, order).Ok?
    ensures Indexed(baseline, PrimaryOnly).Ok? && Indexed(candidate, profile).Ok?
    ensures var b, c := Indexed(baseline, PrimaryOnly).value, Indexed(candidate, profile).value;
            var report := Evaluated(baseline, candidate, profile, policy, order).value;
            && b.Keys == KeysOf(baseline) && Comparable(b, c)
            && (report.eligible <==> Passes(b, c, policy)) && Describes(report, b, c, profile)
  {
    hide Indexed, Enumerates, Comparable, Passes, FirstError, ReportOf, Values, IndexOf, Indexable, KeysOf, Describes;
    IndexedIff(baseline, PrimaryOnly);
    IndexedIff(candidate, profile);
    var b, c := Indexed(baseline, PrimaryOnly).value, Indexed(candidate, profile).value;
    IndexKeys(baseline, b);
    ComparableMeansNoError(b, c, order);
    OrderNonEmpty(baseline, order);
    ComparedPassesIff(b, c, profile, policy, order);
    ComparedDescribes(b, c, profile, policy, order);
  }

  lemma OrderNonEmpty(results: seq<BenchResult>, order: seq<PairKey>)
    requires Enumerates(order, KeysOf(results)) && results != []
    ensures order != []
  {
    assert KeyOf(results[0].coordinate) in KeysOf(results);
  }

  /** A verifier reward is there and lies between zero and one. */
  predicate Rewarded(r: BenchResult) {
    && r.verifierReward.Some? && r.verifierReward.value.Finite?
    && 0.0 <= r.verifierReward.value.value <= 1.0
  }

  /** A baseline and a candidate result can be compared, in terms of what they measured. */
  predicate PairOk(b: BenchResult, c: BenchResult) {
    && FindPrimary(b.coordinate.models) == FindPrimary(c.coordinate.models)
    && Rewarded(b) && Rewarded(c)
    && 0 < b.inputTokens + b.outputTokens && 0 < b.durationMillis
    && WithinIncrease(Tokens(b), Tokens(c), 0x7FFF_FFFF)
    && WithinIncrease(b.durationMillis, c.durationMillis, 0x7FFF_FFFF)
    && RuntimeSafe(b)
  }

  lemma PairOkIff(b: BenchResult, c: BenchResult)
    ensures PairSample(b, c).Ok? <==> PairOk(b, c)
  {
    hide WithinIncrease, RelativeDelta, RuntimeSafe, FindPrimary;
    DeltaFitsIff(Tokens(b), Tokens(c));
    DeltaFitsIff(b.durationMillis, c.durationMillis);
  }

  /** Which error a pair causes: the first of these conditions that applies. */
  lemma PairErrorIs(b: BenchResult, c: BenchResult)
    ensures var r := PairSample(b, c);
            if FindPrimary(b.coordinate.models) != FindPrimary(c.coordinate.models) then r == Err(PrimaryModelMismatch)
            else if b.verifierReward.None? then r == Err(MissingReward)
            else if !Rewarded(b) then r == Err(RewardOutOfRange)
            else if c.verifierReward.None? then r == Err(MissingReward)
            else if !Rewarded(c) then r == Err(RewardOutOfRange)
            else if b.inputTokens + b.outputTokens == 0 then r == Err(ZeroBaselineMetric)
            else if !WithinIncrease(Tokens(b), Tokens(c), 0x7FFF_FFFF) then r == Err(MetricOverflow)
            else if b.durationMillis == 0 then r == Err(ZeroBaselineMetric)
            else if !WithinIncrease(b.durationMillis, c.durationMillis, 0x7FFF_FFFF) then r == Err(MetricOverflow)
            else if !RuntimeSafe(b) then r == Err(UnsafeBaseline)
            else r.Ok?
  {
    hide WithinIncrease, RuntimeSafe, FindPrimary, TruncDiv;
    DeltaFitsIff(Tokens(b), Tokens(c));
    DeltaFitsIff(b.durationMillis, c.durationMillis);
  }

  ghost predicate FailsFirst(b: Index, c: Index, order: seq<PairKey>, i: int, e: GateError)
    requires forall k :: k in order ==> k in b && k in c
  {
    && 0 <= i < |order| && PairSample(b[order[i]], c[order[i]]) == Err(e)
    && forall j :: 0 <= j < i ==> PairSample(b[order[j]], c[order[j]]).Ok?
  }

  ghost predicate AllCompare(b: Index, c: Index, order: seq<PairKey>)
    requires forall k :: k in order ==> k in b && k in c
  {
    forall j :: 0 <= j < |order| ==> PairSample(b[order[j]], c[order[j]]).Ok?
  }

  ghost predicate SomeFailsFirst(b: Index, c: Index, order: seq<PairKey>, e: GateError)
    requires forall k :: k in order ==> k in b && k in c
  {
    exists i :: FailsFirst(b, c, order, i, e)
  }

  lemma FailsFirstSnoc(b: Index, c: Index, init: seq<PairKey>, k: PairKey, e: GateError)
    requires forall x :: x in init + [k] ==> x in b && x in c
    ensures (forall x :: x in init ==> x in b && x in c) && k in b && k in c
    ensures SomeFailsFirst(b, c, init + [k], e) <==>
            SomeFailsFirst(b, c, init, e) || (AllCompare(b, c, init) && PairSample(b[k], c[k]) == Err(e))
  {
    hide PairSample;
    var order := init + [k];
    assert forall x :: x in init ==> x in order;
    assert order[|init|] == k && forall i :: 0 <= i < |init| ==> init[i] == order[i];
    if i :| FailsFirst(b, c, init, i, e) { assert FailsFirst(b, c, order, i, e); }
    if i :| FailsFirst(b, c, order, i, e) {
      if i < |init| { assert FailsFirst(b, c, init, i, e); }
    }
    if AllCompare(b, c, init) && PairSample(b[k], c[k]) == Err(e) {
      assert FailsFirst(b, c, order, |init|, e);
    }
  }

  /** The error of a walk is that of the first pair along it that has one. */
  lemma {:induction false} FirstErrorIs(b: Index, c: Index, order: seq<PairKey>, e: GateError)
    requires forall k :: k in order ==> k in b && k in c
    ensures FirstError(b, c, order) == Some(e) <==> SomeFailsFirst(b, c, order, e)
  {
    hide PairSample, SomeFailsFirst;
    if order == [] {
      NoneFailsFirst(b, c, order, e);
    } else {
      var init, k := order[..|order| - 1], order[|order| - 1];
      assert order == init + [k];
      FailsFirstSnoc(b, c, init, k, e);
      FirstErrorIs(b, c, init, e);
      NoErrorIff(b, c, init);
      assert AllCompare(b, c, init) <==> forall x :: x in init ==> PairSample(b[x], c[x]).Ok?;
    }
  }

  lemma NoneFailsFirst(b: Index, c: Index, order: seq<PairKey>, e: GateError)
    requires order == []
    ensures !SomeFailsFirst(b, c, order, e)
  {
  }

  /** What is refused before any result is looked at. */
  lemma RefusedIff(baseline: seq<BenchResult>, candidate: seq<BenchResult>, profile: Profile, policy: Policy,
                   order: seq<PairKey>)
    requires Enumerates(order, KeysOf(baseline))
    ensures var r := Evaluated(baseline, candidate, profile, policy, order);
            && (r == Err(InvalidPolicy) <==> policy.minimumPairs == 0 || policy.minimumQualityWinBasisPoints > 10000)
            && (policy.minimumPairs > 0 && policy.minimumQualityWinBasisPoints <= 10000 ==>
                  (r == Err(InvalidCandidate) <==> profile == PrimaryOnly || baseline == [] || candidate == []))
  {
    hide Indexed, FirstError, KeyOf;
    IndexErrors(baseline, PrimaryOnly);
    IndexErrors(candidate, profile);
    forall b: Index, c: Index ensures FirstError(b, c, order).Some? ==> NotRefusal(FirstError(b, c, order).value) {
      PairErrors(b, c, order);
    }
  }

  /** Errors that are about results, not about the request. */
  predicate NotRefusal(e: GateError) {
    e != InvalidPolicy && e != InvalidCandidate
  }

  lemma {:induction false} IndexErrors(results: seq<BenchResult>, expected: Profile)
    ensures Indexed(results, expected).Err? ==> NotRefusal(Indexed(results, expected).error)
  {
    hide ResultError, KeyOf;
    if results != [] { IndexErrors(results[..|results| - 1], expected); }
  }

  lemma {:induction false} PairErrors(b: Index, c: Index, order: seq<PairKey>)
    ensures FirstError(b, c, order).Some? ==> NotRefusal(FirstError(b, c, order).value)
  {
    hide FindPrimary, Tokens, RuntimeSafe, TruncDiv;
    if order != [] { PairErrors(b, c, order[..|order| - 1]); }
  }

  /** Results with one key can be compared. */
  ghost predicate ComparableResults(baseline: seq<BenchResult>, candidate: seq<BenchResult>) {
    forall i, j | 0 <= i < |baseline| && 0 <= j < |candidate| ::
      KeyOf(baseline[i].coordinate) == KeyOf(candidate[j].coordinate) ==> PairOk(baseline[i], candidate[j])
  }

  lemma ComparableIndexes(baseline: seq<BenchResult>, candidate: seq<BenchResult>, b: Index, c: Index)
    requires IndexOf(baseline, b) && IndexOf(candidate, c) && b.Keys == c.Keys
    ensures Comparable(b, c) <==> ComparableResults(baseline, candidate)
  {
    hide KeyOf, PairSample, PairOk;
    if Comparable(b, c) {
      forall i, j | 0 <= i < |baseline| && 0 <= j < |candidate| &&
                    KeyOf(baseline[i].coordinate) == KeyOf(candidate[j].coordinate)
        ensures PairOk(baseline[i], candidate[j])
      {
        var k := KeyOf(baseline[i].coordinate);
        assert b[k] == baseline[i] && c[k] == candidate[j];
        PairOkIff(b[k], c[k]);
      }
    }
    if ComparableResults(baseline, candidate) {
      forall k | k in b ensures PairSample(b[k], c[k]).Ok? {
        assert k in c.Keys;
        PairOkIff(b[k], c[k]);
        var i :| 0 <= i < |baseline| && baseline[i] == b[k];
        var j :| 0 <= j < |candidate| && candidate[j] == c[k];
      }
    }
  }

  /** Exactly when evaluation succeeds. */
  lemma EvaluatesIff(baseline: seq<BenchResult>, candidate: seq<BenchResult>, profile: Profile, policy: Policy,
                     order: seq<PairKey>)
    requires Enumerates(order, KeysOf(baseline))
    ensures Evaluated(baseline, candidate, profile, policy, order).Ok? <==>
            && PolicyOk(policy) && profile != PrimaryOnly && baseline != []
            && Indexable(baseline, PrimaryOnly) && Indexable(candidate, profile)
            && KeysOf(baseline) == KeysOf(candidate) && |KeysOf(baseline)| <= U32_MAX
            && ComparableResults(baseline, candidate)
  {
    hide Indexed, Enumerates, Comparable, ComparableResults, FirstError, ReportOf, Values, IndexOf, Indexable, KeysOf;
    if candidate == [] {
      NoKeys(candidate, baseline);
    }
    IndexedIff(baseline, PrimaryOnly);
    IndexedIff(candidate, profile);
    if baseline != [] {
      OrderNonEmpty(baseline, order);
    }
    if Indexable(baseline, PrimaryOnly) && Indexable(candidate, profile) {
      var b, c := Indexed(baseline, PrimaryOnly).value, Indexed(candidate, profile).value;
      IndexKeys(baseline, b);
      IndexKeys(candidate, c);
      EnumerationLength(order, KeysOf(baseline));
      if b.Keys == c.Keys {
        ComparableMeansNoError(b, c, order);
        ComparableIndexes(baseline, candidate, b, c);
      }
    }
  }

  lemma NoKeys(empty: seq<BenchResult>, results: seq<BenchResult>)
    requires empty == []
    ensures KeysOf(results) == KeysOf(empty) ==> results == []
  {
    if results != [] {
      assert KeyOf(results[0].coordinate) in KeysOf(results);
    }
  }

  // ---------------------------------------------------------------------------
  // The order of the evidence does not matter
  // ---------------------------------------------------------------------------

  lemma MedianIsOrderFree(first: seq<PairKey>, second: seq<PairKey>, keys: set<PairKey>, f: PairKey -> int)
    requires Enumerates(first, keys) && Enumerates(second, keys) && first != []
    ensures |first| == |second|
    ensures LowerMedian(Values(first, f)) == LowerMedian(Values(second, f))
    ensures Percentile95(Values(first, f)) == Percentile95(Values(second, f))
    ensures CountPositive(Values(first, f)) == CountPositive(Values(second, f))
  {
    hide Enumerates, CountAtMost, Sort, Values;
    OrderFree(first, second, keys, f);
    SameCountsSameRank(Values(first, f), Values(second, f), (|first| - 1) / 2);
    SameCountsSameRank(Values(first, f), Values(second, f), GateIndex(|first|, 95));
  }

  lemma ComparedIsOrderFree(b: Index, c: Index, profile: Profile, policy: Policy, first: seq<PairKey>,
                            second: seq<PairKey>)
    requires b.Keys == c.Keys && first != [] && second != []
    requires Enumerates(first, b.Keys) && Enumerates(second, b.Keys)
    requires Compared(b, c, profile, policy, first).Ok?
    ensures Compared(b, c, profile, policy, second) == Compared(b, c, profile, policy, first)
  {
    hide Enumerates, PairSample, CountPositive, Values, Percentile95, LowerMedian, Comparable, BasisPoints, FirstError;
    ComparableMeansNoError(b, c, first);
    ComparableMeansNoError(b, c, second);
    MedianIsOrderFree(first, second, b.Keys, GainOf(b, c));
    MedianIsOrderFree(first, second, b.Keys, TokenOf(b, c));
    MedianIsOrderFree(first, second, b.Keys, LatencyOf(b, c));
    MedianIsOrderFree(first, second, b.Keys, UnsafeOf(b, c));
  }

  lemma InOther<T>(first: seq<T>, second: seq<T>, x: T)
    requires multiset(first) == multiset(second) && x in second
    ensures x in first
  {
    assert x in multiset(second);
    assert x in multiset(first);
  }

  lemma IndexableIsOrderFree(first: seq<BenchResult>, second: seq<BenchResult>, expected: Profile)
    requires multiset(first) == multiset(second) && Indexable(first, expected)
    ensures Indexable(second, expected)
  {
    hide ResultError, KeyOf;
    forall i | 0 <= i < |second| ensures second[i] in first {
      InOther(first, second, second[i]);
    }
    forall i, j | 0 <= i < j < |second| ensures KeyOf(second[i].coordinate) != KeyOf(second[j].coordinate) {
      if second[i] == second[j] {
        TwiceInMultiset(second, i, j);
        OnceInMultiset(first, second[i]);
      }
      var k :| 0 <= k < |first| && first[k] == second[i];
      var l :| 0 <= l < |first| && first[l] == second[j];
    }
  }

  lemma IndexIsOrderFree(first: seq<BenchResult>, second: seq<BenchResult>, expected: Profile)
    requires multiset(first) == multiset(second) && Indexed(first, expected).Ok?
    ensures Indexed(second, expected) == Indexed(first, expected)
  {
    hide Indexed, Indexable, KeyOf;
    IndexedIff(first, expected);
    IndexableIsOrderFree(first, second, expected);
    IndexedIff(second, expected);
    var a, b := Indexed(first, expected).value, Indexed(second, expected).value;
    forall k | k in a ensures k in b && b[k] == a[k] {
      InOther(second, first, a[k]);
    }
    forall k | k in b ensures k in a {
      InOther(first, second, b[k]);
    }
    assert a == b;
  }

  /**
    A successful report depends on which results were given, not on the order of either
    group nor on the order the pairs are walked in.
   */
  lemma EvaluationIsOrderFree(baseline: seq<BenchResult>, candidate: seq<BenchResult>, baseline2: seq<BenchResult>,
                              candidate2: seq<BenchResult>, profile: Profile, policy: Policy, order: seq<PairKey>,
                              order2: seq<PairKey>)
    requires multiset(baseline) == multiset(baseline2) && multiset(candidate) == multiset(candidate2)
    requires Enumerates(order, KeysOf(baseline)) && Enumerates(order2, KeysOf(baseline2))
    requires Evaluated(baseline, candidate, profile, policy, order).Ok?
    ensures Evaluated(baseline2, candidate2, profile, policy, order2) ==
            Evaluated(baseline, candidate, profile, policy, order)
  {
    hide Indexed, Enumerates, Compared, IndexOf, Indexable, KeysOf;
    IndexIsOrderFree(baseline, baseline2, PrimaryOnly);
    IndexIsOrderFree(candidate, candidate2, profile);
    IndexedIff(baseline, PrimaryOnly);
    IndexedIff(baseline2, PrimaryOnly);
    var b := Indexed(baseline, PrimaryOnly).value;
    IndexKeys(baseline, b);
    IndexKeys(baseline2, b);
    SameLength(baseline, baseline2);
    SameLength(candidate, candidate2);
    OrderNonEmpty(baseline, order);
    OrderNonEmpty(baseline2, order2);
    ComparedIsOrderFree(b, Indexed(candidate, profile).value, profile, policy, order, order2);
  }

  lemma SameLength<T>(first: seq<T>, second: seq<T>)
    requires multiset(first) == multiset(second)
    ensures |first| == |second|
  {
    assert |multiset(first)| == |multiset(second)|;
  }
}
