/** The gate over a corpus: exact coverage first, then the paired evaluation and the evidence it is bound to. */
module CorpusGate {
  import opened Common
  import opened Bench
  import opened Corpus
  import opened OrderStats
  import opened Sums
  import opened Gate

  /** A report with the results it is bound to, in plan order. */
  datatype Bundle = Bundle(
    report: Report, evidence: Evidence, baseline: seq<BenchResult>, candidate: seq<BenchResult>)

  /** The activation evidence: each figure of the report beside the limit of the policy it was held against. */
  datatype Evidence = Evidence(
    pairs: nat,
    minimumPairs: nat,
    unsafeCandidates: nat,
    medianRewardGainMicros: int,
    minimumRewardGainMicros: int,
    qualityWinBasisPoints: nat,
    minimumQualityWinBasisPoints: nat,
    medianTokenIncreaseBasisPoints: int,
    maximumTokenIncreaseBasisPoints: nat,
    p95LatencyIncreaseBasisPoints: int,
    maximumP95LatencyIncreaseBasisPoints: nat)

  /** `activation_evidence`, apart from the digest it is given. */
  function ActivationEvidence(report: Report, policy: Policy): Result<Evidence, GateError> {
    if !PolicyOk(policy) then Err(InvalidPolicy)
    else if !report.eligible then Err(IneligibleReport)
    else
      Ok(Evidence(report.pairs, policy.minimumPairs, report.unsafeCandidates,
                  report.medianRewardGainMicros, policy.minimumRewardGainMicros,
                  report.qualityWinBasisPoints, policy.minimumQualityWinBasisPoints,
                  report.medianTokenIncreaseBasisPoints, policy.maximumTokenIncreaseBasisPoints,
                  report.p95LatencyIncreaseBasisPoints, policy.maximumP95LatencyIncreaseBasisPoints))
  }

  /** Results by coordinate; of several at one coordinate the last is kept. */
  function ByCoordinate(results: seq<BenchResult>): map<Coordinate, BenchResult> {
    if results == [] then map[]
    else ByCoordinate(results[..|results| - 1])[results[|results| - 1].coordinate := results[|results| - 1]]
  }

  /** The first `n` coordinates looked up in order. */
  function LookedUp(index: map<Coordinate, BenchResult>, plan: seq<Coordinate>): Result<seq<BenchResult>, GateError> {
    if plan == [] then Ok([])
    else
      var before, c := LookedUp(index, plan[..|plan| - 1]), plan[|plan| - 1];
      if before.Err? then before
      else if c !in index then Err(UnpairedEvidence)
      else Ok(before.value + [index[c]])
  }

  /** `ordered_results`. */
  function Ordered(results: seq<BenchResult>, plan: seq<Coordinate>): Result<seq<BenchResult>, GateError> {
    LookedUp(ByCoordinate(results), plan)
  }

  /** `evaluate_corpus_activation`, up to the encoding and hashing of its evidence. */
  function EvaluatedCorpus(m: Manifest, baseline: seq<BenchResult>, candidate: seq<BenchResult>, policy: Policy,
                           order: seq<PairKey>): Result<Bundle, GateError>
    requires Enumerates(order, KeysOf(baseline))
  {
    if CoverageError(m, baseline, candidate).Some? then Err(CorpusInvalid)
    else
      var report := Evaluated(baseline, candidate, m.candidate, policy, order);
      var b, c := Ordered(baseline, BaselinePlan(m)), Ordered(candidate, CandidatePlan(m));
      if report.Err? then Err(report.error)
      else if b.Err? then Err(b.error)
      else if c.Err? then Err(c.error)
      else
        var evidence := ActivationEvidence(report.value, policy);
        if evidence.Err? then Err(evidence.error)
        else Ok(Bundle(report.value, evidence.value, b.value, c.value))
  }

  // ---------------------------------------------------------------------------
  // The loops
  // ---------------------------------------------------------------------------

  lemma {:induction false} LookupStaysFailed(index: map<Coordinate, BenchResult>, plan: seq<Coordinate>, n: nat)
    requires n <= |plan| && LookedUp(index, plan[..n]).Err?
    ensures LookedUp(index, plan) == LookedUp(index, plan[..n])
    decreases |plan|
  {
    if n < |plan| {
      assert plan[..|plan| - 1][..n] == plan[..n];
      LookupStaysFailed(index, plan[..|plan| - 1], n);
    } else {
      assert plan[..n] == plan;
    }
  }

  method OrderResults(results: seq<BenchResult>, plan: seq<Coordinate>) returns (r: Result<seq<BenchResult>, GateError>)
    ensures r == Ordered(results, plan)
  {
    var index: map<Coordinate, BenchResult> := map[];
    for i := 0 to |results|
      invariant index == ByCoordinate(results[..i])
    {
      var next := results[..i + 1];
      assert next[..|next| - 1] == results[..i] && next[|next| - 1] == results[i];
      index := index[results[i].coordinate := results[i]];
    }
    assert results[..|results|] == results;
    var ordered: seq<BenchResult> := [];
    for i := 0 to |plan|
      invariant LookedUp(index, plan[..i]) == Ok(ordered)
    {
      var next := plan[..i + 1];
      assert next[..|next| - 1] == plan[..i] && next[|next| - 1] == plan[i];
      if plan[i] !in index {
        LookupStaysFailed(index, plan, i + 1);
        return Err(UnpairedEvidence);
      }
      ordered := ordered + [index[plan[i]]];
    }
    assert plan[..|plan|] == plan;
    r := Ok(ordered);
  }

  method EvaluateCorpus(m: Manifest, baseline: seq<BenchResult>, candidate: seq<BenchResult>, policy: Policy,
                        order: seq<PairKey>) returns (r: Result<Bundle, GateError>)
    requires Enumerates(order, KeysOf(baseline))
    ensures r == EvaluatedCorpus(m, baseline, candidate, policy, order)
  {
    hide CoverageError, Evaluated, Ordered, BaselinePlan, CandidatePlan, PairedPlans;
    var uncovered := ValidatePairCoverage(m, baseline, candidate);
    if uncovered.Some? {
      return Err(CorpusInvalid);
    }
    var report := Evaluate(baseline, candidate, m.candidate, policy, order);
    if report.Err? {
      return Err(report.error);
    }
    var plans := MakePairedPlans(m);
    CoveredPlans(m, baseline, candidate);
    if plans.Err? {
      return Err(CorpusInvalid);
    }
    var b := OrderResults(baseline, plans.value.0);
    if b.Err? {
      return Err(b.error);
    }
    var c := OrderResults(candidate, plans.value.1);
    if c.Err? {
      return Err(c.error);
    }
    var evidence := ActivationEvidence(report.value, policy);
    if evidence.Err? {
      return Err(evidence.error);
    }
    r := Ok(Bundle(report.value, evidence.value, b.value, c.value));
  }

  // ---------------------------------------------------------------------------
  // What coverage gives the gate
  // ---------------------------------------------------------------------------

  lemma CoveredPlans(m: Manifest, baseline: seq<BenchResult>, candidate: seq<BenchResult>)
    requires CoverageError(m, baseline, candidate).None?
    ensures ManifestError(m).None? && PairedPlans(m) == Ok((BaselinePlan(m), CandidatePlan(m)))
    ensures Exactly(baseline, AsSet(BaselinePlan(m))) && Exactly(candidate, AsSet(CandidatePlan(m)))
  {
    hide ManifestError, PlanError, BaselinePlan, CandidatePlan, ExactCoordinates, Exactly, AsSet;
    ExactCoordinatesIff(baseline);
    ExactCoordinatesIff(candidate);
  }

  /** Within one plan the pair key decides the coordinate. */
  lemma KeyDecides(m: Manifest, cognition: Profile, models: seq<Binding>, c: Coordinate, d: Coordinate)
    requires c in PlanOf(m, |m.scenarios|, cognition, models) && d in PlanOf(m, |m.scenarios|, cognition, models)
    requires KeyOf(c) == KeyOf(d)
    ensures c == d
  {
    hide PlanOf;
    var n := |m.scenarios|;
    InPlan(m, n, cognition, models, c);
    InPlan(m, n, cognition, models, d);
    var i: nat :| Planned(m, n, cognition, models, c, i, c.runOrdinal);
    var j: nat :| Planned(m, n, cognition, models, d, j, d.runOrdinal);
  }

  /** Both plans hold the same pair keys. */
  lemma Counterpart(m: Manifest, cognition: Profile, models: seq<Binding>, cognition2: Profile, models2: seq<Binding>,
                    c: Coordinate)
    returns (d: Coordinate)
    requires c in PlanOf(m, |m.scenarios|, cognition, models)
    ensures d in PlanOf(m, |m.scenarios|, cognition2, models2) && KeyOf(d) == KeyOf(c)
  {
    hide PlanOf;
    var n := |m.scenarios|;
    InPlan(m, n, cognition, models, c);
    var i: nat :| Planned(m, n, cognition, models, c, i, c.runOrdinal);
    d := CoordinateFor(m, m.scenarios[i], c.runOrdinal, cognition2, models2);
    InPlan(m, n, cognition2, models2, d);
    assert Planned(m, n, cognition2, models2, d, i, d.runOrdinal);
  }

  lemma PlannedCognition(m: Manifest, cognition: Profile, models: seq<Binding>, c: Coordinate)
    requires c in PlanOf(m, |m.scenarios|, cognition, models)
    ensures c.cognition == cognition && c.models == models
  {
    hide PlanOf;
    InPlan(m, |m.scenarios|, cognition, models, c);
  }

  /** Results that cover a plan exactly can be indexed by pair key. */
  lemma CoveringIndexes(m: Manifest, cognition: Profile, models: seq<Binding>, results: seq<BenchResult>)
    requires Exactly(results, AsSet(PlanOf(m, |m.scenarios|, cognition, models)))
    ensures Indexable(results, cognition)
  {
    hide PlanOf, ResultError, KeyOf;
    var plan := PlanOf(m, |m.scenarios|, cognition, models);
    forall i | 0 <= i < |results| ensures results[i].coordinate.cognition == cognition {
      PlannedCognition(m, cognition, models, results[i].coordinate);
    }
    forall i, j | 0 <= i < j < |results| ensures KeyOf(results[i].coordinate) != KeyOf(results[j].coordinate) {
      if KeyOf(results[i].coordinate) == KeyOf(results[j].coordinate) {
        KeyDecides(m, cognition, models, results[i].coordinate, results[j].coordinate);
      }
    }
  }

  lemma CoveringKeys(m: Manifest, cognition: Profile, models: seq<Binding>, results: seq<BenchResult>,
                     cognition2: Profile, models2: seq<Binding>, results2: seq<BenchResult>)
    requires Exactly(results, AsSet(PlanOf(m, |m.scenarios|, cognition, models)))
    requires Exactly(results2, AsSet(PlanOf(m, |m.scenarios|, cognition2, models2)))
    ensures KeysOf(results) <= KeysOf(results2)
  {
    hide PlanOf, ResultError, KeyOf;
    forall k | k in KeysOf(results) ensures k in KeysOf(results2) {
      var i :| 0 <= i < |results| && KeyOf(results[i].coordinate) == k;
      var d := Counterpart(m, cognition, models, cognition2, models2, results[i].coordinate);
      assert At(results2, d);
      var j :| 0 <= j < |results2| && results2[j].coordinate == d;
    }
  }

  lemma {:induction false} DistinctCount(cs: seq<Coordinate>)
    requires NoDuplicates(cs)
    ensures |AsSet(cs)| == |cs|
  {
    if cs != [] {
      var init, last := cs[..|cs| - 1], cs[|cs| - 1];
      DistinctCount(init);
      assert AsSet(cs) == AsSet(init) + {last};
      assert last !in AsSet(init);
    }
  }

  lemma {:induction false} KeyCount(results: seq<BenchResult>)
    requires forall i, j :: 0 <= i < j < |results| ==> KeyOf(results[i].coordinate) != KeyOf(results[j].coordinate)
    ensures |KeysOf(results)| == |results|
  {
    hide KeyOf;
    if results != [] {
      var init, last := results[..|results| - 1], results[|results| - 1];
      KeyCount(init);
      assert KeysOf(results) == KeysOf(init) + {KeyOf(last.coordinate)};
      assert KeyOf(last.coordinate) !in KeysOf(init);
    }
  }

  lemma PlanPrimary(m: Manifest)
    ensures FindPrimary(BaselineModels(m)) == FindPrimary(CandidateModels(m)) == Some(m.primaryModel)
  {
  }

  /** The errors the values of a pair can cause, whatever the coverage. */
  predicate ValueError(e: GateError) {
    e in {MissingReward, RewardOutOfRange, ZeroBaselineMetric, MetricOverflow, UnsafeBaseline}
  }

  lemma SamePrimaryOnlyValueErrors(b: BenchResult, c: BenchResult)
    requires FindPrimary(b.coordinate.models) == FindPrimary(c.coordinate.models)
    ensures PairSample(b, c).Err? ==> ValueError(PairSample(b, c).error)
  {
    hide FindPrimary, Tokens, RuntimeSafe, TruncDiv;
  }

  lemma {:induction false} ErrorsAreValueErrors(b: Index, c: Index, order: seq<PairKey>)
    requires forall k :: k in order ==> k in b && k in c
    requires forall k :: k in order ==> FindPrimary(b[k].coordinate.models) == FindPrimary(c[k].coordinate.models)
    ensures FirstError(b, c, order).Some? ==> ValueError(FirstError(b, c, order).value)
  {
    hide PairSample, FindPrimary, ValueError;
    if order != [] {
      var init, k := order[..|order| - 1], order[|order| - 1];
      assert forall x :: x in init ==> x in order;
      ErrorsAreValueErrors(b, c, init);
      SamePrimaryOnlyValueErrors(b[k], c[k]);
    }
  }

  /** Both groups of covering results index, over the same keys, with the same primary model at every key. */
  ghost predicate WellPaired(m: Manifest, baseline: seq<BenchResult>, candidate: seq<BenchResult>) {
    && Indexable(baseline, PrimaryOnly) && Indexable(candidate, m.candidate)
    && KeysOf(baseline) == KeysOf(candidate)
    && |KeysOf(baseline)| == |m.scenarios| * m.repetitions
    && (forall i :: 0 <= i < |baseline| ==> baseline[i].coordinate.models == BaselineModels(m))
    && (forall i :: 0 <= i < |candidate| ==> candidate[i].coordinate.models == CandidateModels(m))
  }

  lemma CoverageGivesPairs(m: Manifest, baseline: seq<BenchResult>, candidate: seq<BenchResult>)
    requires CoverageError(m, baseline, candidate).None?
    ensures WellPaired(m, baseline, candidate) && m.candidate != PrimaryOnly && baseline != [] && candidate != []
  {
    hide CoverageError, PlanOf, ResultError, KeyOf, ManifestError, KeysOf, PairedPlans;
    CoveredPlans(m, baseline, candidate);
    PlanNonEmpty(m, PrimaryOnly, BaselineModels(m));
    Product(|m.scenarios|, m.repetitions);
    PairedPlansFailIff(m);
    CoveringIndexes(m, PrimaryOnly, BaselineModels(m), baseline);
    CoveringIndexes(m, m.candidate, CandidateModels(m), candidate);
    CoveringKeys(m, PrimaryOnly, BaselineModels(m), baseline, m.candidate, CandidateModels(m), candidate);
    CoveringKeys(m, m.candidate, CandidateModels(m), candidate, PrimaryOnly, BaselineModels(m), baseline);
    KeyCount(baseline);
    DistinctCount(BaselinePlan(m));
    DistinctCount(CandidatePlan(m));
    forall i | 0 <= i < |baseline| ensures baseline[i].coordinate.models == BaselineModels(m) {
      PlannedCognition(m, PrimaryOnly, BaselineModels(m), baseline[i].coordinate);
    }
    forall i | 0 <= i < |candidate| ensures candidate[i].coordinate.models == CandidateModels(m) {
      PlannedCognition(m, m.candidate, CandidateModels(m), candidate[i].coordinate);
    }
  }

  lemma SamePrimary(m: Manifest, baseline: seq<BenchResult>, candidate: seq<BenchResult>, b: Index, c: Index,
                    k: PairKey)
    requires WellPaired(m, baseline, candidate) && IndexOf(baseline, b) && IndexOf(candidate, c) && k in b && k in c
    ensures FindPrimary(b[k].coordinate.models) == FindPrimary(c[k].coordinate.models)
  {
    hide Indexable, KeyOf, KeysOf;
    PlanPrimary(m);
    var i :| 0 <= i < |baseline| && baseline[i] == b[k];
    var j :| 0 <= j < |candidate| && candidate[j] == c[k];
  }

  /**
    After exact coverage the gate never reports a pairing problem: with a valid policy its
    only errors are about the values measured, or about their number, and a report covers
    every scenario and repetition.
   */
  lemma GateNeverMispairs(m: Manifest, baseline: seq<BenchResult>, candidate: seq<BenchResult>, policy: Policy,
                          order: seq<PairKey>)
    requires Enumerates(order, KeysOf(baseline))
    requires CoverageError(m, baseline, candidate).None? && PolicyOk(policy)
    ensures var r := Evaluated(baseline, candidate, m.candidate, policy, order);
            && (r.Ok? ==> r.value.pairs == |m.scenarios| * m.repetitions)
            && (r.Err? ==> ValueError(r.error) || (r.error == TooManyPairs && |m.scenarios| * m.repetitions > U32_MAX))
  {
    hide CoverageError, Indexed, Enumerates, FirstError, Values, PolicyOk, Indexable, IndexOf, ValueError, KeysOf;
    CoverageGivesPairs(m, baseline, candidate);
    IndexedIff(baseline, PrimaryOnly);
    IndexedIff(candidate, m.candidate);
    var b, c := Indexed(baseline, PrimaryOnly).value, Indexed(candidate, m.candidate).value;
    IndexKeys(baseline, b);
    IndexKeys(candidate, c);
    EnumerationLength(order, KeysOf(baseline));
    InOrder(order, b.Keys);
    forall k | k in order
      ensures k in b && k in c && FindPrimary(b[k].coordinate.models) == FindPrimary(c[k].coordinate.models)
    {
      assert k in b.Keys && k in c.Keys;
      SamePrimary(m, baseline, candidate, b, c, k);
    }
    ErrorsAreValueErrors(b, c, order);
  }

  lemma InOrder(order: seq<PairKey>, keys: set<PairKey>)
    requires Enumerates(order, keys)
    ensures forall k :: k in order <==> k in keys
  {
  }

  // ---------------------------------------------------------------------------
  // The evidence
  // ---------------------------------------------------------------------------

  lemma {:induction false} ByCoordinateHolds(results: seq<BenchResult>)
    requires forall i, j :: 0 <= i < j < |results| ==> results[i].coordinate != results[j].coordinate
    ensures forall i :: 0 <= i < |results| ==>
              && results[i].coordinate in ByCoordinate(results)
              && ByCoordinate(results)[results[i].coordinate] == results[i]
    ensures forall c :: c in ByCoordinate(results) ==> At(results, c)
  {
    if results != [] {
      var init := results[..|results| - 1];
      ByCoordinateHolds(init);
      forall c | c in ByCoordinate(results) ensures At(results, c) {
        if c in ByCoordinate(init) {
          assert At(init, c);
          var i :| 0 <= i < |init| && init[i].coordinate == c;
          assert results[i].coordinate == c;
        } else {
          assert results[|results| - 1].coordinate == c;
        }
      }
    }
  }

  lemma {:induction false} LookupFollowsPlan(index: map<Coordinate, BenchResult>, plan: seq<Coordinate>)
    requires forall i :: 0 <= i < |plan| ==> plan[i] in index
    ensures LookedUp(index, plan).Ok? && |LookedUp(index, plan).value| == |plan|
    ensures forall i :: 0 <= i < |plan| ==> LookedUp(index, plan).value[i] == index[plan[i]]
  {
    if plan != [] {
      LookupFollowsPlan(index, plan[..|plan| - 1]);
    }
  }

  /** Ordered evidence: one result of the group for each coordinate of the plan, in plan order. */
  ghost predicate InPlanOrder(ordered: seq<BenchResult>, results: seq<BenchResult>, plan: seq<Coordinate>) {
    && |ordered| == |plan|
    && forall i :: 0 <= i < |plan| ==> ordered[i].coordinate == plan[i] && ordered[i] in results
  }

  lemma CoveringIsOrdered(results: seq<BenchResult>, plan: seq<Coordinate>)
    requires Exactly(results, AsSet(plan))
    ensures Ordered(results, plan).Ok? && InPlanOrder(Ordered(results, plan).value, results, plan)
  {
    hide ResultError, ByCoordinate, LookedUp;
    ByCoordinateHolds(results);
    var index := ByCoordinate(results);
    forall i | 0 <= i < |plan|
      ensures plan[i] in index && index[plan[i]].coordinate == plan[i] && index[plan[i]] in results
    {
      assert plan[i] in AsSet(plan);
      assert At(results, plan[i]);
      var j :| 0 <= j < |results| && results[j].coordinate == plan[i];
    }
    LookupFollowsPlan(index, plan);
  }

  /** The evidence in plan order is decided by which results there are. */
  lemma PlanOrderUnique(first: seq<BenchResult>, results: seq<BenchResult>, second: seq<BenchResult>,
                        results2: seq<BenchResult>, plan: seq<Coordinate>)
    requires InPlanOrder(first, results, plan) && InPlanOrder(second, results2, plan)
    requires multiset(results) == multiset(results2)
    requires forall i, j :: 0 <= i < j < |results| ==> results[i].coordinate != results[j].coordinate
    ensures first == second
  {
    forall i | 0 <= i < |plan| ensures first[i] == second[i] {
      InOther(results, results2, second[i]);
      var j :| 0 <= j < |results| && results[j] == first[i];
      var k :| 0 <= k < |results| && results[k] == second[i];
    }
  }

  /**
    The corpus gate accepts exactly the covered, eligible corpora; the bundle pairs the
    report with the results in plan order.
   */
  lemma CorpusAcceptsIff(m: Manifest, baseline: seq<BenchResult>, candidate: seq<BenchResult>, policy: Policy,
                         order: seq<PairKey>)
    requires Enumerates(order, KeysOf(baseline))
    ensures var r := EvaluatedCorpus(m, baseline, candidate, policy, order);
            var report := Evaluated(baseline, candidate, m.candidate, policy, order);
            && (r.Ok? <==> CoverageError(m, baseline, candidate).None? && report.Ok? && report.value.eligible)
            && (r.Ok? ==> && r.value.report == report.value
                          && ActivationEvidence(report.value, policy) == Ok(r.value.evidence)
                          && InPlanOrder(r.value.baseline, baseline, BaselinePlan(m))
                          && InPlanOrder(r.value.candidate, candidate, CandidatePlan(m)))
  {
    hide CoverageError, Evaluated, Ordered, BaselinePlan, CandidatePlan, InPlanOrder, Exactly;
    if CoverageError(m, baseline, candidate).None? {
      CoveredPlans(m, baseline, candidate);
      CoveringIsOrdered(baseline, BaselinePlan(m));
      CoveringIsOrdered(candidate, CandidatePlan(m));
      if !PolicyOk(policy) {
        BadPolicy(baseline, candidate, m.candidate, policy, order);
      }
    }
  }

  /** Every figure of the evidence is the report's, every limit the policy's, and every figure meets its limit. */
  lemma EvidenceCertifies(m: Manifest, baseline: seq<BenchResult>, candidate: seq<BenchResult>, policy: Policy,
                          order: seq<PairKey>)
    requires Enumerates(order, KeysOf(baseline))
    requires EvaluatedCorpus(m, baseline, candidate, policy, order).Ok?
    ensures var bundle := EvaluatedCorpus(m, baseline, candidate, policy, order).value;
            var e, r := bundle.evidence, bundle.report;
            && e.pairs == r.pairs && e.minimumPairs == policy.minimumPairs && e.pairs >= e.minimumPairs
            && e.unsafeCandidates == r.unsafeCandidates == 0
            && e.medianRewardGainMicros == r.medianRewardGainMicros
            && e.minimumRewardGainMicros == policy.minimumRewardGainMicros
            && e.medianRewardGainMicros >= e.minimumRewardGainMicros
            && e.qualityWinBasisPoints == r.qualityWinBasisPoints
            && e.minimumQualityWinBasisPoints == policy.minimumQualityWinBasisPoints
            && e.qualityWinBasisPoints >= e.minimumQualityWinBasisPoints
            && e.medianTokenIncreaseBasisPoints == r.medianTokenIncreaseBasisPoints
            && e.maximumTokenIncreaseBasisPoints == policy.maximumTokenIncreaseBasisPoints
            && e.medianTokenIncreaseBasisPoints <= e.maximumTokenIncreaseBasisPoints
            && e.p95LatencyIncreaseBasisPoints == r.p95LatencyIncreaseBasisPoints
            && e.maximumP95LatencyIncreaseBasisPoints == policy.maximumP95LatencyIncreaseBasisPoints
            && e.p95LatencyIncreaseBasisPoints <= e.maximumP95LatencyIncreaseBasisPoints
  {
    hide CoverageError, Ordered, Indexed, FirstError, Values, LowerMedian, Percentile95, BasisPoints;
  }

  /**
    Every error of the corpus gate, for any input and any policy: coverage fails, else the
    policy is invalid, else a measured value, the number of pairs or the decision is at
    fault. It is never about indexing, profiles, keys or primary models.
   */
  lemma CorpusErrors(m: Manifest, baseline: seq<BenchResult>, candidate: seq<BenchResult>, policy: Policy,
                     order: seq<PairKey>)
    requires Enumerates(order, KeysOf(baseline))
    ensures var r := EvaluatedCorpus(m, baseline, candidate, policy, order);
            && (r == Err(CorpusInvalid) <==> CoverageError(m, baseline, candidate).Some?)
            && (r == Err(InvalidPolicy) <==> CoverageError(m, baseline, candidate).None? && !PolicyOk(policy))
            && (r == Err(TooManyPairs) ==> |m.scenarios| * m.repetitions > U32_MAX)
            && (r.Err? ==> || r.error in {CorpusInvalid, InvalidPolicy, IneligibleReport, TooManyPairs}
                           || ValueError(r.error))
  {
    hide CoverageError, Evaluated, Ordered, BaselinePlan, CandidatePlan, InPlanOrder, Exactly;
    if CoverageError(m, baseline, candidate).None? {
      CoveredPlans(m, baseline, candidate);
      CoveringIsOrdered(baseline, BaselinePlan(m));
      CoveringIsOrdered(candidate, CandidatePlan(m));
      if PolicyOk(policy) {
        GateNeverMispairs(m, baseline, candidate, policy, order);
      } else {
        BadPolicy(baseline, candidate, m.candidate, policy, order);
      }
    }
  }

  lemma BadPolicy(baseline: seq<BenchResult>, candidate: seq<BenchResult>, profile: Profile, policy: Policy,
                  order: seq<PairKey>)
    requires Enumerates(order, KeysOf(baseline)) && !PolicyOk(policy)
    ensures Evaluated(baseline, candidate, profile, policy, order) == Err(InvalidPolicy)
  {
  }

  lemma ExactIsOrderFree(results: seq<BenchResult>, results2: seq<BenchResult>)
    requires multiset(results) == multiset(results2) && ExactCoordinates(results).Ok?
    ensures ExactCoordinates(results2) == ExactCoordinates(results)
  {
    hide ResultError, ExactCoordinates;
    ExactCoordinatesIff(results);
    forall i | 0 <= i < |results2| ensures results2[i] in results {
      InOther(results, results2, results2[i]);
    }
    forall i, j | 0 <= i < j < |results2| ensures results2[i].coordinate != results2[j].coordinate {
      if results2[i] == results2[j] {
        TwiceInMultiset(results2, i, j);
        OnceInMultiset(results, results2[i]);
      }
      var k :| 0 <= k < |results| && results[k] == results2[i];
      var l :| 0 <= l < |results| && results[l] == results2[j];
    }
    ExactCoordinatesIff(results2);
    SameCoordinates(results, ExactCoordinates(results).value, results2, ExactCoordinates(results2).value);
    SameCoordinates(results2, ExactCoordinates(results2).value, results, ExactCoordinates(results).value);
    assert ExactCoordinates(results).value == ExactCoordinates(results2).value;
  }

  lemma SameCoordinates(results: seq<BenchResult>, cs: set<Coordinate>, results2: seq<BenchResult>, ds: set<Coordinate>)
    requires Exactly(results, cs) && Exactly(results2, ds) && multiset(results) == multiset(results2)
    ensures cs <= ds
  {
    hide ResultError;
    forall c | c in cs ensures c in ds {
      assert At(results, c);
      var i :| 0 <= i < |results| && results[i].coordinate == c;
      InOther(results2, results, results[i]);
    }
  }

  lemma CoverageIsOrderFree(m: Manifest, baseline: seq<BenchResult>, candidate: seq<BenchResult>,
                            baseline2: seq<BenchResult>, candidate2: seq<BenchResult>)
    requires multiset(baseline) == multiset(baseline2) && multiset(candidate) == multiset(candidate2)
    requires CoverageError(m, baseline, candidate).None?
    ensures CoverageError(m, baseline2, candidate2).None?
  {
    hide PairedPlans, ExactCoordinates, AsSet;
    ExactIsOrderFree(baseline, baseline2);
    ExactIsOrderFree(candidate, candidate2);
  }

  /** An accepted bundle, evidence included, does not depend on the order the results arrive in. */
  lemma BundleIsOrderFree(m: Manifest, baseline: seq<BenchResult>, candidate: seq<BenchResult>,
                          baseline2: seq<BenchResult>, candidate2: seq<BenchResult>, policy: Policy,
                          order: seq<PairKey>, order2: seq<PairKey>)
    requires multiset(baseline) == multiset(baseline2) && multiset(candidate) == multiset(candidate2)
    requires Enumerates(order, KeysOf(baseline)) && Enumerates(order2, KeysOf(baseline2))
    requires EvaluatedCorpus(m, baseline, candidate, policy, order).Ok?
    ensures EvaluatedCorpus(m, baseline2, candidate2, policy, order2) ==
            EvaluatedCorpus(m, baseline, candidate, policy, order)
  {
    hide CoverageError, Evaluated, EvaluatedCorpus, BaselinePlan, CandidatePlan, InPlanOrder, AsSet, ResultError,
         KeysOf, Enumerates;
    CorpusAcceptsIff(m, baseline, candidate, policy, order);
    CoverageIsOrderFree(m, baseline, candidate, baseline2, candidate2);
    EvaluationIsOrderFree(baseline, candidate, baseline2, candidate2, m.candidate, policy, order, order2);
    CorpusAcceptsIff(m, baseline2, candidate2, policy, order2);
    var r := EvaluatedCorpus(m, baseline, candidate, policy, order).value;
    var s := EvaluatedCorpus(m, baseline2, candidate2, policy, order2).value;
    CoveredPlans(m, baseline, candidate);
    PlanOrderUnique(r.baseline, baseline, s.baseline, baseline2, BaselinePlan(m));
    PlanOrderUnique(r.candidate, candidate, s.candidate, candidate2, CandidatePlan(m));
  }
}
