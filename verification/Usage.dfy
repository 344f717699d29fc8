/** Token accounting: records added with saturation, and what a fold of any list of them says. */
module Usage {
  import opened Common
  import opened Sums

  datatype TokenUsage = TokenUsage(
    inputTokens: U64,
    outputTokens: U64,
    cacheWrite: Option<U64>,
    cacheRead: Option<U64>,
    details: Details)

  datatype Details = Details(
    reportedTotal: Option<U64>,
    cacheWrite5m: Option<U64>,
    cacheWrite1h: Option<U64>,
    reasoning: Option<U64>,
    audioInput: Option<U64>,
    audioOutput: Option<U64>,
    acceptedPrediction: Option<U64>,
    rejectedPrediction: Option<U64>)

  const NO_DETAILS: Details := Details(None, None, None, None, None, None, None, None)

  const NO_USAGE: TokenUsage := TokenUsage(0, 0, None, None, NO_DETAILS)

  function OrZero(o: Option<U64>): U64 {
    if o.Some? then o.value else 0
  }

  function AddOptional(total: Option<U64>, next: Option<U64>): Option<U64> {
    if total.None? && next.None? then None else Some(SatAdd(OrZero(total), OrZero(next)))
  }

  function AddedDetails(a: Details, b: Details): Details {
    Details(AddOptional(a.reportedTotal, b.reportedTotal),
            AddOptional(a.cacheWrite5m, b.cacheWrite5m),
            AddOptional(a.cacheWrite1h, b.cacheWrite1h),
            AddOptional(a.reasoning, b.reasoning),
            AddOptional(a.audioInput, b.audioInput),
            AddOptional(a.audioOutput, b.audioOutput),
            AddOptional(a.acceptedPrediction, b.acceptedPrediction),
            AddOptional(a.rejectedPrediction, b.rejectedPrediction))
  }

  function Added(a: TokenUsage, b: TokenUsage): TokenUsage {
    TokenUsage(SatAdd(a.inputTokens, b.inputTokens), SatAdd(a.outputTokens, b.outputTokens),
               AddOptional(a.cacheWrite, b.cacheWrite), AddOptional(a.cacheRead, b.cacheRead),
               AddedDetails(a.details, b.details))
  }

  /** `total_input_tokens`. */
  function TotalInput(u: TokenUsage): U64 {
    SatAdd(SatAdd(u.inputTokens, OrZero(u.cacheWrite)), OrZero(u.cacheRead))
  }

  /** A usage record that is added to in place. */
  class UsageTotal {
    var inputTokens: U64
    var outputTokens: U64
    var cacheWrite: Option<U64>
    var cacheRead: Option<U64>
    var details: Details

    function State(): TokenUsage
      reads this
    {
      TokenUsage(inputTokens, outputTokens, cacheWrite, cacheRead, details)
    }

    constructor ()
      ensures State() == NO_USAGE
    {
      inputTokens, outputTokens, cacheWrite, cacheRead, details := 0, 0, None, None, NO_DETAILS;
    }

    /** `saturating_add_assign`. */
    method SaturatingAddAssign(other: TokenUsage)
      modifies this
      ensures State() == Added(old(State()), other)
    {
      inputTokens := SatAdd(inputTokens, other.inputTokens);
      outputTokens := SatAdd(outputTokens, other.outputTokens);
      cacheWrite := AddOptional(cacheWrite, other.cacheWrite);
      cacheRead := AddOptional(cacheRead, other.cacheRead);
      details := AddedDetails(details, other.details);
    }
  }

  function Fold(us: seq<TokenUsage>): TokenUsage {
    if us == [] then NO_USAGE else Added(Fold(us[..|us| - 1]), us[|us| - 1])
  }

  // ---------------------------------------------------------------------------
  // What a fold holds
  // ---------------------------------------------------------------------------

  /** The dimensions a provider may leave out. */
  datatype Dimension =
    | CacheWrite | CacheRead | ReportedTotal | CacheWrite5m | CacheWrite1h | Reasoning | AudioInput | AudioOutput
    | AcceptedPrediction | RejectedPrediction

  function Reported(u: TokenUsage, d: Dimension): Option<U64> {
    match d
    case CacheWrite => u.cacheWrite
    case CacheRead => u.cacheRead
    case ReportedTotal => u.details.reportedTotal
    case CacheWrite5m => u.details.cacheWrite5m
    case CacheWrite1h => u.details.cacheWrite1h
    case Reasoning => u.details.reasoning
    case AudioInput => u.details.audioInput
    case AudioOutput => u.details.audioOutput
    case AcceptedPrediction => u.details.acceptedPrediction
    case RejectedPrediction => u.details.rejectedPrediction
  }

  function Capped(n: nat): U64 {
    if n > U64_MAX then U64_MAX else n
  }

  function Amount(d: Dimension): TokenUsage -> nat {
    u => OrZero(Reported(u, d))
  }

  function InputOf(): TokenUsage -> nat {
    (u: TokenUsage) => u.inputTokens
  }

  function OutputOf(): TokenUsage -> nat {
    (u: TokenUsage) => u.outputTokens
  }

  function TotalOf(): TokenUsage -> nat {
    u => TotalInput(u)
  }

  lemma AddedReported(a: TokenUsage, b: TokenUsage, d: Dimension)
    ensures Reported(Added(a, b), d) == AddOptional(Reported(a, d), Reported(b, d))
  {
  }

  /** The input total is input, cache writes and cache reads together, capped. */
  lemma TotalInputMeans(u: TokenUsage)
    ensures TotalInput(u) == Capped(u.inputTokens + OrZero(u.cacheWrite) + OrZero(u.cacheRead))
  {
  }

  /** The input total of a fold is the exact sum over all three dimensions, capped once. */
  lemma FoldTotalMeans(us: seq<TokenUsage>)
    ensures TotalInput(Fold(us)) ==
            Capped(Sum(us, InputOf()) + Sum(us, Amount(CacheWrite)) + Sum(us, Amount(CacheRead)))
  {
    hide Fold, Sum;
    FoldMeans(us, CacheWrite);
    FoldMeans(us, CacheRead);
    TotalInputMeans(Fold(us));
  }

  lemma AddedTotal(a: TokenUsage, b: TokenUsage)
    ensures TotalInput(Added(a, b)) == Capped(TotalInput(a) + TotalInput(b))
  {
  }

  /**
    A fold of any list: every required field is the exact sum, capped; an optional field is
    missing exactly when no record reported it, and otherwise the exact sum of those that
    did, capped; the input total is the capped sum of the input totals.
   */
  lemma FoldMeans(us: seq<TokenUsage>, d: Dimension)
    ensures Fold(us).inputTokens == Capped(Sum(us, InputOf()))
    ensures Fold(us).outputTokens == Capped(Sum(us, OutputOf()))
    ensures Reported(Fold(us), d).None? <==> forall i :: 0 <= i < |us| ==> Reported(us[i], d).None?
    ensures Reported(Fold(us), d).Some? ==> Reported(Fold(us), d).value == Capped(Sum(us, Amount(d)))
    ensures Reported(Fold(us), d).None? ==> Sum(us, Amount(d)) == 0
    ensures TotalInput(Fold(us)) == Capped(Sum(us, TotalOf()))
  {
    hide Reported, Fold, Sum;
    FoldRequired(us);
    FoldReported(us, d);
  }

  lemma {:induction false} FoldRequired(us: seq<TokenUsage>)
    ensures Fold(us).inputTokens == Capped(Sum(us, InputOf()))
    ensures Fold(us).outputTokens == Capped(Sum(us, OutputOf()))
    ensures TotalInput(Fold(us)) == Capped(Sum(us, TotalOf()))
  {
    hide AddedDetails, AddOptional, TotalInput;
    NothingReported(CacheRead);
    if us != [] {
      FoldRequired(us[..|us| - 1]);
      AddedTotal(Fold(us[..|us| - 1]), us[|us| - 1]);
    }
  }

  lemma {:induction false} FoldReported(us: seq<TokenUsage>, d: Dimension)
    ensures Reported(Fold(us), d).None? <==> forall i :: 0 <= i < |us| ==> Reported(us[i], d).None?
    ensures Reported(Fold(us), d).Some? ==> Reported(Fold(us), d).value == Capped(Sum(us, Amount(d)))
    ensures Reported(Fold(us), d).None? ==> Sum(us, Amount(d)) == 0
  {
    hide Reported, Added;
    if us == [] {
      NothingReported(d);
    } else {
      var init, last := us[..|us| - 1], us[|us| - 1];
      assert us == init + [last];
      FoldReported(init, d);
      AddedReported(Fold(init), last, d);
      assert forall i :: 0 <= i < |init| ==> init[i] == us[i];
    }
  }

  lemma NothingReported(d: Dimension)
    ensures Reported(NO_USAGE, d).None? && TotalInput(NO_USAGE) == 0
  {
  }

  /** A usage is its fields. */
  lemma SameFields(a: TokenUsage, b: TokenUsage)
    requires a.inputTokens == b.inputTokens && a.outputTokens == b.outputTokens
    requires forall d :: Reported(a, d) == Reported(b, d)
    ensures a == b
  {
    assert Reported(a, CacheWrite) == Reported(b, CacheWrite) && Reported(a, CacheRead) == Reported(b, CacheRead);
    assert Reported(a, ReportedTotal) == Reported(b, ReportedTotal) && Reported(a, Reasoning) == Reported(b, Reasoning);
    assert Reported(a, CacheWrite5m) == Reported(b, CacheWrite5m);
    assert Reported(a, CacheWrite1h) == Reported(b, CacheWrite1h);
    assert Reported(a, AudioInput) == Reported(b, AudioInput) && Reported(a, AudioOutput) == Reported(b, AudioOutput);
    assert Reported(a, AcceptedPrediction) == Reported(b, AcceptedPrediction);
    assert Reported(a, RejectedPrediction) == Reported(b, RejectedPrediction);
  }

  lemma InPermuted(us: seq<TokenUsage>, vs: seq<TokenUsage>, i: nat)
    requires multiset(us) == multiset(vs) && i < |vs|
    ensures vs[i] in us
  {
    assert vs[i] in multiset(vs);
    assert vs[i] in multiset(us);
  }

  lemma FoldReportedPermuted(us: seq<TokenUsage>, vs: seq<TokenUsage>, d: Dimension)
    requires multiset(us) == multiset(vs)
    ensures Reported(Fold(us), d) == Reported(Fold(vs), d)
  {
    hide Reported, Fold, Sum;
    FoldMeans(us, d);
    FoldMeans(vs, d);
    SumPermuted(us, vs, Amount(d));
    forall i | 0 <= i < |vs| ensures vs[i] in us {
      InPermuted(us, vs, i);
    }
    forall i | 0 <= i < |us| ensures us[i] in vs {
      InPermuted(vs, us, i);
    }
  }

  /** Folding in any order gives the same record. */
  lemma FoldIsOrderFree(us: seq<TokenUsage>, vs: seq<TokenUsage>)
    requires multiset(us) == multiset(vs)
    ensures Fold(us) == Fold(vs)
  {
    hide Reported, Fold, Sum;
    FoldMeans(us, CacheRead);
    FoldMeans(vs, CacheRead);
    SumPermuted(us, vs, InputOf());
    SumPermuted(us, vs, OutputOf());
    forall d ensures Reported(Fold(us), d) == Reported(Fold(vs), d) {
      FoldReportedPermuted(us, vs, d);
    }
    SameFields(Fold(us), Fold(vs));
  }

  /** Addition of usages is a commutative monoid. */
  lemma AddedIsMonoid(a: TokenUsage, b: TokenUsage, c: TokenUsage)
    ensures Added(a, b) == Added(b, a)
    ensures Added(Added(a, b), c) == Added(a, Added(b, c))
    ensures Added(a, NO_USAGE) == a
  {
    hide SatAdd;
    SatAddLaws(a.inputTokens, b.inputTokens, c.inputTokens);
    SatAddLaws(a.outputTokens, b.outputTokens, c.outputTokens);
    forall d ensures Reported(Added(a, b), d) == Reported(Added(b, a), d)
                  && Reported(Added(Added(a, b), c), d) == Reported(Added(a, Added(b, c)), d)
                  && Reported(Added(a, NO_USAGE), d) == Reported(a, d) {
      AddOptionalLaws(a, b, c, d);
    }
    SameFields(Added(a, b), Added(b, a));
    SameFields(Added(Added(a, b), c), Added(a, Added(b, c)));
    SameFields(Added(a, NO_USAGE), a);
  }

  lemma AddOptionalLaws(a: TokenUsage, b: TokenUsage, c: TokenUsage, d: Dimension)
    ensures Reported(Added(a, b), d) == Reported(Added(b, a), d)
    ensures Reported(Added(Added(a, b), c), d) == Reported(Added(a, Added(b, c)), d)
    ensures Reported(Added(a, NO_USAGE), d) == Reported(a, d)
  {
    hide Reported, AddedDetails, Added;
    AddedReported(a, b, d);
    AddedReported(b, a, d);
    AddedReported(Added(a, b), c, d);
    AddedReported(b, c, d);
    AddedReported(a, Added(b, c), d);
    AddedReported(a, NO_USAGE, d);
    NothingReported(d);
  }

  lemma SatAddLaws(a: U64, b: U64, c: U64)
    ensures SatAdd(a, b) == SatAdd(b, a) && SatAdd(SatAdd(a, b), c) == SatAdd(a, SatAdd(b, c)) && SatAdd(a, 0) == a
  {
  }
}
