/** The capabilities a model request needs, and the check against those a model offers. */
module Features {
  import opened Common

  datatype ResultItem = ResultText | ResultImage | ResultDocument | ResultAudio

  datatype Block = TextBlock | ToolCallBlock | ToolResultBlock(content: seq<ResultItem>) | ReasoningBlock | ImageBlock
                 | DocumentBlock | AudioBlock

  datatype Needed = ToolUse | Reasoning | StructuredOutput | PromptCaching | Vision | DocumentInput | AudioInput

  datatype Feature =
    | ToolDefinitions | ToolHistory | ReasoningRequest | ReasoningHistory | OutputSchema
    | SystemCacheHint | ToolCacheHint
    | DirectImage | ToolResultImage | DirectDocument | ToolResultDocument | DirectAudio | ToolResultAudio

  /** The parts of a request the scan looks at; each tool and system item by its cache hint. */
  datatype ModelRequest = ModelRequest(
    messages: seq<seq<Block>>,
    toolHints: seq<bool>,
    systemHints: seq<bool>,
    reasoning: bool,
    outputSchema: bool)

  datatype Scan = Scan(
    tool: bool, reasoning: bool, image: bool, resultImage: bool, document: bool, resultDocument: bool, audio: bool,
    resultAudio: bool)

  const NOTHING: Scan := Scan(false, false, false, false, false, false, false, false)

  function WithResult(s: Scan, content: seq<ResultItem>): Scan {
    s.(resultImage := s.resultImage || ResultImage in content,
       resultDocument := s.resultDocument || ResultDocument in content,
       resultAudio := s.resultAudio || ResultAudio in content)
  }

  function Visited(s: Scan, b: Block): Scan {
    match b
    case ToolCallBlock => s.(tool := true)
    case ToolResultBlock(content) => WithResult(s.(tool := true), content)
    case ReasoningBlock => s.(reasoning := true)
    case ImageBlock => s.(image := true)
    case DocumentBlock => s.(document := true)
    case AudioBlock => s.(audio := true)
    case TextBlock => s
  }

  /** `FeatureScan`. */
  class FeatureScan {
    var scan: Scan

    constructor ()
      ensures scan == NOTHING
    {
      scan := NOTHING;
    }

    method Visit(b: Block)
      modifies this
      ensures scan == Visited(old(scan), b)
    {
      match b {
        case ToolCallBlock => scan := scan.(tool := true);
        case ToolResultBlock(content) =>
          scan := scan.(tool := true);
          VisitResult(content);
        case ReasoningBlock => scan := scan.(reasoning := true);
        case ImageBlock => scan := scan.(image := true);
        case DocumentBlock => scan := scan.(document := true);
        case AudioBlock => scan := scan.(audio := true);
        case TextBlock =>
      }
    }

    method VisitResult(content: seq<ResultItem>)
      modifies this
      ensures scan == WithResult(old(scan), content)
    {
      for i := 0 to |content|
        invariant scan == WithResult(old(scan), content[..i])
      {
        assert content[..i + 1] == content[..i] + [content[i]];
        scan := scan.(resultImage := scan.resultImage || content[i] == ResultImage,
                      resultDocument := scan.resultDocument || content[i] == ResultDocument,
                      resultAudio := scan.resultAudio || content[i] == ResultAudio);
      }
      assert content[..|content|] == content;
    }
  }

  function ScanOf(blocks: seq<Block>): Scan {
    if blocks == [] then NOTHING else Visited(ScanOf(blocks[..|blocks| - 1]), blocks[|blocks| - 1])
  }

  function Flat(messages: seq<seq<Block>>): seq<Block> {
    if messages == [] then [] else Flat(messages[..|messages| - 1]) + messages[|messages| - 1]
  }

  /** Whether a capability is required, from the options of the request and the scan of its messages. */
  predicate Wanted(r: ModelRequest, s: Scan, c: Needed) {
    match c
    case ToolUse => r.toolHints != [] || s.tool
    case Reasoning => r.reasoning || s.reasoning
    case StructuredOutput => r.outputSchema
    case PromptCaching => true in r.systemHints || true in r.toolHints
    case Vision => s.image || s.resultImage
    case DocumentInput => s.document || s.resultDocument
    case AudioInput => s.audio || s.resultAudio
  }

  /** The feature reported for a required capability. */
  function FeatureFor(r: ModelRequest, s: Scan, c: Needed): Feature {
    match c
    case ToolUse => if r.toolHints != [] then ToolDefinitions else ToolHistory
    case Reasoning => if r.reasoning then ReasoningRequest else ReasoningHistory
    case StructuredOutput => OutputSchema
    case PromptCaching => if true in r.systemHints then SystemCacheHint else ToolCacheHint
    case Vision => if s.image then DirectImage else ToolResultImage
    case DocumentInput => if s.document then DirectDocument else ToolResultDocument
    case AudioInput => if s.audio then DirectAudio else ToolResultAudio
  }

  /** The order in which requirements are listed. */
  const LISTED: seq<Needed> :=
    [ToolUse, Reasoning, StructuredOutput, PromptCaching, Vision, DocumentInput, AudioInput]

  function Listed(r: ModelRequest, s: Scan, cs: seq<Needed>): seq<(Needed, Feature)> {
    if cs == [] then []
    else
      var init, c := cs[..|cs| - 1], cs[|cs| - 1];
      Listed(r, s, init) + if Wanted(r, s, c) then [(c, FeatureFor(r, s, c))] else []
  }

  /** `requirements`. */
  function Requirements(r: ModelRequest): seq<(Needed, Feature)> {
    Listed(r, ScanOf(Flat(r.messages)), LISTED)
  }

  /** `required_model_capabilities`, as a set of capabilities. */
  function Union(rs: seq<(Needed, Feature)>): set<Needed> {
    if rs == [] then {} else Union(rs[..|rs| - 1]) + {rs[|rs| - 1].0}
  }

  /** `validate_model_request_capabilities`: the first requirement that is not available, if there is one. */
  method ValidateRequest(r: ModelRequest, available: set<Needed>) returns (missing: Option<(Needed, Feature)>)
    ensures missing.None? <==> Union(Requirements(r)) <= available
    ensures missing.Some? ==>
              exists i :: 0 <= i < |Requirements(r)| && Requirements(r)[i] == missing.value &&
                          missing.value.0 !in available && Union(Requirements(r)[..i]) <= available
  {
    hide Requirements;
    var rs := Requirements(r);
    for i := 0 to |rs|
      invariant Union(rs[..i]) <= available
    {
      assert rs[..i + 1][..|rs[..i + 1]| - 1] == rs[..i];
      if rs[i].0 !in available {
        UnionHolds(rs, i);
        return Some(rs[i]);
      }
    }
    assert rs[..|rs|] == rs;
    missing := None;
  }

  lemma {:induction false} UnionHolds(rs: seq<(Needed, Feature)>, i: nat)
    requires i < |rs|
    ensures rs[i].0 in Union(rs)
  {
    if i < |rs| - 1 {
      UnionHolds(rs[..|rs| - 1], i);
    }
  }

  // ---------------------------------------------------------------------------
  // What a request needs
  // ---------------------------------------------------------------------------

  predicate BlockNeeds(b: Block, c: Needed) {
    match c
    case ToolUse => b.ToolCallBlock? || b.ToolResultBlock?
    case Reasoning => b.ReasoningBlock?
    case Vision => b.ImageBlock? || (b.ToolResultBlock? && ResultImage in b.content)
    case DocumentInput => b.DocumentBlock? || (b.ToolResultBlock? && ResultDocument in b.content)
    case AudioInput => b.AudioBlock? || (b.ToolResultBlock? && ResultAudio in b.content)
    case _ => false
  }

  ghost predicate SomeBlockNeeds(messages: seq<seq<Block>>, c: Needed) {
    exists m, b :: m in messages && b in m && BlockNeeds(b, c)
  }

  /** A request needs a capability for its own options or for a block of some message. */
  ghost predicate Needs(r: ModelRequest, c: Needed) {
    || (c == ToolUse && r.toolHints != [])
    || (c == Reasoning && r.reasoning)
    || (c == StructuredOutput && r.outputSchema)
    || (c == PromptCaching && (true in r.systemHints || true in r.toolHints))
    || SomeBlockNeeds(r.messages, c)
  }

  predicate ScanNeeds(s: Scan, c: Needed) {
    match c
    case ToolUse => s.tool
    case Reasoning => s.reasoning
    case Vision => s.image || s.resultImage
    case DocumentInput => s.document || s.resultDocument
    case AudioInput => s.audio || s.resultAudio
    case _ => false
  }

  lemma {:induction false} ScanIff(blocks: seq<Block>, c: Needed)
    ensures ScanNeeds(ScanOf(blocks), c) <==> exists b :: b in blocks && BlockNeeds(b, c)
  {
    hide ScanNeeds, BlockNeeds, Visited;
    NothingNeeded(c);
    if blocks != [] {
      var init, last := blocks[..|blocks| - 1], blocks[|blocks| - 1];
      assert blocks == init + [last];
      ScanIff(init, c);
      VisitNeeds(ScanOf(init), last, c);
    }
  }

  lemma VisitNeeds(s: Scan, b: Block, c: Needed)
    ensures ScanNeeds(Visited(s, b), c) <==> ScanNeeds(s, c) || BlockNeeds(b, c)
  {
    match c {
      case ToolUse =>
      case Reasoning =>
      case Vision =>
      case DocumentInput =>
      case AudioInput =>
      case _ =>
    }
  }

  lemma NothingNeeded(c: Needed)
    ensures !ScanNeeds(NOTHING, c)
  {
  }

  lemma {:induction false} InFlat(messages: seq<seq<Block>>, b: Block)
    ensures b in Flat(messages) <==> exists m :: m in messages && b in m
  {
    if messages != [] {
      var init, last := messages[..|messages| - 1], messages[|messages| - 1];
      assert messages == init + [last];
      InFlat(init, b);
    }
  }

  lemma ScanOfMessages(messages: seq<seq<Block>>, c: Needed)
    ensures ScanNeeds(ScanOf(Flat(messages)), c) <==> SomeBlockNeeds(messages, c)
  {
    hide BlockNeeds, ScanNeeds, ScanOf, Flat;
    ScanIff(Flat(messages), c);
    forall b ensures b in Flat(messages) <==> exists m :: m in messages && b in m {
      InFlat(messages, b);
    }
  }

  lemma {:induction false} ListedIff(r: ModelRequest, s: Scan, cs: seq<Needed>, c: Needed)
    ensures c in Union(Listed(r, s, cs)) <==> c in cs && Wanted(r, s, c)
  {
    hide Wanted, FeatureFor;
    if cs != [] {
      var init, last := cs[..|cs| - 1], cs[|cs| - 1];
      assert cs == init + [last];
      ListedIff(r, s, init, c);
      if Wanted(r, s, last) {
        assert Listed(r, s, cs)[..|Listed(r, s, cs)| - 1] == Listed(r, s, init);
      } else {
        assert Listed(r, s, cs) == Listed(r, s, init);
      }
    }
  }

  lemma AllListed(c: Needed)
    ensures c in LISTED
  {
    assert LISTED[0] == ToolUse && LISTED[1] == Reasoning && LISTED[2] == StructuredOutput;
    assert LISTED[3] == PromptCaching && LISTED[4] == Vision && LISTED[5] == DocumentInput && LISTED[6] == AudioInput;
  }

  /** The folded union holds exactly the capabilities the request needs. */
  lemma RequiredIff(r: ModelRequest, c: Needed)
    ensures c in Union(Requirements(r)) <==> Needs(r, c)
  {
    hide Union, ScanOf, Flat, Listed, SomeBlockNeeds;
    var s := ScanOf(Flat(r.messages));
    ScanOfMessages(r.messages, c);
    ListedIff(r, s, LISTED, c);
    AllListed(c);
    NoBlockNeeds(r.messages);
  }

  lemma NoBlockNeeds(messages: seq<seq<Block>>)
    ensures !SomeBlockNeeds(messages, StructuredOutput) && !SomeBlockNeeds(messages, PromptCaching)
  {
  }

  /** More messages, in any order and wherever they are inserted, can only require more. */
  lemma RequirementsGrow(r: ModelRequest, r2: ModelRequest)
    requires r2 == r.(messages := r2.messages) && forall m :: m in r.messages ==> m in r2.messages
    ensures Union(Requirements(r)) <= Union(Requirements(r2))
  {
    hide Union, Requirements, BlockNeeds;
    forall c | c in Union(Requirements(r)) ensures c in Union(Requirements(r2)) {
      RequiredIff(r, c);
      RequiredIff(r2, c);
    }
  }

  /** The order of the messages does not matter. */
  lemma RequirementsIgnoreOrder(r: ModelRequest, r2: ModelRequest)
    requires r2 == r.(messages := r2.messages) && multiset(r.messages) == multiset(r2.messages)
    ensures Union(Requirements(r)) == Union(Requirements(r2))
  {
    hide Union, Requirements;
    forall m ensures m in r.messages <==> m in r2.messages {
      assert m in r.messages <==> m in multiset(r.messages);
      assert m in r2.messages <==> m in multiset(r2.messages);
    }
    RequirementsGrow(r, r2);
    RequirementsGrow(r2, r);
  }

  // ---------------------------------------------------------------------------
  // The features that are reported
  // ---------------------------------------------------------------------------

  predicate HoldsItem(b: Block, item: ResultItem) {
    b.ToolResultBlock? && item in b.content
  }

  /** The capability a feature calls for. */
  function CalledFor(f: Feature): Needed {
    match f
    case ToolDefinitions => ToolUse
    case ToolHistory => ToolUse
    case ReasoningRequest => Reasoning
    case ReasoningHistory => Reasoning
    case OutputSchema => StructuredOutput
    case SystemCacheHint => PromptCaching
    case ToolCacheHint => PromptCaching
    case DirectImage => Vision
    case ToolResultImage => Vision
    case DirectDocument => DocumentInput
    case ToolResultDocument => DocumentInput
    case DirectAudio => AudioInput
    case ToolResultAudio => AudioInput
  }

  /** What makes a request show a feature: an option of its own, or a block of some message. */
  ghost predicate Shows(r: ModelRequest, f: Feature) {
    match f
    case ToolDefinitions => r.toolHints != []
    case ReasoningRequest => r.reasoning
    case OutputSchema => r.outputSchema
    case SystemCacheHint => true in r.systemHints
    case ToolCacheHint => true in r.toolHints
    case _ => SomeBlockShows(r.messages, f)
  }

  /** The feature that is preferred for the same capability. */
  function Preferred(f: Feature): Option<Feature> {
    match f
    case ToolHistory => Some(ToolDefinitions)
    case ReasoningHistory => Some(ReasoningRequest)
    case ToolCacheHint => Some(SystemCacheHint)
    case ToolResultImage => Some(DirectImage)
    case ToolResultDocument => Some(DirectDocument)
    case ToolResultAudio => Some(DirectAudio)
    case _ => None
  }

  /** The flag of the scan a history feature is read from. */
  predicate Flag(s: Scan, f: Feature) {
    match f
    case ToolHistory => s.tool
    case ReasoningHistory => s.reasoning
    case DirectImage => s.image
    case ToolResultImage => s.resultImage
    case DirectDocument => s.document
    case ToolResultDocument => s.resultDocument
    case DirectAudio => s.audio
    case ToolResultAudio => s.resultAudio
    case _ => false
  }

  predicate BlockShows(b: Block, f: Feature) {
    match f
    case ToolHistory => b.ToolCallBlock? || b.ToolResultBlock?
    case ReasoningHistory => b.ReasoningBlock?
    case DirectImage => b.ImageBlock?
    case ToolResultImage => HoldsItem(b, ResultImage)
    case DirectDocument => b.DocumentBlock?
    case ToolResultDocument => HoldsItem(b, ResultDocument)
    case DirectAudio => b.AudioBlock?
    case ToolResultAudio => HoldsItem(b, ResultAudio)
    case _ => false
  }

  lemma VisitFlags(s: Scan, b: Block, f: Feature)
    ensures Flag(Visited(s, b), f) <==> Flag(s, f) || BlockShows(b, f)
  {
    match f {
      case ToolHistory =>
      case ReasoningHistory =>
      case DirectImage =>
      case ToolResultImage =>
      case DirectDocument =>
      case ToolResultDocument =>
      case DirectAudio =>
      case ToolResultAudio =>
      case _ =>
    }
  }

  lemma NoFlags(f: Feature)
    ensures !Flag(NOTHING, f)
  {
  }

  lemma {:induction false} FlagIff(blocks: seq<Block>, f: Feature)
    ensures Flag(ScanOf(blocks), f) <==> exists b :: b in blocks && BlockShows(b, f)
  {
    hide Flag, BlockShows, Visited;
    NoFlags(f);
    if blocks != [] {
      var init, last := blocks[..|blocks| - 1], blocks[|blocks| - 1];
      assert blocks == init + [last];
      FlagIff(init, f);
      VisitFlags(ScanOf(init), last, f);
    }
  }

  ghost predicate SomeBlockShows(messages: seq<seq<Block>>, f: Feature) {
    exists m, b :: m in messages && b in m && BlockShows(b, f)
  }

  lemma FlagOfMessages(messages: seq<seq<Block>>, f: Feature)
    ensures Flag(ScanOf(Flat(messages)), f) <==> SomeBlockShows(messages, f)
  {
    hide BlockShows, Flag, ScanOf, Flat;
    FlagIff(Flat(messages), f);
    forall b ensures b in Flat(messages) <==> exists m :: m in messages && b in m {
      InFlat(messages, b);
    }
  }

  lemma {:induction false} ListedEntryIff(r: ModelRequest, s: Scan, cs: seq<Needed>, c: Needed, f: Feature)
    ensures (c, f) in Listed(r, s, cs) <==> c in cs && Wanted(r, s, c) && FeatureFor(r, s, c) == f
  {
    hide Wanted, FeatureFor;
    if cs != [] {
      var init, last := cs[..|cs| - 1], cs[|cs| - 1];
      assert cs == init + [last];
      ListedEntryIff(r, s, init, c, f);
    }
  }

  lemma WantedShows(r: ModelRequest, s: Scan, c: Needed, f: Feature)
    requires forall g :: Flag(s, g) <==> SomeBlockShows(r.messages, g)
    ensures (Wanted(r, s, c) && FeatureFor(r, s, c) == f) <==>
            c == CalledFor(f) && Shows(r, f) && (Preferred(f).Some? ==> !Shows(r, Preferred(f).value))
  {
    hide SomeBlockShows;
    assert Flag(s, f) <==> SomeBlockShows(r.messages, f);
    assert Flag(s, ToolHistory) == s.tool && Flag(s, ReasoningHistory) == s.reasoning;
    assert Flag(s, DirectImage) == s.image && Flag(s, ToolResultImage) == s.resultImage;
    assert Flag(s, DirectDocument) == s.document && Flag(s, ToolResultDocument) == s.resultDocument;
    assert Flag(s, DirectAudio) == s.audio && Flag(s, ToolResultAudio) == s.resultAudio;
    match c {
      case ToolUse =>
      case Reasoning =>
      case StructuredOutput =>
      case PromptCaching =>
      case Vision =>
      case DocumentInput =>
      case AudioInput =>
    }
  }

  /**
    A requirement names a feature exactly when the request shows it, it calls for that
    capability, and the feature preferred to it is not shown.
   */
  lemma ReportedIff(r: ModelRequest, c: Needed, f: Feature)
    ensures (c, f) in Requirements(r) <==>
            c == CalledFor(f) && Shows(r, f) && (Preferred(f).Some? ==> !Shows(r, Preferred(f).value))
  {
    hide ScanOf, Flat, Listed, SomeBlockShows, Wanted, FeatureFor, Flag, Shows;
    var s := ScanOf(Flat(r.messages));
    forall g ensures Flag(s, g) <==> SomeBlockShows(r.messages, g) {
      FlagOfMessages(r.messages, g);
    }
    ListedEntryIff(r, s, LISTED, c, f);
    AllListed(c);
    WantedShows(r, s, c, f);
  }
}
