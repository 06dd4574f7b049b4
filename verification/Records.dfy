/**
  Shaping proposals into exportable payloads. What a redaction level lets
  through is decided here and nowhere else.
 */
module Records {
  import opened Basics
  import opened FileNames

  /** The fields a payload can carry, and any other field a proposal may have. */
  datatype Field =
    | ProblemKey | WorkloadId | ServiceName | ServiceVersion | Organization
    | Grading | Confidence | RequiresHumanReview
    | FirstSeen | LastSeen | TotalOccurrences | AnalysisCount | MatchedPattern
    | Node
    | ErrorSummary | RootCause | RemediationSteps | Disclaimer
    | LogPath | LineNumber | LogContext
    | IdempotencyKey
    | OtherField(name: string)

  /** A JSON value; severities, timestamps and the fixed AI disclaimer are represented by what they mean. */
  datatype Value =
    | Null
    | Text(text: string)
    | Grade(severity: Severity)
    | Moment(stamp: Stamp)
    | Count(count: nat)
    | Amount(amount: real)
    | Flag(flag: bool)
    | Items(items: seq<Value>)
    | Object(fields: map<string, Value>)
    | DisclaimerText

  type Payload = map<Field, Value>

  datatype Proposal = Proposal(fields: map<Field, Value>, metadata: map<Field, Value>)

  datatype Level = Metadata | Analysis | Full | Unrecognised(text: string)

  /** `dict.get(field)`. */
  function Get(m: map<Field, Value>, f: Field): Value {
    if f in m then m[f] else Null
  }

  function StepsOf(v: Value): Value {
    if v.Items? then v else Items([])
  }

  // ---------- the redaction table ----------

  /** How revealing a field is. */
  datatype Sensitivity = Operational | NodeIdentity | Derived | Evidence | NeverSent

  function SensitivityOf(f: Field): Sensitivity {
    match f
    case Node => NodeIdentity
    case ErrorSummary | RootCause | RemediationSteps | Disclaimer => Derived
    case LogPath | LineNumber | LogContext => Evidence
    case IdempotencyKey | OtherField(_) => NeverSent
    case _ => Operational
  }

  /** May a level transmit a field? A level nobody knows is treated as the least one. */
  predicate Visible(f: Field, level: Level, node: map<string, Value>) {
    match SensitivityOf(f)
    case Operational => true
    case NodeIdentity => node != map[]
    case Derived => level.Analysis? || level.Full?
    case Evidence => level.Full?
    case NeverSent => false
  }

  /** Where each transmitted field comes from. */
  function ValueOf(p: Proposal, node: map<string, Value>, f: Field): Value {
    match f
    case Grading | Confidence | RequiresHumanReview | ErrorSummary | RootCause => Get(p.fields, f)
    case RemediationSteps => StepsOf(Get(p.fields, f))
    case Disclaimer => DisclaimerText
    case Node => Object(node)
    case _ => Get(p.metadata, f)
  }

  /** `payload` is what the table prescribes. */
  ghost predicate Shaped(payload: Payload, p: Proposal, node: map<string, Value>, level: Level) {
    forall f :: (f in payload <==> Visible(f, level, node)) && (f in payload ==> payload[f] == ValueOf(p, node, f))
  }

  function LevelRank(level: Level): nat {
    match level
    case Metadata => 0
    case Analysis => 1
    case Full => 2
    case Unrecognised(_) => 0
  }

  /** Clamp a sink's level to what the workload has consented to. */
  function EffectiveLevel(requested: Level, permitsContent: bool): Level {
    if (requested.Analysis? || requested.Full?) && !permitsContent then Metadata else requested
  }

  const IDENTITY_FIELDS := {ProblemKey, WorkloadId, ServiceName, ServiceVersion, Organization,
                            FirstSeen, LastSeen, TotalOccurrences, AnalysisCount, MatchedPattern}
  const JUDGEMENT_FIELDS := {Grading, Confidence, RequiresHumanReview}
  const EVIDENCE_FIELDS := {LogPath, LineNumber, LogContext}

  /** Copy fields of the same name. */
  function Copied(m: map<Field, Value>, fields: set<Field>): Payload {
    map f | f in fields :: Get(m, f)
  }

  function MetadataPart(p: Proposal, node: map<string, Value>): Payload {
    Copied(p.metadata, IDENTITY_FIELDS) + Copied(p.fields, JUDGEMENT_FIELDS)
    + if node == map[] then map[] else map[Node := Object(node)]
  }

  function AnalysisPart(p: Proposal): Payload {
    Copied(p.fields, {ErrorSummary, RootCause})
    + map[RemediationSteps := StepsOf(Get(p.fields, RemediationSteps)), Disclaimer := DisclaimerText]
  }

  function FullPart(p: Proposal): Payload {
    Copied(p.metadata, EVIDENCE_FIELDS)
  }

  /** Fields are added level by level, never removed; an unknown level falls back to the least. */
  function Layers(metadata: Payload, analysis: Payload, full: Payload, requested: Level): Payload {
    var level := if requested.Unrecognised? then Metadata else requested;
    metadata
    + (if LevelRank(level) >= LevelRank(Analysis) then analysis else map[])
    + (if LevelRank(level) >= LevelRank(Full) then full else map[])
  }

  lemma LayersOf(metadata: Payload, analysis: Payload, full: Payload, level: Level, f: Field)
    ensures f in Layers(metadata, analysis, full, level) <==>
            || f in metadata
            || (f in analysis && (level.Analysis? || level.Full?))
            || (f in full && level.Full?)
    ensures f in metadata && f !in analysis && f !in full ==> Layers(metadata, analysis, full, level)[f] == metadata[f]
    ensures f in analysis && f !in full && (level.Analysis? || level.Full?) ==>
              Layers(metadata, analysis, full, level)[f] == analysis[f]
    ensures f in full && level.Full? ==> Layers(metadata, analysis, full, level)[f] == full[f]
  {
  }

  /** `build_record` */
  function BuildPayload(p: Proposal, requested: Level, node: map<string, Value>): Payload {
    Layers(MetadataPart(p, node), AnalysisPart(p), FullPart(p), requested)
  }

  /** What is built for a level is what the redaction table prescribes for it. */
  lemma PayloadIsShaped(p: Proposal, requested: Level, node: map<string, Value>)
    ensures Shaped(BuildPayload(p, requested, node), p, node, requested)
  {
    forall f
      ensures f in BuildPayload(p, requested, node) <==> Visible(f, requested, node)
      ensures f in BuildPayload(p, requested, node) ==> BuildPayload(p, requested, node)[f] == ValueOf(p, node, f)
    {
      FieldIsShaped(p, requested, node, f);
    }
  }

  lemma KindsOfField(f: Field)
    ensures SensitivityOf(f) == Operational <==> f in IDENTITY_FIELDS + JUDGEMENT_FIELDS
    ensures f in IDENTITY_FIELDS ==> forall p, node :: ValueOf(p, node, f) == Get(p.metadata, f)
    ensures f in JUDGEMENT_FIELDS ==> forall p, node :: ValueOf(p, node, f) == Get(p.fields, f)
    ensures f in IDENTITY_FIELDS ==> f !in JUDGEMENT_FIELDS
  {
  }

  lemma InMetadataPart(p: Proposal, node: map<string, Value>, f: Field)
    ensures f in MetadataPart(p, node) <==>
            SensitivityOf(f) == Operational || (SensitivityOf(f) == NodeIdentity && node != map[])
  {
    KindsOfField(f);
  }

  lemma MetadataPartValue(p: Proposal, node: map<string, Value>, f: Field)
    requires f in MetadataPart(p, node)
    ensures MetadataPart(p, node)[f] == ValueOf(p, node, f)
  {
    KindsOfField(f);
    if f in IDENTITY_FIELDS {
      assert f in Copied(p.metadata, IDENTITY_FIELDS);
    } else if f in JUDGEMENT_FIELDS {
      assert f in Copied(p.fields, JUDGEMENT_FIELDS);
    }
  }

  lemma InContentParts(p: Proposal, node: map<string, Value>, f: Field)
    ensures f in AnalysisPart(p) <==> SensitivityOf(f) == Derived
    ensures f in AnalysisPart(p) ==> AnalysisPart(p)[f] == ValueOf(p, node, f)
    ensures f in FullPart(p) <==> SensitivityOf(f) == Evidence
    ensures f in FullPart(p) ==> FullPart(p)[f] == ValueOf(p, node, f)
  {
  }

  lemma FieldIsShaped(p: Proposal, requested: Level, node: map<string, Value>, f: Field)
    ensures f in BuildPayload(p, requested, node) <==> Visible(f, requested, node)
    ensures f in BuildPayload(p, requested, node) ==> BuildPayload(p, requested, node)[f] == ValueOf(p, node, f)
  {
    var a, b, c := MetadataPart(p, node), AnalysisPart(p), FullPart(p);
    InMetadataPart(p, node, f);
    InContentParts(p, node, f);
    if f in a {
      MetadataPartValue(p, node, f);
    }
    LayersOf(a, b, c, requested, f);
    assert BuildPayload(p, requested, node) == Layers(a, b, c, requested);
  }

  // ---------- non-interference ----------

  /** Two proposals with the same identity, severity and counts; their content may differ. */
  ghost predicate AgreeOnMetadata(p: Proposal, q: Proposal) {
    forall f | SensitivityOf(f) == Operational :: ValueOf(p, map[], f) == ValueOf(q, map[], f)
  }

  ghost predicate HidesContent(level: Level) {
    forall p, q, node | AgreeOnMetadata(p, q) :: BuildPayload(p, level, node) == BuildPayload(q, level, node)
  }

  lemma ShapedAlike(a: Payload, b: Payload, p: Proposal, q: Proposal, level: Level, node: map<string, Value>)
    requires Shaped(a, p, node, level) && Shaped(b, q, node, level)
    requires AgreeOnMetadata(p, q) && !level.Analysis? && !level.Full?
    ensures a == b
  {
    forall f ensures f in a <==> f in b
             ensures f in a ==> a[f] == b[f]
    {
      assert f in a <==> Visible(f, level, node);
      assert f in b <==> Visible(f, level, node);
      if SensitivityOf(f) == Operational {
        assert ValueOf(p, map[], f) == ValueOf(q, map[], f);
      }
    }
  }

  lemma RootCauseShows(p: Proposal, q: Proposal, level: Level, node: map<string, Value>)
    requires level.Analysis? || level.Full?
    requires ValueOf(p, node, RootCause) != ValueOf(q, node, RootCause)
    ensures BuildPayload(p, level, node) != BuildPayload(q, level, node)
  {
    FieldIsShaped(p, level, node, RootCause);
    FieldIsShaped(q, level, node, RootCause);
  }

  lemma TwoCauses() returns (p: Proposal, q: Proposal)
    ensures AgreeOnMetadata(p, q) && ValueOf(p, map[], RootCause) != ValueOf(q, map[], RootCause)
  {
    p, q := Proposal(map[RootCause := Null], map[]), Proposal(map[RootCause := DisclaimerText], map[]);
  }

  lemma ContentShows(level: Level)
    requires level.Analysis? || level.Full?
    ensures !HidesContent(level)
  {
    var p, q := TwoCauses();
    RootCauseShows(p, q, level, map[]);
  }

  /** Content can influence a payload exactly when a content level was asked for and consented to. */
  lemma ContentNeedsConsent(requested: Level, permitsContent: bool)
    ensures HidesContent(EffectiveLevel(requested, permitsContent)) <==>
            !(permitsContent && (requested.Analysis? || requested.Full?))
  {
    var level := EffectiveLevel(requested, permitsContent);
    if level.Analysis? || level.Full? {
      ContentShows(level);
    } else {
      forall p, q, node | AgreeOnMetadata(p, q)
        ensures BuildPayload(p, level, node) == BuildPayload(q, level, node)
      {
        PayloadIsShaped(p, level, node);
        PayloadIsShaped(q, level, node);
        ShapedAlike(BuildPayload(p, level, node), BuildPayload(q, level, node), p, q, level, node);
      }
    }
  }

  ghost predicate SubPayload(a: Payload, b: Payload) {
    forall f | f in a :: f in b && a[f] == b[f]
  }

  /** Each level transmits all the one below it does, unaltered. */
  lemma LevelsAreNested(p: Proposal, node: map<string, Value>)
    ensures SubPayload(BuildPayload(p, Metadata, node), BuildPayload(p, Analysis, node))
    ensures SubPayload(BuildPayload(p, Analysis, node), BuildPayload(p, Full, node))
  {
    PayloadIsShaped(p, Metadata, node);
    PayloadIsShaped(p, Analysis, node);
    PayloadIsShaped(p, Full, node);
  }

  // ---------- idempotency keys ----------

  function Decimal(n: nat): string {
    Pad(n, 1)
  }

  /** One problem at one occurrence tally. */
  function KeyOf(problemKey: string, total: nat): string {
    problemKey + "-" + Decimal(total)
  }

  lemma LastHyphenIsHere(p: string, d: string, i: nat)
    requires AllDigits(d) && i < |p + "-" + d| && (p + "-" + d)[i] == '-'
    ensures i <= |p|
  {
    var s := p + "-" + d;
    assert forall k | |p| < k < |s| :: s[k] == d[k - |p| - 1];
  }

  /** A digit string is recovered from what precedes it by the last hyphen. */
  lemma SplitAtLastHyphen(p: string, d: string, q: string, e: string)
    requires AllDigits(d) && AllDigits(e) && p + "-" + d == q + "-" + e
    ensures p == q && d == e
  {
    var s := p + "-" + d;
    assert s[|p|] == '-' && s[|q|] == '-';
    LastHyphenIsHere(p, d, |q|);
    LastHyphenIsHere(q, e, |p|);
    assert p == s[..|p|] && q == s[..|q|];
    assert d == s[|p| + 1..] && e == s[|q| + 1..];
  }

  /** Keys of different problems, or of one problem at different tallies, are different. */
  lemma KeysAreInjective(p: string, m: nat, q: string, n: nat)
    ensures KeyOf(p, m) == KeyOf(q, n) <==> p == q && m == n
  {
    if KeyOf(p, m) == KeyOf(q, n) {
      PadIsDigits(m, 1);
      PadIsDigits(n, 1);
      SplitAtLastHyphen(p, Decimal(m), q, Decimal(n));
      PadIsInjective(m, n, 1);
    }
  }
}
