/** The records the monitor reads and writes, its enumerations, its threshold configuration
    with the shipped defaults, and the field validators run when a parser item is built. */
module Models {
  datatype Option<T> = None | Some(value: T)

  datatype Result<T, E> = Ok(value: T) | Err(error: E)

  // ---------------------------------------------------------------- enumerations

  datatype Domain = Symptom | Food | Emotion | Mind {
    /** The enum's string value (`domain.value`). */
    function Value(): string {
      match this
      case Symptom => "symptom"
      case Food => "food"
      case Emotion => "emotion"
      case Mind => "mind"
    }
  }

  lemma DomainValueInjective(a: Domain, b: Domain)
    ensures a.Value() == b.Value() <==> a == b
  {
  }

  datatype Polarity = Present | Absent {
    function Value(): string {
      match this
      case Present => "present"
      case Absent => "absent"
    }
  }

  datatype AlertLevel = Info | Warning | Critical

  datatype CanaryAction = Pass | Alert | HumanReview | Rollback

  datatype DriftStatus = Stable | Drift | Breakage {
    function Value(): string {
      match this
      case Stable => "STABLE"
      case Drift => "DRIFT"
      case Breakage => "BREAKAGE"
    }
  }

  // ---------------------------------------------------------------- input records

  /** One extracted item. `confidence` is the float the parser reported. */
  datatype ParserItem = ParserItem(
    domain: Domain,
    text: string,
    evidenceSpan: string,
    polarity: Polarity,
    timeBucket: string,
    intensityBucket: Option<string>,
    arousalBucket: Option<string>,
    confidence: real)

  datatype ParserOutput = ParserOutput(journalId: string, items: seq<ParserItem>)

  datatype JournalEntry = JournalEntry(journalId: string, createdAt: string, text: string, langHint: string)

  /** A hand-labelled item: it has no `text` and no `confidence`. */
  datatype GoldItem = GoldItem(
    domain: Domain,
    evidenceSpan: string,
    polarity: Polarity,
    timeBucket: string,
    intensityBucket: Option<string>,
    arousalBucket: Option<string>)

  datatype GoldLabel = GoldLabel(journalId: string, items: seq<GoldItem>)

  /** `ParserOutput(journal_id=...)`: the item list defaults to empty. */
  function NewParserOutput(journalId: string): (r: ParserOutput)
    ensures r.journalId == journalId && |r.items| == 0
  {
    ParserOutput(journalId, [])
  }

  /** `GoldLabel(journal_id=...)`: the item list defaults to empty. */
  function NewGoldLabel(journalId: string): (r: GoldLabel)
    ensures r.journalId == journalId && |r.items| == 0
  {
    GoldLabel(journalId, [])
  }

  // ---------------------------------------------------------------- validation

  const IntensityValues: seq<string> := ["low", "medium", "high", "unknown"]
  const ArousalValues: seq<string> := ["low", "medium", "high"]

  predicate IntensityAllowed(v: Option<string>) {
    v.None? || v.value in IntensityValues
  }

  predicate ArousalAllowed(v: Option<string>) {
    v.None? || v.value in ArousalValues
  }

  /** A parser item that construction accepts. */
  predicate ValidParserItem(item: ParserItem) {
    IntensityAllowed(item.intensityBucket) && ArousalAllowed(item.arousalBucket)
    && 0.0 <= item.confidence <= 1.0
  }

  /** Why construction refuses an item, one entry per failing field. */
  datatype FieldError =
    | BadIntensityBucket(value: string)
    | BadArousalBucket(value: string)
    | ConfidenceBelowZero
    | ConfidenceAboveOne

  /** The errors of the field validators, in field order. */
  function FieldErrors(
    intensity: Option<string>, arousal: Option<string>, confidence: real): seq<FieldError>
  {
    (if IntensityAllowed(intensity) then [] else [BadIntensityBucket(intensity.value)])
    + (if ArousalAllowed(arousal) then [] else [BadArousalBucket(arousal.value)])
    + (if confidence < 0.0 then [ConfidenceBelowZero] else [])
    + (if confidence > 1.0 then [ConfidenceAboveOne] else [])
  }

  /** Building a `ParserItem`: every field validator runs, and the item exists only when all
      of them accept. */
  function NewParserItem(
    domain: Domain, text: string, evidenceSpan: string, polarity: Polarity, timeBucket: string,
    intensity: Option<string>, arousal: Option<string>, confidence: real): (r: Result<ParserItem, seq<FieldError>>)
    ensures r.Ok? ==>
      && ValidParserItem(r.value)
      && r.value == ParserItem(domain, text, evidenceSpan, polarity, timeBucket, intensity, arousal, confidence)
    ensures r.Err? ==> r.error != []
    ensures r.Err? <==> !ValidParserItem(ParserItem(domain, text, evidenceSpan, polarity, timeBucket, intensity, arousal, confidence))
    ensures r.Err? ==> forall v :: BadIntensityBucket(v) in r.error <==> intensity == Some(v) && v !in IntensityValues
    ensures r.Err? ==> forall v :: BadArousalBucket(v) in r.error <==> arousal == Some(v) && v !in ArousalValues
    ensures r.Err? ==> (ConfidenceBelowZero in r.error <==> confidence < 0.0)
    ensures r.Err? ==> (ConfidenceAboveOne in r.error <==> confidence > 1.0)
  {
    var errors := FieldErrors(intensity, arousal, confidence);
    if errors == [] then Ok(ParserItem(domain, text, evidenceSpan, polarity, timeBucket, intensity, arousal, confidence))
    else Err(errors)
  }

  /** "unknown" is an intensity bucket but not an arousal bucket. */
  lemma UnknownOnlyForIntensity()
    ensures IntensityAllowed(Some("unknown")) && !ArousalAllowed(Some("unknown"))
  {
    assert "unknown" != "low" && "unknown" != "medium" && "unknown" != "high";
  }

  // ---------------------------------------------------------------- output records

  datatype InvariantViolation = InvariantViolation(
    journalId: string,
    itemIndex: nat,
    invariantName: string,
    violationType: string,
    details: string,
    severity: AlertLevel)

  datatype DriftMetric = DriftMetric(
    name: string,
    baselineValue: real,
    currentValue: real,
    changePct: real,
    jsDivergence: Option<real>,
    ksStatistic: Option<real>,
    ksPvalue: Option<real>,
    status: DriftStatus)

  datatype CanaryJournalResult = CanaryJournalResult(
    journalId: string, goldCount: nat, parserCount: nat, matched: nat, missed: nat, extra: nat)

  // ---------------------------------------------------------------- configuration

  datatype InvariantThresholds = InvariantThresholds(
    minSchemaValidity: real, minEvidenceValidity: real, maxHallucinationRate: real, maxContradictionRate: real)

  datatype DriftThresholds = DriftThresholds(
    jsDrift: real, jsBreakage: real, ksAlpha: real,
    domainShiftPct: real, arousalShiftPct: real, volumeChangePct: real)

  datatype CanaryThresholds = CanaryThresholds(
    f1Pass: real, f1Alert: real, f1HumanReview: real, f1Rollback: real, minEvidenceMatch: real)

  datatype HumanReviewConfig = HumanReviewConfig(
    maxDailyReviews: int, escalationTimeoutHours: int,
    criticalWeight: int, warningWeight: int, infoWeight: int)

  datatype Config = Config(
    invariants: InvariantThresholds, drift: DriftThresholds,
    canary: CanaryThresholds, humanReview: HumanReviewConfig)

  /** The configuration the monitor ships with. */
  const DefaultConfig: Config := Config(
    InvariantThresholds(0.95, 0.90, 0.05, 0.01),
    DriftThresholds(0.10, 0.20, 0.05, 15.0, 20.0, 25.0),
    CanaryThresholds(0.70, 0.60, 0.50, 0.40, 0.80),
    HumanReviewConfig(30, 24, 100, 50, 10))

  // ---------------------------------------------------------------- shared counting

  /** `sum(len(o.items) for o in outputs)` */
  function TotalItems(outputs: seq<ParserOutput>): nat {
    if outputs == [] then 0 else TotalItems(outputs[..|outputs| - 1]) + |outputs[|outputs| - 1].items|
  }

  lemma TotalItemsAppend(outputs: seq<ParserOutput>, o: ParserOutput)
    ensures TotalItems(outputs + [o]) == TotalItems(outputs) + |o.items|
  {
    assert (outputs + [o])[..|outputs|] == outputs;
  }

  /** `a / b` for a count ratio, with the value Python returns when there is nothing to divide. */
  function Ratio(n: nat, d: nat, whenEmpty: real): (r: real)
    ensures d == 0 ==> r == whenEmpty
    ensures d > 0 && n <= d ==> 0.0 <= r <= 1.0
  {
    if d > 0 then n as real / d as real else whenEmpty
  }

  /** A ratio over a positive total, times that total, gives back the count. */
  lemma RatioTimesTotal(n: nat, d: nat, whenEmpty: real)
    requires d > 0
    ensures Ratio(n, d, whenEmpty) * d as real == n as real
  {
  }
}
