/** The invariant run: the three checkers' results turned into one list of violations, the
    threshold alerts, and the report that carries them. */
module InvariantRunner {
  import opened Text
  import opened Dicts
  import opened Models
  import opened SchemaChecker
  import opened EvidenceChecker
  import opened ContradictionChecker

  /** An alert of the invariant run; the rendered text formats the rates as percentages. */
  datatype InvariantAlert =
    | SchemaValidityBelow(rate: real, threshold: real)
    | HallucinationRateAbove(rate: real, threshold: real)
    | ContradictionRateAbove(rate: real, threshold: real)
    | SystematicHallucination(span: string, count: nat)
  {
    function Level(): AlertLevel {
      if SystematicHallucination? then Warning else Critical
    }
  }

  datatype InvariantReport = InvariantReport(
    totalItems: nat,
    totalJournals: nat,
    schemaValidityRate: real,
    evidenceValidityRate: real,
    hallucinationRate: real,
    contradictionRate: real,
    violations: seq<InvariantViolation>,
    alerts: seq<InvariantAlert>,
    thresholdsUsed: Dict<string, real>)

  // ---------------------------------------------------------------- violation records

  function SchemaRecord(v: SchemaViolation, showFloat: real -> string): InvariantViolation {
    InvariantViolation(v.journalId, v.itemIndex, "schema_validity", "schema_error",
      Join(Messages(v.errors, showFloat), "; "), Warning)
  }

  function Messages(errors: seq<SchemaError>, showFloat: real -> string): seq<string> {
    seq(|errors|, i requires 0 <= i < |errors| => errors[i].Message(showFloat))
  }

  function HallucinationRecord(h: Hallucination): InvariantViolation {
    InvariantViolation(h.journalId, h.itemIndex, "hallucination", "evidence_not_found",
      "span '" + h.evidenceSpan + "' not in source", Critical)
  }

  function ConflictRecord(c: Contradiction, e: ConflictingItem): InvariantViolation {
    InvariantViolation(c.journalId, e.index, "contradiction", "polarity_conflict",
      "span '" + c.evidenceSpan + "' has conflicting polarity", Critical)
  }

  function SchemaRecords(vs: seq<SchemaViolation>, showFloat: real -> string): seq<InvariantViolation> {
    if vs == [] then [] else SchemaRecords(vs[..|vs| - 1], showFloat) + [SchemaRecord(vs[|vs| - 1], showFloat)]
  }

  function HallucinationRecords(hs: seq<Hallucination>): seq<InvariantViolation> {
    if hs == [] then [] else HallucinationRecords(hs[..|hs| - 1]) + [HallucinationRecord(hs[|hs| - 1])]
  }

  /** The records for the first `n` conflicting items of one contradiction. */
  function ConflictRecords(c: Contradiction, n: nat): seq<InvariantViolation>
    requires n <= |c.conflictingItems|
  {
    if n == 0 then [] else ConflictRecords(c, n - 1) + [ConflictRecord(c, c.conflictingItems[n - 1])]
  }

  function ContradictionRecords(cs: seq<Contradiction>): seq<InvariantViolation> {
    if cs == [] then []
    else
      var last := cs[|cs| - 1];
      ContradictionRecords(cs[..|cs| - 1]) + ConflictRecords(last, |last.conflictingItems|)
  }

  /** The number of conflicting items over all contradictions. */
  function ConflictingItemCount(cs: seq<Contradiction>): nat {
    if cs == [] then 0 else ConflictingItemCount(cs[..|cs| - 1]) + |cs[|cs| - 1].conflictingItems|
  }

  // ---------------------------------------------------------------- alerts

  function RateAlerts(schemaRate: real, hallRate: real, contraRate: real, t: InvariantThresholds): seq<InvariantAlert> {
    (if schemaRate < t.minSchemaValidity then [SchemaValidityBelow(schemaRate, t.minSchemaValidity)] else [])
    + (if hallRate > t.maxHallucinationRate then [HallucinationRateAbove(hallRate, t.maxHallucinationRate)] else [])
    + (if contraRate > t.maxContradictionRate then [ContradictionRateAbove(contraRate, t.maxContradictionRate)] else [])
  }

  /** One warning per hallucinated span counted more than once, in cluster order. */
  function ClusterAlerts(clusters: Dict<string, nat>): seq<InvariantAlert> {
    if clusters == [] then []
    else
      var (span, count) := clusters[|clusters| - 1];
      ClusterAlerts(clusters[..|clusters| - 1]) + (if count > 1 then [SystematicHallucination(span, count)] else [])
  }

  function ThresholdsUsed(t: InvariantThresholds): Dict<string, real> {
    [("min_schema_validity", t.minSchemaValidity),
     ("min_evidence_validity", t.minEvidenceValidity),
     ("max_hallucination_rate", t.maxHallucinationRate),
     ("max_contradiction_rate", t.maxContradictionRate)]
  }

  // ---------------------------------------------------------------- the run

  /** Every violation of the run: schema records, then hallucination records, then one record
      per conflicting item. */
  function AllViolations(
    vs: seq<SchemaViolation>, hs: seq<Hallucination>, cs: seq<Contradiction>, showFloat: real -> string)
    : seq<InvariantViolation>
  {
    SchemaRecords(vs, showFloat) + HallucinationRecords(hs) + ContradictionRecords(cs)
  }

  /** Every alert of the run: the rate alerts, then the cluster warnings. */
  function AllAlerts(
    schemaRate: real, hallRate: real, contraRate: real, t: InvariantThresholds, clusters: Dict<string, nat>)
    : seq<InvariantAlert>
  {
    RateAlerts(schemaRate, hallRate, contraRate, t) + ClusterAlerts(clusters)
  }

  /** `run_invariant_checks`, with the thresholds passed in and the float rendering of the
      out-of-range message as a parameter. */
  method RunInvariantChecks(
    outputs: seq<ParserOutput>, journals: Dict<string, string>, t: InvariantThresholds, showFloat: real -> string)
    returns (report: InvariantReport)
    ensures report.totalItems == TotalItems(outputs) && report.totalJournals == |outputs|
    ensures report.schemaValidityRate == Ratio(ValidCount(outputs), TotalItems(outputs), 1.0)
    ensures report.hallucinationRate == Ratio(|HallucinationsOf(outputs, journals)|, TotalItems(outputs), 0.0)
    ensures report.evidenceValidityRate == 1.0 - report.hallucinationRate
    ensures report.contradictionRate == Ratio(|ContradictionsOf(outputs)|, TotalItems(outputs), 0.0)
    ensures report.violations == AllViolations(
      ViolationsOf(outputs), HallucinationsOf(outputs, journals), ContradictionsOf(outputs), showFloat)
    ensures report.alerts == AllAlerts(
      report.schemaValidityRate, report.hallucinationRate, report.contradictionRate, t,
      CountAll(Spans(HallucinationsOf(outputs, journals))))
    ensures report.thresholdsUsed == ThresholdsUsed(t)
  {
    var schemaRate, schemaViolations := ComputeSchemaValidity(outputs);
    var evidenceRate, _ := ComputeEvidenceValidity(outputs, journals);
    var hallRate, hallucinations, hallClusters := FindHallucinations(outputs, journals);
    var contraRate, contradictions := FindContradictions(outputs);
    var violations := AssembleViolations(schemaViolations, hallucinations, contradictions, showFloat);
    var alerts := RaiseAlerts(schemaRate, hallRate, contraRate, t, hallClusters);
    report := InvariantReport(
      TotalItems(outputs), |outputs|, schemaRate, evidenceRate, hallRate, contraRate,
      violations, alerts, ThresholdsUsed(t));
  }

  /** The three violation loops of `run_invariant_checks`. */
  method AssembleViolations(
    schemaViolations: seq<SchemaViolation>, hallucinations: seq<Hallucination>,
    contradictions: seq<Contradiction>, showFloat: real -> string)
    returns (violations: seq<InvariantViolation>)
    ensures violations == AllViolations(schemaViolations, hallucinations, contradictions, showFloat)
  {
    violations := AppendSchemaRecords([], schemaViolations, showFloat);
    violations := AppendHallucinationRecords(violations, hallucinations);
    violations := AppendContradictionRecords(violations, contradictions);
  }

  /** The loop over the schema violations. */
  method AppendSchemaRecords(acc: seq<InvariantViolation>, vs: seq<SchemaViolation>, showFloat: real -> string)
    returns (violations: seq<InvariantViolation>)
    ensures violations == acc + SchemaRecords(vs, showFloat)
  {
    violations := acc;
    var k := 0;
    while k < |vs|
      invariant 0 <= k <= |vs|
      invariant violations == acc + SchemaRecords(vs[..k], showFloat)
    {
      violations := violations + [SchemaRecord(vs[k], showFloat)];
      assert vs[..k + 1][..k] == vs[..k];
      k := k + 1;
    }
    assert vs[..k] == vs;
  }

  /** The loop over the hallucinations. */
  method AppendHallucinationRecords(acc: seq<InvariantViolation>, hs: seq<Hallucination>)
    returns (violations: seq<InvariantViolation>)
    ensures violations == acc + HallucinationRecords(hs)
  {
    violations := acc;
    var k := 0;
    while k < |hs|
      invariant 0 <= k <= |hs|
      invariant violations == acc + HallucinationRecords(hs[..k])
    {
      violations := violations + [HallucinationRecord(hs[k])];
      assert hs[..k + 1][..k] == hs[..k];
      k := k + 1;
    }
    assert hs[..k] == hs;
  }

  /** The loop over the contradictions, one record per conflicting item. */
  method AppendContradictionRecords(acc: seq<InvariantViolation>, cs: seq<Contradiction>)
    returns (violations: seq<InvariantViolation>)
    ensures violations == acc + ContradictionRecords(cs)
  {
    violations := acc;
    var k := 0;
    while k < |cs|
      invariant 0 <= k <= |cs|
      invariant violations == acc + ContradictionRecords(cs[..k])
    {
      var c := cs[k];
      var n := 0;
      while n < |c.conflictingItems|
        invariant 0 <= n <= |c.conflictingItems|
        invariant violations == acc + ContradictionRecords(cs[..k]) + ConflictRecords(c, n)
      {
        violations := violations + [ConflictRecord(c, c.conflictingItems[n])];
        n := n + 1;
      }
      assert cs[..k + 1][..k] == cs[..k];
      k := k + 1;
    }
    assert cs[..k] == cs;
  }

  /** The alert steps of `run_invariant_checks`. */
  method RaiseAlerts(
    schemaRate: real, hallRate: real, contraRate: real, t: InvariantThresholds, hallClusters: Dict<string, nat>)
    returns (alerts: seq<InvariantAlert>)
    ensures alerts == AllAlerts(schemaRate, hallRate, contraRate, t, hallClusters)
  {
    alerts := [];
    if schemaRate < t.minSchemaValidity {
      alerts := alerts + [SchemaValidityBelow(schemaRate, t.minSchemaValidity)];
    }
    if hallRate > t.maxHallucinationRate {
      alerts := alerts + [HallucinationRateAbove(hallRate, t.maxHallucinationRate)];
    }
    if contraRate > t.maxContradictionRate {
      alerts := alerts + [ContradictionRateAbove(contraRate, t.maxContradictionRate)];
    }
    var afterRates := alerts;
    var k := 0;
    while k < |hallClusters|
      invariant 0 <= k <= |hallClusters|
      invariant alerts == afterRates + ClusterAlerts(hallClusters[..k])
    {
      var (span, count) := hallClusters[k];
      if count > 1 {
        alerts := alerts + [SystematicHallucination(span, count)];
      }
      assert hallClusters[..k + 1][..k] == hallClusters[..k];
      k := k + 1;
    }
    assert hallClusters[..k] == hallClusters;
  }

  // ---------------------------------------------------------------- properties

  lemma {:induction false} SchemaRecordsShape(vs: seq<SchemaViolation>, showFloat: real -> string)
    ensures |SchemaRecords(vs, showFloat)| == |vs|
    ensures forall i :: 0 <= i < |vs| ==> SchemaRecords(vs, showFloat)[i] == SchemaRecord(vs[i], showFloat)
  {
    if vs != [] {
      SchemaRecordsShape(vs[..|vs| - 1], showFloat);
    }
  }

  lemma {:induction false} HallucinationRecordsShape(hs: seq<Hallucination>)
    ensures |HallucinationRecords(hs)| == |hs|
    ensures forall i :: 0 <= i < |hs| ==> HallucinationRecords(hs)[i] == HallucinationRecord(hs[i])
  {
    if hs != [] {
      HallucinationRecordsShape(hs[..|hs| - 1]);
    }
  }

  lemma {:induction false} ConflictRecordsShape(c: Contradiction, n: nat)
    requires n <= |c.conflictingItems|
    ensures |ConflictRecords(c, n)| == n
    ensures forall i :: 0 <= i < n ==> ConflictRecords(c, n)[i] == ConflictRecord(c, c.conflictingItems[i])
  {
    if n > 0 {
      ConflictRecordsShape(c, n - 1);
    }
  }

  lemma {:induction false} ContradictionRecordsShape(cs: seq<Contradiction>)
    ensures |ContradictionRecords(cs)| == ConflictingItemCount(cs)
    ensures forall r :: r in ContradictionRecords(cs) ==>
      r.violationType == "polarity_conflict" && r.invariantName == "contradiction" && r.severity == Critical
  {
    if cs != [] {
      var last := cs[|cs| - 1];
      ContradictionRecordsShape(cs[..|cs| - 1]);
      ConflictRecordsShape(last, |last.conflictingItems|);
    }
  }

  /** The violation list holds the schema records (warnings), then the hallucination records,
      then one record per conflicting item (both critical), and nothing else. */
  lemma ViolationsLayout(
    vs: seq<SchemaViolation>, hs: seq<Hallucination>, cs: seq<Contradiction>, showFloat: real -> string)
    ensures |AllViolations(vs, hs, cs, showFloat)| == |vs| + |hs| + ConflictingItemCount(cs)
    ensures forall i :: 0 <= i < |vs| ==> AllViolations(vs, hs, cs, showFloat)[i] == SchemaRecord(vs[i], showFloat)
    ensures forall i :: 0 <= i < |hs| ==> AllViolations(vs, hs, cs, showFloat)[|vs| + i] == HallucinationRecord(hs[i])
    ensures forall i :: |vs| + |hs| <= i < |AllViolations(vs, hs, cs, showFloat)| ==>
      AllViolations(vs, hs, cs, showFloat)[i] in ContradictionRecords(cs)
  {
    ViolationsHead(vs, hs, cs, showFloat);
    ViolationsTail(vs, hs, cs, showFloat);
  }

  lemma ViolationsHead(
    vs: seq<SchemaViolation>, hs: seq<Hallucination>, cs: seq<Contradiction>, showFloat: real -> string)
    ensures |AllViolations(vs, hs, cs, showFloat)| == |vs| + |hs| + ConflictingItemCount(cs)
    ensures forall i :: 0 <= i < |vs| ==> AllViolations(vs, hs, cs, showFloat)[i] == SchemaRecord(vs[i], showFloat)
    ensures forall i :: 0 <= i < |hs| ==> AllViolations(vs, hs, cs, showFloat)[|vs| + i] == HallucinationRecord(hs[i])
  {
    var sr, hr := SchemaRecords(vs, showFloat), HallucinationRecords(hs);
    var all := AllViolations(vs, hs, cs, showFloat);
    SchemaRecordsShape(vs, showFloat);
    HallucinationRecordsShape(hs);
    ContradictionRecordsShape(cs);
    assert all == (sr + hr) + ContradictionRecords(cs);
    forall i | 0 <= i < |vs| ensures all[i] == SchemaRecord(vs[i], showFloat) {
      assert all[i] == (sr + hr)[i] == sr[i];
    }
    forall i | 0 <= i < |hs| ensures all[|vs| + i] == HallucinationRecord(hs[i]) {
      assert all[|vs| + i] == (sr + hr)[|vs| + i] == hr[i];
    }
  }

  lemma ViolationsTail(
    vs: seq<SchemaViolation>, hs: seq<Hallucination>, cs: seq<Contradiction>, showFloat: real -> string)
    ensures forall i :: |vs| + |hs| <= i < |AllViolations(vs, hs, cs, showFloat)| ==>
      AllViolations(vs, hs, cs, showFloat)[i] in ContradictionRecords(cs)
  {
    var all := AllViolations(vs, hs, cs, showFloat);
    var head := SchemaRecords(vs, showFloat) + HallucinationRecords(hs);
    SchemaRecordsShape(vs, showFloat);
    HallucinationRecordsShape(hs);
    assert all == head + ContradictionRecords(cs);
    forall i | |head| <= i < |all|
      ensures all[i] in ContradictionRecords(cs)
    {
      assert all[i] == ContradictionRecords(cs)[i - |head|];
    }
  }

  /** Only contradictions produce polarity-conflict records, all of them critical, so every
      record past the schema and hallucination ones is a critical polarity conflict. */
  lemma SeveritiesByKind(vs: seq<SchemaViolation>, hs: seq<Hallucination>, cs: seq<Contradiction>, showFloat: real -> string)
    ensures forall i :: 0 <= i < |AllViolations(vs, hs, cs, showFloat)| ==>
      (AllViolations(vs, hs, cs, showFloat)[i].severity == Warning <==> i < |vs|)
  {
    var all := AllViolations(vs, hs, cs, showFloat);
    ViolationsLayout(vs, hs, cs, showFloat);
    ContradictionRecordsShape(cs);
    forall i | 0 <= i < |all|
      ensures all[i].severity == Warning <==> i < |vs|
    {
      if i < |vs| {
        assert all[i] == SchemaRecord(vs[i], showFloat);
      } else if i < |vs| + |hs| {
        assert all[|vs| + (i - |vs|)] == HallucinationRecord(hs[i - |vs|]);
      } else {
        assert all[i] in ContradictionRecords(cs);
      }
    }
  }

  /** Each rate alert is raised exactly when its strict comparison holds, and they are all
      critical. */
  lemma RateAlertsMeaning(schemaRate: real, hallRate: real, contraRate: real, t: InvariantThresholds)
    ensures var a := RateAlerts(schemaRate, hallRate, contraRate, t);
      && (SchemaValidityBelow(schemaRate, t.minSchemaValidity) in a <==> schemaRate < t.minSchemaValidity)
      && (HallucinationRateAbove(hallRate, t.maxHallucinationRate) in a <==> hallRate > t.maxHallucinationRate)
      && (ContradictionRateAbove(contraRate, t.maxContradictionRate) in a <==> contraRate > t.maxContradictionRate)
      && (forall x :: x in a ==> x.Level() == Critical)
  {
  }

  lemma {:induction false} ClusterAlertsMembers(clusters: Dict<string, nat>)
    ensures forall x :: x in ClusterAlerts(clusters) <==>
      x.SystematicHallucination? && x.count > 1 && (x.span, x.count) in clusters
  {
    if clusters != [] {
      var init, last := clusters[..|clusters| - 1], clusters[|clusters| - 1];
      ClusterAlertsMembers(init);
      assert clusters == init + [last];
      forall x ensures x in ClusterAlerts(clusters) <==> x.SystematicHallucination? && x.count > 1 && (x.span, x.count) in clusters {
        if x.SystematicHallucination? && (x.span, x.count) == last {
          assert x == SystematicHallucination(last.0, last.1);
        }
      }
    }
  }

  /** A systematic-hallucination warning is raised for a span exactly when more than one
      hallucination carries it, and reports how many do. */
  lemma SystematicWarnings(hs: seq<Hallucination>, span: string, count: nat)
    ensures SystematicHallucination(span, count) in ClusterAlerts(CountAll(Spans(hs)))
      <==> count > 1 && count == multiset(Spans(hs))[span]
  {
    var clusters := CountAll(Spans(hs));
    ClusterAlertsMembers(clusters);
    CountAllSpec(Spans(hs));
    DedupSpec(Spans(hs));
    KeysLength(clusters);
    if (span, count) in clusters {
      var i :| 0 <= i < |clusters| && clusters[i] == (span, count);
      GetAt(clusters, i, 0);
    }
    if count > 1 && count == multiset(Spans(hs))[span] {
      assert span in Spans(hs);
      assert span in Keys(clusters);
      var i :| 0 <= i < |clusters| && Keys(clusters)[i] == span;
      GetAt(clusters, i, 0);
      assert clusters[i] == (span, count);
    }
  }

  /** `thresholds_used` records exactly the four invariant thresholds. */
  lemma ThresholdsRecorded(t: InvariantThresholds)
    ensures Keys(ThresholdsUsed(t)) ==
      ["min_schema_validity", "min_evidence_validity", "max_hallucination_rate", "max_contradiction_rate"]
    ensures Get(ThresholdsUsed(t), "min_schema_validity", 0.0) == t.minSchemaValidity
    ensures Get(ThresholdsUsed(t), "min_evidence_validity", 0.0) == t.minEvidenceValidity
    ensures Get(ThresholdsUsed(t), "max_hallucination_rate", 0.0) == t.maxHallucinationRate
    ensures Get(ThresholdsUsed(t), "max_contradiction_rate", 0.0) == t.maxContradictionRate
  {
    var d := ThresholdsUsed(t);
    KeysLength(d);
    assert Keys(d) == ["min_schema_validity", "min_evidence_validity", "max_hallucination_rate", "max_contradiction_rate"];
    assert Distinct(Keys(d));
    GetAt(d, 0, 0.0);
    GetAt(d, 1, 0.0);
    GetAt(d, 2, 0.0);
    GetAt(d, 3, 0.0);
  }

  // ---------------------------------------------------------------- loading the runner

  /** The names `models/outputs.py` binds at module level: what it imports and the models it
      declares. */
  const OutputsNames: seq<string> := [
    "BaseModel", "List", "Dict", "Optional", "datetime", "AlertLevel", "CanaryAction", "DriftStatus",
    "InvariantViolation", "InvariantReport", "DriftMetric", "DriftReport", "CanaryJournalResult",
    "CanaryReport", "SummaryReport"]

  /** The names `invariants/definitions.py` binds at module level. */
  const DefinitionsNames: seq<string> := [
    "dataclass", "Callable", "List", "Any", "InvariantDefinition", "SCHEMA_VALIDITY",
    "EVIDENCE_VALIDITY", "HALLUCINATION_RATE", "CONTRADICTION_RATE", "ALL_INVARIANTS"]

  /** `from m import a, b, ...` for each pair of a module's bound names and the names asked
      of it, in order: the first name its module does not bind, which raises `ImportError`,
      or `None` when every import resolves. */
  function FailedImport(imports: seq<(seq<string>, seq<string>)>): (r: Option<string>)
    ensures r.Some? <==> exists i, j :: 0 <= i < |imports| && 0 <= j < |imports[i].1| && imports[i].1[j] !in imports[i].0
    ensures r.Some? ==> exists i :: 0 <= i < |imports| && r.value in imports[i].1 && r.value !in imports[i].0
    decreases |imports|, if imports == [] then 0 else |imports[0].1|
  {
    if imports == [] then None
    else if imports[0].1 == [] then FailedImport(imports[1..])
    else if imports[0].1[0] !in imports[0].0 then Some(imports[0].1[0])
    else
      var r := FailedImport([(imports[0].0, imports[0].1[1..])] + imports[1..]);
      assert r.Some? ==> exists i, j :: 0 <= i < |imports| && 0 <= j < |imports[i].1| && imports[i].1[j] !in imports[i].0 by {
        if r.Some? {
          var rest := [(imports[0].0, imports[0].1[1..])] + imports[1..];
          var i, j :| 0 <= i < |rest| && 0 <= j < |rest[i].1| && rest[i].1[j] !in rest[i].0;
          if i == 0 {
            assert imports[0].1[j + 1] !in imports[0].0;
          } else {
            assert imports[i] == rest[i];
          }
        }
      }
      r
  }

  /** The runner's imports from the two model modules, as written (lines 6 and 13): the
      report models and `InvariantDefinition` from `models/outputs.py`, the definitions
      from `invariants/definitions.py`. */
  function RunnerImportsAsWritten(): seq<(seq<string>, seq<string>)> {
    [(OutputsNames, ["InvariantReport", "InvariantViolation", "InvariantDefinition"]),
     (DefinitionsNames, ["ALL_INVARIANTS"])]
  }

  /** As written, loading the runner fails on `InvariantDefinition`, so no call of
      `run_invariant_checks` can happen. */
  lemma RunnerImportFails()
    ensures FailedImport(RunnerImportsAsWritten()) == Some("InvariantDefinition")
  {
    assert "InvariantReport" in OutputsNames && "InvariantViolation" in OutputsNames;
    assert "InvariantDefinition" !in OutputsNames;
  }

  /** The imports with `InvariantDefinition` taken from `invariants/definitions.py`, the one
      module that defines it. */
  function RunnerImportsCorrected(): seq<(seq<string>, seq<string>)> {
    [(OutputsNames, ["InvariantReport", "InvariantViolation"]),
     (DefinitionsNames, ["ALL_INVARIANTS", "InvariantDefinition"])]
  }

  /** Corrected, every import resolves, and the run is `RunInvariantChecks`. */
  lemma CorrectedImportsResolve()
    ensures FailedImport(RunnerImportsCorrected()) == None
  {
    var imports := RunnerImportsCorrected();
    assert OutputsNames[9] == "InvariantReport" && OutputsNames[8] == "InvariantViolation";
    assert DefinitionsNames[9] == "ALL_INVARIANTS" && DefinitionsNames[4] == "InvariantDefinition";
    forall i, j | 0 <= i < |imports| && 0 <= j < |imports[i].1| ensures imports[i].1[j] in imports[i].0 {
    }
  }
}
