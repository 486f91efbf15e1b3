/** The drift comparison of a baseline run against a current run: one metric per quantity,
    each mapped to STABLE, DRIFT or BREAKAGE by its own threshold rule, and the pattern
    alerts raised on top of them. The divergence and the two-sample test are parameters. */
module Comparator {
  import opened Dicts
  import opened Models
  import opened Statistical
  import opened Extractors

  /** `[item for o in outputs for item in o.items]` */
  function GetAllItems(outputs: seq<ParserOutput>): seq<ParserItem> {
    if outputs == [] then [] else GetAllItems(outputs[..|outputs| - 1]) + outputs[|outputs| - 1].items
  }

  /** All items of all outputs, in order: as many as the outputs hold, and exactly theirs. */
  lemma {:induction false} GetAllItemsSpec(outputs: seq<ParserOutput>)
    ensures |GetAllItems(outputs)| == TotalItems(outputs)
    ensures forall x :: x in GetAllItems(outputs) <==> exists j :: 0 <= j < |outputs| && x in outputs[j].items
  {
    if outputs != [] {
      var init, last := outputs[..|outputs| - 1], outputs[|outputs| - 1];
      GetAllItemsSpec(init);
      assert outputs == init + [last];
      TotalItemsAppend(init, last);
      forall x ensures x in GetAllItems(outputs) <==> exists j :: 0 <= j < |outputs| && x in outputs[j].items {
        GetAllItemsMember(outputs, init, last, x);
      }
    }
  }

  /** One step of `GetAllItemsSpec`: an item of the last output, or of one before it. */
  lemma GetAllItemsMember(outputs: seq<ParserOutput>, init: seq<ParserOutput>, last: ParserOutput, x: ParserItem)
    requires outputs == init + [last]
    requires x in GetAllItems(init) <==> exists j :: 0 <= j < |init| && x in init[j].items
    ensures x in GetAllItems(outputs) <==> exists j :: 0 <= j < |outputs| && x in outputs[j].items
  {
    assert outputs[..|outputs| - 1] == init;
    assert GetAllItems(outputs) == GetAllItems(init) + last.items;
    if x in GetAllItems(init) {
      var j :| 0 <= j < |init| && x in init[j].items;
      assert outputs[j] == init[j];
    } else if x in last.items {
      assert outputs[|outputs| - 1] == last;
    } else {
      forall j | 0 <= j < |outputs| ensures x !in outputs[j].items {
        if j < |init| {
          assert outputs[j] == init[j];
        }
      }
    }
  }

  // ---------------------------------------------------------------- status rules

  /** How serious a status is: STABLE < DRIFT < BREAKAGE. */
  function Rank(s: DriftStatus): nat {
    match s
    case Stable => 0
    case Drift => 1
    case Breakage => 2
  }

  /** `determine_status`: the divergence against the two thresholds, breakage first. */
  function DetermineStatus(js: real, t: DriftThresholds): DriftStatus {
    if js >= t.jsBreakage then Breakage
    else if js >= t.jsDrift then Drift
    else Stable
  }

  /** Each status holds for exactly its band of divergences. */
  lemma DetermineStatusBands(js: real, t: DriftThresholds)
    requires t.jsDrift <= t.jsBreakage
    ensures DetermineStatus(js, t) == Breakage <==> js >= t.jsBreakage
    ensures DetermineStatus(js, t) == Drift <==> t.jsDrift <= js < t.jsBreakage
    ensures DetermineStatus(js, t) == Stable <==> js < t.jsDrift
  {
  }

  /** A larger divergence never gives a less serious status, when the drift threshold is not
      above the breakage one. */
  lemma DetermineStatusMonotone(a: real, b: real, t: DriftThresholds)
    requires t.jsDrift <= t.jsBreakage && a <= b
    ensures Rank(DetermineStatus(a, t)) <= Rank(DetermineStatus(b, t))
  {
  }

  function Abs(x: real): real {
    if x < 0.0 then -x else x
  }

  /** Percentage change from `base` to `curr`, 0 when the base is not positive. */
  function ChangePct(base: real, curr: real): (r: real)
    ensures base > 0.0 ==> r * base == (curr - base) * 100.0
    ensures base <= 0.0 ==> r == 0.0
  {
    if base > 0.0 then (curr - base) / base * 100.0 else 0.0
  }

  /** The volume rule: more than 50% either way is breakage, more than the configured
      percentage drift. */
  function VolumeStatus(change: real, t: DriftThresholds): DriftStatus {
    if Abs(change) > 50.0 then Breakage
    else if Abs(change) > t.volumeChangePct then Drift
    else Stable
  }

  /** The uncertainty rule: a current rate above 0.6 is breakage whatever the baseline, a rise
      of more than 15 points drift. */
  function UncertaintyStatus(base: real, curr: real): DriftStatus {
    if curr > 0.6 then Breakage
    else if (curr - base) * 100.0 > 15.0 then Drift
    else Stable
  }

  /** The confidence rule on the KS p-value: below 0.01 breakage, below 0.05 drift. */
  function ConfidenceStatus(pvalue: real): DriftStatus {
    if pvalue < 0.01 then Breakage
    else if pvalue < 0.05 then Drift
    else Stable
  }

  lemma StatusRulesSpec(change: real, base: real, curr: real, pvalue: real, t: DriftThresholds)
    ensures VolumeStatus(change, t) == Breakage <==> change > 50.0 || change < -50.0
    ensures VolumeStatus(change, t) == Stable <==> Abs(change) <= 50.0 && Abs(change) <= t.volumeChangePct
    ensures curr > 0.6 ==> UncertaintyStatus(base, curr) == Breakage
    ensures UncertaintyStatus(base, curr) == Drift <==> curr <= 0.6 && curr - base > 0.15
    ensures ConfidenceStatus(pvalue) == Stable <==> pvalue >= 0.05
    ensures ConfidenceStatus(pvalue) == Breakage <==> pvalue < 0.01
  {
  }

  // ---------------------------------------------------------------- compare_distributions

  /** `max(d.values())` */
  function MaxValue(d: Dict<string, real>): (m: real)
    requires d != []
    ensures forall i :: 0 <= i < |d| ==> d[i].1 <= m
    ensures exists i :: 0 <= i < |d| && d[i].1 == m
  {
    if |d| == 1 then d[0].1
    else
      var rest := MaxValue(d[1..]);
      assert forall i :: 1 <= i < |d| ==> d[i] == d[1..][i - 1];
      if d[0].1 >= rest then d[0].1 else rest
  }

  /** `[dist.get(k, 0) for k in keys]` */
  function Aligned(dist: Dict<string, real>, keys: seq<string>): seq<real> {
    seq(|keys|, i requires 0 <= i < |keys| => Get(dist, keys[i], 0.0))
  }

  /** `compare_distributions`: the divergence of the two distributions aligned over the
      sorted union of their keys, with the largest share of each side for display; all zero
      and STABLE when both are empty. */
  function CompareDistributions(
    baseline: Dict<string, real>, current: Dict<string, real>, name: string, t: DriftThresholds,
    jsd: (seq<real>, seq<real>) -> real): DriftMetric
  {
    var allKeys := SortedUnique(Keys(baseline) + Keys(current));
    if allKeys == [] then DriftMetric(name, 0.0, 0.0, 0.0, Some(0.0), None, None, Stable)
    else
      var js := jsd(Aligned(baseline, allKeys), Aligned(current, allKeys));
      var baselineVal := if baseline != [] then MaxValue(baseline) else 0.0;
      var currentVal := if current != [] then MaxValue(current) else 0.0;
      DriftMetric(name, baselineVal, currentVal, ChangePct(baselineVal, currentVal), Some(js), None, None,
        DetermineStatus(js, t))
  }

  lemma KeysEmpty<V>(d: Dict<string, V>)
    ensures Keys(d) == [] <==> d == []
  {
    KeysLength(d);
  }

  /** Two empty distributions compare as STABLE with every value 0. */
  lemma CompareEmpty(name: string, t: DriftThresholds, jsd: (seq<real>, seq<real>) -> real)
    ensures CompareDistributions([], [], name, t, jsd) == DriftMetric(name, 0.0, 0.0, 0.0, Some(0.0), None, None, Stable)
  {
  }

  /** Otherwise the status is the divergence's status, the divergence is taken over one entry
      per key of either side in sorted order (0 where a side lacks the key), and the
      displayed values are the largest shares. */
  lemma CompareNonEmpty(
    baseline: Dict<string, real>, current: Dict<string, real>, name: string, t: DriftThresholds,
    jsd: (seq<real>, seq<real>) -> real)
    requires baseline != [] || current != []
    ensures var m := CompareDistributions(baseline, current, name, t, jsd);
      var allKeys := SortedUnique(Keys(baseline) + Keys(current));
      && StrictlySorted(allKeys)
      && (forall k :: k in allKeys <==> k in Keys(baseline) || k in Keys(current))
      && m.jsDivergence == Some(jsd(Aligned(baseline, allKeys), Aligned(current, allKeys)))
      && m.status == DetermineStatus(m.jsDivergence.value, t)
      && (baseline != [] ==> (forall i :: 0 <= i < |baseline| ==> baseline[i].1 <= m.baselineValue)
                             && exists i :: 0 <= i < |baseline| && baseline[i].1 == m.baselineValue)
      && (current != [] ==> (forall i :: 0 <= i < |current| ==> current[i].1 <= m.currentValue)
                            && exists i :: 0 <= i < |current| && current[i].1 == m.currentValue)
      && (baseline == [] ==> m.baselineValue == 0.0 && m.changePct == 0.0)
  {
    var allKeys := SortedUnique(Keys(baseline) + Keys(current));
    SortedUniqueSpec(Keys(baseline) + Keys(current));
    KeysEmpty(baseline);
    KeysEmpty(current);
    if baseline != [] {
      assert Keys(baseline)[0] in allKeys;
    } else {
      assert Keys(current)[0] in allKeys;
    }
  }

  // ---------------------------------------------------------------- the analysis

  /** The alerts of a drift run; they are rendered with the numbers they carry. */
  datatype DriftAlert =
    | VolumeChanged(change: real)
    | DomainSurge(domain: string, shift: real, basePct: real, currPct: real)
    | ArousalCollapse(high: real)
    | DomainShift
    | ArousalShift
    | ConfidenceShift(pvalue: real)
  {
    function Level(): AlertLevel {
      if ArousalCollapse? || DomainShift? || ArousalShift? then Critical else Warning
    }
  }

  datatype DriftReport = DriftReport(
    metrics: seq<DriftMetric>, alerts: seq<DriftAlert>, thresholdsUsed: Dict<string, real>)

  /** The domains watched for a surge, in the order they are checked. */
  const SurgeDomains: seq<string> := ["mind", "emotion"]

  function Confidences(items: seq<ParserItem>): seq<real> {
    seq(|items|, i requires 0 <= i < |items| => items[i].confidence)
  }

  function Mean(s: seq<real>): real {
    if s == [] then 0.0 else SumReals(s) / |s| as real
  }

  function VolumeMetric(baseline: seq<ParserOutput>, current: seq<ParserOutput>, t: DriftThresholds): DriftMetric {
    var base, curr := ComputeExtractionVolume(baseline).Mean(), ComputeExtractionVolume(current).Mean();
    var change := ChangePct(base, curr);
    DriftMetric("extraction_volume", base, curr, change, None, None, None, VolumeStatus(change, t))
  }

  function UncertaintyMetric(baseItems: seq<ParserItem>, currItems: seq<ParserItem>): DriftMetric {
    var base := Ratio(UncertainCount(baseItems), |baseItems|, 0.0);
    var curr := Ratio(UncertainCount(currItems), |currItems|, 0.0);
    DriftMetric("uncertainty_rate", base, curr, (curr - base) * 100.0, None, None, None, UncertaintyStatus(base, curr))
  }

  function ConfidenceMetric(
    baseItems: seq<ParserItem>, currItems: seq<ParserItem>, ks2samp: (seq<real>, seq<real>) -> (real, real))
    : DriftMetric
  {
    var ks := KsTest(Confidences(baseItems), Confidences(currItems), ks2samp);
    var base, curr := Mean(Confidences(baseItems)), Mean(Confidences(currItems));
    DriftMetric("confidence_distribution", base, curr, ChangePct(base, curr), None, Some(ks.0), Some(ks.1),
      ConfidenceStatus(ks.1))
  }

  /** The six metrics, in the order the analysis appends them. */
  function DriftMetrics(
    baseline: seq<ParserOutput>, current: seq<ParserOutput>, t: DriftThresholds,
    jsd: (seq<real>, seq<real>) -> real, ks2samp: (seq<real>, seq<real>) -> (real, real))
    : seq<DriftMetric>
  {
    var bi, ci := GetAllItems(baseline), GetAllItems(current);
    [ VolumeMetric(baseline, current, t),
      UncertaintyMetric(bi, ci),
      CompareDistributions(DomainDistribution(bi), DomainDistribution(ci), "domain_mix", t, jsd),
      CompareDistributions(ArousalDistribution(bi), ArousalDistribution(ci), "arousal_distribution", t, jsd),
      CompareDistributions(IntensityDistribution(bi), IntensityDistribution(ci), "intensity_distribution", t, jsd),
      ConfidenceMetric(bi, ci, ks2samp) ]
  }

  /** The surge warnings for the watched domains in `domains`. */
  function SurgeAlerts(
    baseDomain: Dict<string, real>, currDomain: Dict<string, real>, t: DriftThresholds, domains: seq<string>)
    : seq<DriftAlert>
  {
    if domains == [] then []
    else
      var d := domains[|domains| - 1];
      var base, curr := Get(baseDomain, d, 0.0), Get(currDomain, d, 0.0);
      var shift := (curr - base) * 100.0;
      SurgeAlerts(baseDomain, currDomain, t, domains[..|domains| - 1])
      + (if shift > t.domainShiftPct then [DomainSurge(d, shift, base * 100.0, curr * 100.0)] else [])
  }

  function PValue(m: DriftMetric): real {
    if m.ksPvalue.Some? then m.ksPvalue.value else 1.0
  }

  /** The alerts of a run, from its volume, domain, arousal and confidence metrics and its
      domain and arousal distributions. */
  function DriftAlerts(
    volume: DriftMetric, domain: DriftMetric, arousal: DriftMetric, confidence: DriftMetric,
    baseDomain: Dict<string, real>, currDomain: Dict<string, real>,
    baseArousal: Dict<string, real>, currArousal: Dict<string, real>, t: DriftThresholds)
    : seq<DriftAlert>
  {
    VolumeAlerts(volume)
    + SurgeAlerts(baseDomain, currDomain, t, SurgeDomains)
    + CollapseAlerts(baseArousal, currArousal)
    + ShiftAlerts(domain, arousal, confidence)
  }

  /** The volume warning, raised for any status but STABLE. */
  function VolumeAlerts(volume: DriftMetric): seq<DriftAlert> {
    if volume.status != Stable then [VolumeChanged(volume.changePct)] else []
  }

  /** The arousal-collapse alert: a current "high" share above 0.9 from a baseline below 0.7. */
  function CollapseAlerts(baseArousal: Dict<string, real>, currArousal: Dict<string, real>): seq<DriftAlert> {
    var high := Get(currArousal, "high", 0.0);
    if high > 0.9 && Get(baseArousal, "high", 0.0) < 0.7 then [ArousalCollapse(high)] else []
  }

  /** The alerts that follow the domain, arousal and confidence statuses. */
  function ShiftAlerts(domain: DriftMetric, arousal: DriftMetric, confidence: DriftMetric): seq<DriftAlert> {
    (if domain.status == Breakage then [DomainShift] else [])
    + (if arousal.status == Breakage then [ArousalShift] else [])
    + (if confidence.status != Stable then [ConfidenceShift(PValue(confidence))] else [])
  }

  function DriftThresholdsUsed(t: DriftThresholds): Dict<string, real> {
    [("js_drift", t.jsDrift), ("js_breakage", t.jsBreakage),
     ("domain_shift_pct", t.domainShiftPct), ("volume_change_pct", t.volumeChangePct)]
  }

  /** `run_drift_analysis` with the thresholds, the divergence and the two-sample test
      passed in. */
  method RunDriftAnalysis(
    baselineOutputs: seq<ParserOutput>, currentOutputs: seq<ParserOutput>, t: DriftThresholds,
    jsd: (seq<real>, seq<real>) -> real, ks2samp: (seq<real>, seq<real>) -> (real, real))
    returns (report: DriftReport)
    ensures report.metrics == DriftMetrics(baselineOutputs, currentOutputs, t, jsd, ks2samp)
    ensures |report.metrics| == 6
    ensures report.alerts == DriftAlerts(report.metrics[0], report.metrics[2], report.metrics[3], report.metrics[5],
      DomainDistribution(GetAllItems(baselineOutputs)), DomainDistribution(GetAllItems(currentOutputs)),
      ArousalDistribution(GetAllItems(baselineOutputs)), ArousalDistribution(GetAllItems(currentOutputs)), t)
    ensures report.thresholdsUsed == DriftThresholdsUsed(t)
  {
    var baselineItems := GetAllItems(baselineOutputs);
    var currentItems := GetAllItems(currentOutputs);
    var alerts: seq<DriftAlert> := [];

    var volumeMetric := VolumeStep(baselineOutputs, currentOutputs, t);
    if volumeMetric.status != Stable {
      alerts := alerts + [VolumeChanged(volumeMetric.changePct)];
    }
    assert alerts == VolumeAlerts(volumeMetric);

    var uncertaintyMetric := UncertaintyStep(baselineItems, currentItems);

    // domain mix and the surges of the watched domains
    var baseDomain := ComputeDomainDistribution(baselineItems);
    var currDomain := ComputeDomainDistribution(currentItems);
    var domainMetric := CompareDistributions(baseDomain, currDomain, "domain_mix", t, jsd);
    alerts := AddSurgeAlerts(alerts, baseDomain, currDomain, t);

    // arousal mix and collapse
    var baseArousal := ComputeArousalDistribution(baselineItems);
    var currArousal := ComputeArousalDistribution(currentItems);
    var arousalMetric := CompareDistributions(baseArousal, currArousal, "arousal_distribution", t, jsd);
    alerts := AddCollapseAlert(alerts, baseArousal, currArousal);

    // intensity mix
    var baseIntensity := ComputeIntensityDistribution(baselineItems);
    var currIntensity := ComputeIntensityDistribution(currentItems);
    var intensityMetric := CompareDistributions(baseIntensity, currIntensity, "intensity_distribution", t, jsd);

    var confidenceMetric := ConfidenceStep(baselineItems, currentItems, ks2samp);
    alerts := AddShiftAlerts(alerts, domainMetric, arousalMetric, confidenceMetric);

    assert alerts == DriftAlerts(volumeMetric, domainMetric, arousalMetric, confidenceMetric,
      baseDomain, currDomain, baseArousal, currArousal, t);
    // the metrics in the order the analysis appends them
    var metrics := [volumeMetric, uncertaintyMetric, domainMetric, arousalMetric, intensityMetric, confidenceMetric];
    report := DriftReport(metrics, alerts, DriftThresholdsUsed(t));
  }

  /** The extraction-volume step. */
  method VolumeStep(baselineOutputs: seq<ParserOutput>, currentOutputs: seq<ParserOutput>, t: DriftThresholds)
    returns (metric: DriftMetric)
    ensures metric == VolumeMetric(baselineOutputs, currentOutputs, t)
  {
    var baseMean := ComputeExtractionVolume(baselineOutputs).Mean();
    var currMean := ComputeExtractionVolume(currentOutputs).Mean();
    var volChange := if baseMean > 0.0 then (currMean - baseMean) / baseMean * 100.0 else 0.0;
    var volStatus := Stable;
    if Abs(volChange) > 50.0 {
      volStatus := Breakage;
    } else if Abs(volChange) > t.volumeChangePct {
      volStatus := Drift;
    }
    metric := DriftMetric("extraction_volume", baseMean, currMean, volChange, None, None, None, volStatus);
  }

  /** The uncertainty-rate step. */
  method UncertaintyStep(baselineItems: seq<ParserItem>, currentItems: seq<ParserItem>) returns (metric: DriftMetric)
    ensures metric == UncertaintyMetric(baselineItems, currentItems)
  {
    var baseUnc := ComputeUncertaintyRate(baselineItems);
    var currUnc := ComputeUncertaintyRate(currentItems);
    var uncChange := (currUnc - baseUnc) * 100.0;
    var uncStatus := Stable;
    if currUnc > 0.6 {
      uncStatus := Breakage;
    } else if uncChange > 15.0 {
      uncStatus := Drift;
    }
    metric := DriftMetric("uncertainty_rate", baseUnc, currUnc, uncChange, None, None, None, uncStatus);
  }

  /** The confidence step, by the two-sample test. */
  method ConfidenceStep(
    baselineItems: seq<ParserItem>, currentItems: seq<ParserItem>, ks2samp: (seq<real>, seq<real>) -> (real, real))
    returns (metric: DriftMetric)
    ensures metric == ConfidenceMetric(baselineItems, currentItems, ks2samp)
  {
    var baseConf, currConf := Confidences(baselineItems), Confidences(currentItems);
    var ks := KsTest(baseConf, currConf, ks2samp);
    var confStatus := Stable;
    if ks.1 < 0.01 {
      confStatus := Breakage;
    } else if ks.1 < 0.05 {
      confStatus := Drift;
    }
    var baseConfMean := if baseConf != [] then SumReals(baseConf) / |baseConf| as real else 0.0;
    var currConfMean := if currConf != [] then SumReals(currConf) / |currConf| as real else 0.0;
    var confChange := if baseConfMean > 0.0 then (currConfMean - baseConfMean) / baseConfMean * 100.0 else 0.0;
    metric := DriftMetric("confidence_distribution", baseConfMean, currConfMean, confChange,
      None, Some(ks.0), Some(ks.1), confStatus);
  }

  /** The arousal-collapse check. */
  method AddCollapseAlert(alerts: seq<DriftAlert>, baseArousal: Dict<string, real>, currArousal: Dict<string, real>)
    returns (result: seq<DriftAlert>)
    ensures result == alerts + CollapseAlerts(baseArousal, currArousal)
  {
    result := alerts;
    if Get(currArousal, "high", 0.0) > 0.9 && Get(baseArousal, "high", 0.0) < 0.7 {
      result := result + [ArousalCollapse(Get(currArousal, "high", 0.0))];
    }
  }

  /** The closing checks on the domain, arousal and confidence statuses. */
  method AddShiftAlerts(alerts: seq<DriftAlert>, domain: DriftMetric, arousal: DriftMetric, confidence: DriftMetric)
    returns (result: seq<DriftAlert>)
    ensures result == alerts + ShiftAlerts(domain, arousal, confidence)
  {
    result := alerts;
    if domain.status == Breakage {
      result := result + [DomainShift];
    }
    ghost var afterDomain := result;
    if arousal.status == Breakage {
      result := result + [ArousalShift];
    }
    assert result == afterDomain + (if arousal.status == Breakage then [ArousalShift] else []);
    ghost var afterArousal := result;
    if confidence.status != Stable {
      result := result + [ConfidenceShift(PValue(confidence))];
    }
    assert result == afterArousal + (if confidence.status != Stable then [ConfidenceShift(PValue(confidence))] else []);
  }

  /** The `for domain in ["mind", "emotion"]` loop. */
  method AddSurgeAlerts(
    alerts: seq<DriftAlert>, baseDomain: Dict<string, real>, currDomain: Dict<string, real>, t: DriftThresholds)
    returns (result: seq<DriftAlert>)
    ensures result == alerts + SurgeAlerts(baseDomain, currDomain, t, SurgeDomains)
  {
    result := alerts;
    var k := 0;
    while k < |SurgeDomains|
      invariant 0 <= k <= |SurgeDomains|
      invariant result == alerts + SurgeAlerts(baseDomain, currDomain, t, SurgeDomains[..k])
    {
      var domain := SurgeDomains[k];
      var basePct := Get(baseDomain, domain, 0.0);
      var currPct := Get(currDomain, domain, 0.0);
      var shift := (currPct - basePct) * 100.0;
      if shift > t.domainShiftPct {
        result := result + [DomainSurge(domain, shift, basePct * 100.0, currPct * 100.0)];
      }
      assert SurgeDomains[..k + 1][..k] == SurgeDomains[..k];
      k := k + 1;
    }
    assert SurgeDomains[..k] == SurgeDomains;
  }

  // ---------------------------------------------------------------- alert properties

  /** A surge warning is raised only for "mind" and "emotion", exactly when the domain's
      share rose by more than the configured number of points. */
  lemma SurgeAlertsMeaning(baseDomain: Dict<string, real>, currDomain: Dict<string, real>, t: DriftThresholds)
    ensures forall a :: a in SurgeAlerts(baseDomain, currDomain, t, SurgeDomains) ==>
      a.DomainSurge? && (a.domain == "mind" || a.domain == "emotion") && a.Level() == Warning
    ensures forall d :: d in SurgeDomains ==>
      ((exists a :: a in SurgeAlerts(baseDomain, currDomain, t, SurgeDomains) && a.DomainSurge? && a.domain == d)
       <==> (Get(currDomain, d, 0.0) - Get(baseDomain, d, 0.0)) * 100.0 > t.domainShiftPct)
  {
    SurgeAlertsUnfold(baseDomain, currDomain, t);
    assert "mind" != "emotion";
  }

  function SurgeAlertFor(baseDomain: Dict<string, real>, currDomain: Dict<string, real>, t: DriftThresholds, d: string)
    : seq<DriftAlert>
  {
    var base, curr := Get(baseDomain, d, 0.0), Get(currDomain, d, 0.0);
    var shift := (curr - base) * 100.0;
    if shift > t.domainShiftPct then [DomainSurge(d, shift, base * 100.0, curr * 100.0)] else []
  }

  lemma SurgeAlertsUnfold(baseDomain: Dict<string, real>, currDomain: Dict<string, real>, t: DriftThresholds)
    ensures SurgeAlerts(baseDomain, currDomain, t, SurgeDomains)
      == SurgeAlertFor(baseDomain, currDomain, t, "mind") + SurgeAlertFor(baseDomain, currDomain, t, "emotion")
  {
    assert SurgeDomains[..1] == ["mind"];
    assert ["mind"][..0] == [];
    assert SurgeAlerts(baseDomain, currDomain, t, ["mind"]) == SurgeAlertFor(baseDomain, currDomain, t, "mind");
  }

  /** The volume warning is raised exactly when the volume status is not STABLE. */
  lemma VolumeAlertIff(vm: DriftMetric, dm: DriftMetric, am: DriftMetric, cm: DriftMetric,
                       bd: Dict<string, real>, cd: Dict<string, real>,
                       ba: Dict<string, real>, ca: Dict<string, real>, t: DriftThresholds)
    ensures (exists a :: a in DriftAlerts(vm, dm, am, cm, bd, cd, ba, ca, t) && a.VolumeChanged?) <==> vm.status != Stable
  {
    SurgeAlertsMeaning(bd, cd, t);
    if vm.status != Stable {
      assert VolumeChanged(vm.changePct) in DriftAlerts(vm, dm, am, cm, bd, cd, ba, ca, t);
    }
  }

  /** The collapse alert is raised exactly when the current high-arousal share is above 0.9
      and the baseline one below 0.7, whatever the arousal status. */
  lemma CollapseAlertIff(vm: DriftMetric, dm: DriftMetric, am: DriftMetric, cm: DriftMetric,
                         bd: Dict<string, real>, cd: Dict<string, real>,
                         ba: Dict<string, real>, ca: Dict<string, real>, t: DriftThresholds)
    ensures (exists a :: a in DriftAlerts(vm, dm, am, cm, bd, cd, ba, ca, t) && a.ArousalCollapse?)
      <==> Get(ca, "high", 0.0) > 0.9 && Get(ba, "high", 0.0) < 0.7
  {
    SurgeAlertsMeaning(bd, cd, t);
    if Get(ca, "high", 0.0) > 0.9 && Get(ba, "high", 0.0) < 0.7 {
      assert ArousalCollapse(Get(ca, "high", 0.0)) in DriftAlerts(vm, dm, am, cm, bd, cd, ba, ca, t);
    }
  }

  /** Critical shift alerts follow a BREAKAGE of the domain or arousal metric, and the
      confidence warning any non-stable confidence status. */
  lemma ShiftAlertsIff(vm: DriftMetric, dm: DriftMetric, am: DriftMetric, cm: DriftMetric,
                       bd: Dict<string, real>, cd: Dict<string, real>,
                       ba: Dict<string, real>, ca: Dict<string, real>, t: DriftThresholds)
    ensures DomainShift in DriftAlerts(vm, dm, am, cm, bd, cd, ba, ca, t) <==> dm.status == Breakage
    ensures ArousalShift in DriftAlerts(vm, dm, am, cm, bd, cd, ba, ca, t) <==> am.status == Breakage
    ensures (exists a :: a in DriftAlerts(vm, dm, am, cm, bd, cd, ba, ca, t) && a.ConfidenceShift?) <==> cm.status != Stable
  {
    var early := VolumeAlerts(vm) + SurgeAlerts(bd, cd, t, SurgeDomains) + CollapseAlerts(ba, ca);
    var shifts := ShiftAlerts(dm, am, cm);
    var all := DriftAlerts(vm, dm, am, cm, bd, cd, ba, ca, t);
    assert all == early + shifts;
    SurgeAlertsMeaning(bd, cd, t);
    assert forall a :: a in early ==> !a.DomainShift? && !a.ArousalShift? && !a.ConfidenceShift?;
    ShiftAlertsMembers(dm, am, cm);
    if cm.status != Stable {
      assert ConfidenceShift(PValue(cm)) in shifts;
      assert ConfidenceShift(PValue(cm)) in all;
    }
  }

  lemma ShiftAlertsMembers(dm: DriftMetric, am: DriftMetric, cm: DriftMetric)
    ensures forall a :: a in ShiftAlerts(dm, am, cm) <==>
      || (a == DomainShift && dm.status == Breakage)
      || (a == ArousalShift && am.status == Breakage)
      || (a == ConfidenceShift(PValue(cm)) && cm.status != Stable)
  {
  }

  /** Warnings and criticals by kind: surges, volume and confidence alerts warn; collapse
      and the two shift alerts are critical. */
  lemma AlertLevels(vm: DriftMetric, dm: DriftMetric, am: DriftMetric, cm: DriftMetric,
                    bd: Dict<string, real>, cd: Dict<string, real>,
                    ba: Dict<string, real>, ca: Dict<string, real>, t: DriftThresholds)
    ensures forall a :: a in DriftAlerts(vm, dm, am, cm, bd, cd, ba, ca, t) ==>
      (a.Level() == Critical <==> a.ArousalCollapse? || a.DomainShift? || a.ArousalShift?)
  {
  }

  /** The analysis reports its six metrics by name, in order. */
  lemma DriftMetricsNames(
    baseline: seq<ParserOutput>, current: seq<ParserOutput>, t: DriftThresholds,
    jsd: (seq<real>, seq<real>) -> real, ks2samp: (seq<real>, seq<real>) -> (real, real))
    ensures var ms := DriftMetrics(baseline, current, t, jsd, ks2samp);
      && |ms| == 6
      && ms[0].name == "extraction_volume" && ms[1].name == "uncertainty_rate" && ms[2].name == "domain_mix"
      && ms[3].name == "arousal_distribution" && ms[4].name == "intensity_distribution"
      && ms[5].name == "confidence_distribution"
  {
    ScalarMetricsNames(baseline, current, t, jsd, ks2samp);
    DistributionMetricsNames(baseline, current, t, jsd, ks2samp);
  }

  /** The volume, uncertainty and confidence metrics sit first, second and last. */
  lemma ScalarMetricsNames(
    baseline: seq<ParserOutput>, current: seq<ParserOutput>, t: DriftThresholds,
    jsd: (seq<real>, seq<real>) -> real, ks2samp: (seq<real>, seq<real>) -> (real, real))
    ensures var ms := DriftMetrics(baseline, current, t, jsd, ks2samp);
      && |ms| == 6
      && ms[0].name == "extraction_volume" && ms[1].name == "uncertainty_rate"
      && ms[5].name == "confidence_distribution"
  {
  }

  /** The three distribution metrics sit in the middle, domain, arousal, intensity. */
  lemma DistributionMetricsNames(
    baseline: seq<ParserOutput>, current: seq<ParserOutput>, t: DriftThresholds,
    jsd: (seq<real>, seq<real>) -> real, ks2samp: (seq<real>, seq<real>) -> (real, real))
    ensures var ms := DriftMetrics(baseline, current, t, jsd, ks2samp);
      && |ms| == 6
      && ms[2].name == "domain_mix" && ms[3].name == "arousal_distribution"
      && ms[4].name == "intensity_distribution"
  {
    var bi, ci := GetAllItems(baseline), GetAllItems(current);
    CompareNamed(DomainDistribution(bi), DomainDistribution(ci), "domain_mix", t, jsd);
    CompareNamed(ArousalDistribution(bi), ArousalDistribution(ci), "arousal_distribution", t, jsd);
    CompareNamed(IntensityDistribution(bi), IntensityDistribution(ci), "intensity_distribution", t, jsd);
  }

  lemma CompareNamed(
    baseline: Dict<string, real>, current: Dict<string, real>, name: string, t: DriftThresholds,
    jsd: (seq<real>, seq<real>) -> real)
    ensures CompareDistributions(baseline, current, name, t, jsd).name == name
  {
  }

  /** The volume metric follows the volume rule, and with no baseline outputs its change is 0
      and its status STABLE. */
  lemma VolumeMetricRule(baseline: seq<ParserOutput>, current: seq<ParserOutput>, t: DriftThresholds)
    ensures VolumeMetric(baseline, current, t).status == VolumeStatus(VolumeMetric(baseline, current, t).changePct, t)
    ensures baseline == [] ==> VolumeMetric(baseline, current, t).changePct == 0.0
    ensures baseline == [] && t.volumeChangePct >= 0.0 ==> VolumeMetric(baseline, current, t).status == Stable
  {
  }

  /** Both uncertainty rates are in [0, 1], and a current rate above 0.6 is BREAKAGE. */
  lemma UncertaintyMetricRule(baseItems: seq<ParserItem>, currItems: seq<ParserItem>)
    ensures var m := UncertaintyMetric(baseItems, currItems);
      && 0.0 <= m.baselineValue <= 1.0 && 0.0 <= m.currentValue <= 1.0
      && (m.currentValue > 0.6 ==> m.status == Breakage)
  {
    UncertainCountSpec(baseItems);
    UncertainCountSpec(currItems);
  }

  /** The confidence status follows the p-value, and with fewer than 2 items on either side
      the test is neutral and the status STABLE. */
  lemma ConfidenceMetricRule(
    baseItems: seq<ParserItem>, currItems: seq<ParserItem>, ks2samp: (seq<real>, seq<real>) -> (real, real))
    ensures var m := ConfidenceMetric(baseItems, currItems, ks2samp);
      && m.ksPvalue.Some? && m.status == ConfidenceStatus(m.ksPvalue.value)
      && (|baseItems| < 2 || |currItems| < 2 ==> m.ksPvalue == Some(1.0) && m.ksStatistic == Some(0.0) && m.status == Stable)
  {
  }
}
