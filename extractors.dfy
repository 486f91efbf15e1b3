/** The per-run metrics the drift comparison compares: the uncertainty rate, the number of
    items per journal, and the categorical distributions of domains, arousal buckets and
    intensity buckets. */
module Extractors {
  import opened Dicts
  import opened Models
  import opened Statistical

  // ---------------------------------------------------------------- uncertainty

  /** An item is uncertain when its intensity is "unknown", when it is an emotion item
      without an arousal bucket, or when its confidence is below 0.5. */
  predicate IsUncertain(item: ParserItem) {
    || item.intensityBucket == Some("unknown")
    || (item.domain == Emotion && item.arousalBucket.None?)
    || item.confidence < 0.5
  }

  function UncertainCount(items: seq<ParserItem>): nat {
    if items == [] then 0
    else UncertainCount(items[..|items| - 1]) + (if IsUncertain(items[|items| - 1]) then 1 else 0)
  }

  /** No more items are uncertain than there are items; none are exactly when no item is
      uncertain, and all are exactly when every item is. */
  lemma {:induction false} UncertainCountSpec(items: seq<ParserItem>)
    ensures UncertainCount(items) <= |items|
    ensures UncertainCount(items) == 0 <==> forall i :: 0 <= i < |items| ==> !IsUncertain(items[i])
    ensures UncertainCount(items) == |items| <==> forall i :: 0 <= i < |items| ==> IsUncertain(items[i])
  {
    if items != [] {
      var init := items[..|items| - 1];
      UncertainCountSpec(init);
      assert forall i :: 0 <= i < |init| ==> init[i] == items[i];
    }
  }

  /** `compute_uncertainty_rate`: uncertain items over items, 0.0 for no items. */
  method ComputeUncertaintyRate(items: seq<ParserItem>) returns (rate: real)
    ensures rate == Ratio(UncertainCount(items), |items|, 0.0)
    ensures 0.0 <= rate <= 1.0
  {
    if items == [] {
      return 0.0;
    }
    var uncertainCount := 0;
    var n := 0;
    while n < |items|
      invariant 0 <= n <= |items|
      invariant uncertainCount == UncertainCount(items[..n])
    {
      var item := items[n];
      var isUncertain := false;
      if item.intensityBucket == Some("unknown") {
        isUncertain := true;
      }
      if item.domain == Emotion && item.arousalBucket.None? {
        isUncertain := true;
      }
      if item.confidence < 0.5 {
        isUncertain := true;
      }
      if isUncertain {
        uncertainCount := uncertainCount + 1;
      }
      assert items[..n + 1][..n] == items[..n];
      n := n + 1;
    }
    assert items[..n] == items;
    UncertainCountSpec(items);
    rate := uncertainCount as real / |items| as real;
  }

  // ---------------------------------------------------------------- volume

  /** `compute_extraction_volume` without `std`: for no outputs only the zero mean and zero
      rate, otherwise also the totals. */
  datatype ExtractionVolume =
    | EmptyVolume
    | Volume(mean: real, zeroRate: real, totalItems: nat, totalJournals: nat)
  {
    /** `volume["mean"]` */
    function Mean(): real {
      if EmptyVolume? then 0.0 else mean
    }
  }

  /** The number of outputs with no items. */
  function EmptyJournals(outputs: seq<ParserOutput>): nat {
    if outputs == [] then 0
    else EmptyJournals(outputs[..|outputs| - 1]) + (if outputs[|outputs| - 1].items == [] then 1 else 0)
  }

  lemma {:induction false} EmptyJournalsSpec(outputs: seq<ParserOutput>)
    ensures EmptyJournals(outputs) <= |outputs|
    ensures EmptyJournals(outputs) == |outputs| <==> TotalItems(outputs) == 0
  {
    if outputs != [] {
      EmptyJournalsSpec(outputs[..|outputs| - 1]);
    }
  }

  /** For no outputs the empty volume; otherwise the totals and a zero rate in [0, 1]. */
  function ComputeExtractionVolume(outputs: seq<ParserOutput>): (v: ExtractionVolume)
    ensures outputs == [] <==> v.EmptyVolume?
    ensures v.Volume? ==>
      && 0.0 <= v.zeroRate <= 1.0
      && v.totalItems == TotalItems(outputs) && v.totalJournals == |outputs|
  {
    if outputs == [] then EmptyVolume
    else
      EmptyJournalsSpec(outputs);
      Volume(Ratio(TotalItems(outputs), |outputs|, 0.0), Ratio(EmptyJournals(outputs), |outputs|, 0.0),
        TotalItems(outputs), |outputs|)
  }

  /** The mean is the total item count over the number of journals and the zero rate the
      share of journals with no items. */
  lemma ExtractionVolumeSpec(outputs: seq<ParserOutput>)
    requires outputs != []
    ensures var v := ComputeExtractionVolume(outputs);
      && v.mean == TotalItems(outputs) as real / |outputs| as real
      && v.zeroRate == EmptyJournals(outputs) as real / |outputs| as real
  {
  }

  /** The mean is 0 exactly when every journal is empty. */
  lemma ZeroMeanAllEmpty(outputs: seq<ParserOutput>)
    requires outputs != []
    ensures ComputeExtractionVolume(outputs).Mean() == 0.0 <==> ComputeExtractionVolume(outputs).zeroRate == 1.0
  {
    var v := ComputeExtractionVolume(outputs);
    var n := |outputs|;
    EmptyJournalsSpec(outputs);
    assert v.zeroRate == EmptyJournals(outputs) as real / n as real;
    assert v.mean == TotalItems(outputs) as real / n as real;
    if v.zeroRate == 1.0 {
      assert EmptyJournals(outputs) == n;
    }
    if TotalItems(outputs) == 0 {
      assert n as real / n as real == 1.0;
    }
  }

  // ---------------------------------------------------------------- distributions

  function DomainKey(item: ParserItem): Option<string> {
    Some(item.domain.Value())
  }

  /** Emotion items with a (non-empty) arousal bucket count, by that bucket. */
  function ArousalKey(item: ParserItem): Option<string> {
    if item.domain == Emotion && item.arousalBucket.Some? && item.arousalBucket.value != "" then item.arousalBucket
    else None
  }

  /** Non-emotion items with a (non-empty) intensity bucket count, by that bucket. */
  function IntensityKey(item: ParserItem): Option<string> {
    if item.domain != Emotion && item.intensityBucket.Some? && item.intensityBucket.value != "" then item.intensityBucket
    else None
  }

  function DomainDistribution(items: seq<ParserItem>): Dict<string, real> {
    Normalized(CountAll(PresentKeys(items, DomainKey)))
  }

  function ArousalDistribution(items: seq<ParserItem>): Dict<string, real> {
    Normalized(CountAll(PresentKeys(items, ArousalKey)))
  }

  function IntensityDistribution(items: seq<ParserItem>): Dict<string, real> {
    Normalized(CountAll(PresentKeys(items, IntensityKey)))
  }

  /** Counts the filtered keys, then divides by their number; `{}` when none survive the
      filter. Shared by the three `compute_*_distribution` functions. */
  method Distribute(keys: seq<string>) returns (dist: Dict<string, real>)
    ensures dist == Normalized(CountAll(keys))
  {
    if keys == [] {
      return [];
    }
    var counts := CountKeys(keys);
    CountAllSpec(keys);
    dist := Shares(counts, SumNat(counts));
  }

  /** `compute_domain_distribution` */
  method ComputeDomainDistribution(items: seq<ParserItem>) returns (dist: Dict<string, real>)
    ensures dist == DomainDistribution(items)
  {
    dist := Distribute(PresentKeys(items, DomainKey));
  }

  /** `compute_arousal_distribution` */
  method ComputeArousalDistribution(items: seq<ParserItem>) returns (dist: Dict<string, real>)
    ensures dist == ArousalDistribution(items)
  {
    dist := Distribute(PresentKeys(items, ArousalKey));
  }

  /** `compute_intensity_distribution` */
  method ComputeIntensityDistribution(items: seq<ParserItem>) returns (dist: Dict<string, real>)
    ensures dist == IntensityDistribution(items)
  {
    dist := Distribute(PresentKeys(items, IntensityKey));
  }

  /** The domain distribution is `{}` only for no items; its keys are exactly the domains
      present, its shares are the domain counts over the item count, and they sum to 1. */
  lemma DomainDistributionSpec(items: seq<ParserItem>)
    ensures DomainDistribution(items) == [] <==> items == []
    ensures forall d: Domain :: d.Value() in Keys(DomainDistribution(items)) <==>
      exists i :: 0 <= i < |items| && items[i].domain == d
    ensures forall k :: k in Keys(DomainDistribution(items)) ==> exists d: Domain :: k == d.Value()
    ensures items != [] ==> SumReal(DomainDistribution(items)) == 1.0
    ensures items != [] ==>
      forall d: Domain :: Get(DomainDistribution(items), d.Value(), 0.0) == Fraction(multiset(PresentKeys(items, DomainKey))[d.Value()], |items|)
  {
    DistributionSpec(items, DomainKey);
    AllKeysPresent(items, DomainKey);
    forall d: Domain ensures d.Value() in Keys(DomainDistribution(items)) <==>
      exists i :: 0 <= i < |items| && items[i].domain == d
    {
      if exists i :: 0 <= i < |items| && items[i].domain == d {
        var i :| 0 <= i < |items| && items[i].domain == d;
        assert DomainKey(items[i]) == Some(d.Value());
      }
      if d.Value() in Keys(DomainDistribution(items)) {
        var i :| 0 <= i < |items| && DomainKey(items[i]) == Some(d.Value());
        DomainValueInjective(items[i].domain, d);
      }
    }
    forall k | k in Keys(DomainDistribution(items)) ensures exists d: Domain :: k == d.Value() {
      var i :| 0 <= i < |items| && DomainKey(items[i]) == Some(k);
      assert k == items[i].domain.Value();
    }
    if items != [] {
      assert DomainKey(items[0]).Some?;
    }
  }

  /** The arousal distribution's keys are exactly the non-empty arousal buckets of emotion
      items, and its shares sum to 1 unless it is empty. */
  lemma ArousalDistributionSpec(items: seq<ParserItem>)
    ensures ArousalDistribution(items) == [] <==>
      forall i :: 0 <= i < |items| ==> !(items[i].domain == Emotion && items[i].arousalBucket.Some? && items[i].arousalBucket.value != "")
    ensures forall b :: b in Keys(ArousalDistribution(items)) <==>
      exists i :: 0 <= i < |items| && items[i].domain == Emotion && items[i].arousalBucket == Some(b) && b != ""
    ensures ArousalDistribution(items) != [] ==> SumReal(ArousalDistribution(items)) == 1.0
  {
    DistributionSpec(items, ArousalKey);
  }

  /** An item that is not an emotion item leaves the arousal distribution unchanged. */
  lemma ArousalIgnoresOtherDomains(items: seq<ParserItem>, x: ParserItem)
    requires x.domain != Emotion
    ensures ArousalDistribution(items + [x]) == ArousalDistribution(items)
  {
    NoneKeysSkipped(items, x, ArousalKey);
  }

  /** The intensity distribution's keys are exactly the non-empty intensity buckets of
      non-emotion items, "unknown" included, and its shares sum to 1 unless it is empty. */
  lemma IntensityDistributionSpec(items: seq<ParserItem>)
    ensures IntensityDistribution(items) == [] <==>
      forall i :: 0 <= i < |items| ==> !(items[i].domain != Emotion && items[i].intensityBucket.Some? && items[i].intensityBucket.value != "")
    ensures forall b :: b in Keys(IntensityDistribution(items)) <==>
      exists i :: 0 <= i < |items| && items[i].domain != Emotion && items[i].intensityBucket == Some(b) && b != ""
    ensures IntensityDistribution(items) != [] ==> SumReal(IntensityDistribution(items)) == 1.0
  {
    DistributionSpec(items, IntensityKey);
  }

  /** An emotion item leaves the intensity distribution unchanged. */
  lemma IntensityIgnoresEmotion(items: seq<ParserItem>, x: ParserItem)
    requires x.domain == Emotion
    ensures IntensityDistribution(items + [x]) == IntensityDistribution(items)
  {
    NoneKeysSkipped(items, x, IntensityKey);
  }
}
