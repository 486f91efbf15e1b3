/** The statistical wrappers of the drift metrics: the categorical distribution of a list, and
    the small-sample guards around the two-sample Kolmogorov-Smirnov test and the chi-squared
    goodness-of-fit test. The tests themselves are parameters. */
module Statistical {
  import opened Dicts
  import opened Models

  // ---------------------------------------------------------------- distribution

  /** The keys `key_fn` gives the items, in item order, with the items it maps to `None` left
      out. */
  function PresentKeys<T>(items: seq<T>, key: T -> Option<string>): seq<string> {
    if items == [] then []
    else
      var k := key(items[|items| - 1]);
      PresentKeys(items[..|items| - 1], key) + (if k.Some? then [k.value] else [])
  }

  lemma {:induction false} PresentKeysMembers<T>(items: seq<T>, key: T -> Option<string>)
    ensures |PresentKeys(items, key)| <= |items|
    ensures forall k :: k in PresentKeys(items, key) <==> exists i :: 0 <= i < |items| && key(items[i]) == Some(k)
  {
    if items != [] {
      var init := items[..|items| - 1];
      PresentKeysMembers(init, key);
      forall k | (exists i :: 0 <= i < |items| && key(items[i]) == Some(k))
        ensures k in PresentKeys(items, key)
      {
        var i :| 0 <= i < |items| && key(items[i]) == Some(k);
        if i < |init| {
          assert key(init[i]) == Some(k);
        }
      }
      forall k | k in PresentKeys(items, key)
        ensures exists i :: 0 <= i < |items| && key(items[i]) == Some(k)
      {
        if k in PresentKeys(init, key) {
          var i :| 0 <= i < |init| && key(init[i]) == Some(k);
          assert items[i] == init[i];
        } else {
          assert key(items[|items| - 1]) == Some(k);
        }
      }
    }
  }

  /** `compute_distribution`: count the non-`None` keys in a dictionary, then divide each
      count by the number counted; `{}` for no items or when every key is `None`. */
  method ComputeDistribution<T>(items: seq<T>, key: T -> Option<string>) returns (dist: Dict<string, real>)
    ensures dist == Normalized(CountAll(PresentKeys(items, key)))
  {
    if items == [] {
      return [];
    }
    var counts: Dict<string, nat> := [];
    var n := 0;
    while n < |items|
      invariant 0 <= n <= |items|
      invariant counts == CountAll(PresentKeys(items[..n], key))
    {
      var k := key(items[n]);
      assert items[..n + 1][..n] == items[..n];
      assert PresentKeys(items[..n + 1], key) == PresentKeys(items[..n], key) + (if k.Some? then [k.value] else []);
      if k.Some? {
        CountAllAppend(PresentKeys(items[..n], key), k.value);
        counts := Put(counts, k.value, Get(counts, k.value, 0) + 1);
      } else {
        assert PresentKeys(items[..n + 1], key) == PresentKeys(items[..n], key);
      }
      n := n + 1;
    }
    assert items[..n] == items;
    if SumNat(counts) == 0 {
      return [];
    }
    dist := Shares(counts, SumNat(counts));
  }

  /** The counting loop `counts[k] = counts.get(k, 0) + 1` over a list of keys. */
  method CountKeys(keys: seq<string>) returns (counts: Dict<string, nat>)
    ensures counts == CountAll(keys)
  {
    counts := [];
    var n := 0;
    while n < |keys|
      invariant 0 <= n <= |keys|
      invariant counts == CountAll(keys[..n])
    {
      assert keys[..n + 1] == keys[..n] + [keys[n]];
      CountAllAppend(keys[..n], keys[n]);
      counts := Put(counts, keys[n], Get(counts, keys[n], 0) + 1);
      n := n + 1;
    }
    assert keys[..n] == keys;
  }

  /** When every item has a key, one key is counted per item. */
  lemma {:induction false} AllKeysPresent<T>(items: seq<T>, key: T -> Option<string>)
    requires forall i :: 0 <= i < |items| ==> key(items[i]).Some?
    ensures |PresentKeys(items, key)| == |items|
  {
    if items != [] {
      AllKeysPresent(items[..|items| - 1], key);
    }
  }

  /** The distribution is empty exactly when no item has a key; otherwise its keys are the
      distinct present keys, each share is that key's count over the number of present keys,
      and the shares sum to 1. */
  lemma DistributionSpec<T>(items: seq<T>, key: T -> Option<string>)
    ensures var dist := Normalized(CountAll(PresentKeys(items, key)));
      && (dist == [] <==> forall i :: 0 <= i < |items| ==> key(items[i]).None?)
      && (forall k :: k in Keys(dist) <==> exists i :: 0 <= i < |items| && key(items[i]) == Some(k))
      && Distinct(Keys(dist))
      && (dist != [] ==> SumReal(dist) == 1.0)
      && (dist != [] ==>
            forall k :: Get(dist, k, 0.0) == Fraction(multiset(PresentKeys(items, key))[k], |PresentKeys(items, key)|))
  {
    DistributionKeys(items, key);
    ShareOfCounts(PresentKeys(items, key));
  }

  lemma DistributionKeys<T>(items: seq<T>, key: T -> Option<string>)
    ensures var dist := Normalized(CountAll(PresentKeys(items, key)));
      && (dist == [] <==> forall i :: 0 <= i < |items| ==> key(items[i]).None?)
      && (forall k :: k in Keys(dist) <==> exists i :: 0 <= i < |items| && key(items[i]) == Some(k))
      && Distinct(Keys(dist))
  {
    var keys := PresentKeys(items, key);
    PresentKeysMembers(items, key);
    PresentKeysEmpty(items, key);
    NormalizedKeys(keys);
    DedupSpec(keys);
  }

  lemma {:induction false} PresentKeysEmpty<T>(items: seq<T>, key: T -> Option<string>)
    ensures PresentKeys(items, key) == [] <==> forall i :: 0 <= i < |items| ==> key(items[i]).None?
  {
    if items != [] {
      var init := items[..|items| - 1];
      PresentKeysEmpty(init, key);
      assert forall i :: 0 <= i < |init| ==> init[i] == items[i];
    }
  }

  /** Items whose key is `None` do not change the distribution. */
  lemma {:induction false} NoneKeysSkipped<T>(items: seq<T>, x: T, key: T -> Option<string>)
    requires key(x).None?
    ensures PresentKeys(items + [x], key) == PresentKeys(items, key)
  {
    assert (items + [x])[..|items|] == items;
  }

  // ---------------------------------------------------------------- Kolmogorov-Smirnov

  /** `ks_test`: (statistic, p-value) of the two-sample test `ks2samp`, or the neutral
      (0.0, 1.0) when either sample has fewer than 2 values. */
  function KsTest(baseline: seq<real>, current: seq<real>, ks2samp: (seq<real>, seq<real>) -> (real, real))
    : (r: (real, real))
    ensures |baseline| < 2 || |current| < 2 ==> r == (0.0, 1.0)
    ensures |baseline| >= 2 && |current| >= 2 ==> r == ks2samp(baseline, current)
  {
    if |baseline| < 2 || |current| < 2 then (0.0, 1.0) else ks2samp(baseline, current)
  }

  // ---------------------------------------------------------------- chi-squared

  function SumInts(s: seq<nat>): nat {
    if s == [] then 0 else SumInts(s[..|s| - 1]) + s[|s| - 1]
  }

  function SumReals(s: seq<real>): real {
    if s == [] then 0.0 else SumReals(s[..|s| - 1]) + s[|s| - 1]
  }

  /** `sorted(set(baseline) | set(current))` */
  function Categories(baseline: Dict<string, nat>, current: Dict<string, nat>): seq<string> {
    SortedUnique(Keys(baseline) + Keys(current))
  }

  /** `[counts.get(c, 0) for c in categories]` */
  function CountsAt(counts: Dict<string, nat>, categories: seq<string>): seq<nat> {
    seq(|categories|, i requires 0 <= i < |categories| => Get(counts, categories[i], 0))
  }

  /** `e * total_obs / total_exp`, one count rescaled. */
  function Share(e: nat, totalObs: nat, totalExp: nat): real
    requires totalExp > 0
  {
    e as real * totalObs as real / totalExp as real
  }

  /** `[e * total_obs / total_exp for e in expected]` */
  function Rescale(expected: seq<nat>, totalObs: nat, totalExp: nat): (r: seq<real>)
    requires totalExp > 0
    ensures |r| == |expected|
  {
    if expected == [] then []
    else Rescale(expected[..|expected| - 1], totalObs, totalExp) + [Share(expected[|expected| - 1], totalObs, totalExp)]
  }

  /** The (observed, expected) pairs whose expected count is positive. */
  function Positive(observed: seq<nat>, expected: seq<real>): seq<(nat, real)>
    requires |observed| == |expected|
  {
    if observed == [] then []
    else
      var n := |observed| - 1;
      Positive(observed[..n], expected[..n]) + (if expected[n] > 0.0 then [(observed[n], expected[n])] else [])
  }

  function Firsts(ps: seq<(nat, real)>): seq<nat> {
    seq(|ps|, i requires 0 <= i < |ps| => ps[i].0)
  }

  function Seconds(ps: seq<(nat, real)>): seq<real> {
    seq(|ps|, i requires 0 <= i < |ps| => ps[i].1)
  }

  /** `chi_squared_test`: compare the current counts against the baseline counts rescaled to
      the current total, over the sorted union of categories; the neutral (0.0, 1.0) when the
      baseline counts nothing or fewer than 2 categories have a positive expected count.
      `chisquare` stands for the test itself. */
  function ChiSquaredTest(
    baseline: Dict<string, nat>, current: Dict<string, nat>, chisquare: (seq<nat>, seq<real>) -> (real, real))
    : (real, real)
  {
    var categories := Categories(baseline, current);
    var observed := CountsAt(current, categories);
    var expected := CountsAt(baseline, categories);
    if SumInts(expected) == 0 then (0.0, 1.0)
    else
      var valid := Positive(observed, Rescale(expected, SumInts(observed), SumInts(expected)));
      if |valid| < 2 then (0.0, 1.0) else chisquare(Firsts(valid), Seconds(valid))
  }

  /** Rescaling keeps one expectation per category, adds up to the rescaled total, and gives
      all zeros when nothing was observed. */
  lemma RescaleSpec(expected: seq<nat>, totalObs: nat, totalExp: nat)
    requires totalExp > 0
    ensures |Rescale(expected, totalObs, totalExp)| == |expected|
    ensures SumReals(Rescale(expected, totalObs, totalExp)) == Share(SumInts(expected), totalObs, totalExp)
    ensures totalObs == 0 ==> forall i :: 0 <= i < |expected| ==> Rescale(expected, totalObs, totalExp)[i] == 0.0
  {
    RescaleSum(expected, totalObs, totalExp);
    RescaleNothing(expected, totalObs, totalExp);
  }

  /** Rescaling distributes over a sum of counts. */
  lemma ShareAdd(a: nat, b: nat, totalObs: nat, totalExp: nat)
    requires totalExp > 0
    ensures Share(a, totalObs, totalExp) + Share(b, totalObs, totalExp) == Share(a + b, totalObs, totalExp)
  {
    assert (a as real + b as real) * totalObs as real == a as real * totalObs as real + b as real * totalObs as real;
  }

  lemma {:induction false} RescaleSum(expected: seq<nat>, totalObs: nat, totalExp: nat)
    requires totalExp > 0
    ensures SumReals(Rescale(expected, totalObs, totalExp)) == Share(SumInts(expected), totalObs, totalExp)
  {
    if expected != [] {
      var init, e := expected[..|expected| - 1], expected[|expected| - 1];
      RescaleSum(init, totalObs, totalExp);
      var r := Rescale(expected, totalObs, totalExp);
      assert r[..|r| - 1] == Rescale(init, totalObs, totalExp);
      ShareAdd(SumInts(init), e, totalObs, totalExp);
    }
  }

  lemma {:induction false} RescaleNothing(expected: seq<nat>, totalObs: nat, totalExp: nat)
    requires totalExp > 0
    ensures totalObs == 0 ==> forall i :: 0 <= i < |expected| ==> Rescale(expected, totalObs, totalExp)[i] == 0.0
  {
    if expected != [] && totalObs == 0 {
      RescaleNothing(expected[..|expected| - 1], totalObs, totalExp);
    }
  }

  /** The rescaled expected counts sum to the observed total. */
  lemma RescaledToObserved(expected: seq<nat>, totalObs: nat)
    requires SumInts(expected) > 0
    ensures SumReals(Rescale(expected, totalObs, SumInts(expected))) == totalObs as real
  {
    var totalExp := SumInts(expected);
    RescaleSpec(expected, totalObs, totalExp);
    ShareOfWhole(totalObs, totalExp);
  }

  lemma ShareOfWhole(totalObs: nat, totalExp: nat)
    requires totalExp > 0
    ensures Share(totalExp, totalObs, totalExp) == totalObs as real
  {
  }

  /** The categories are sorted, free of repeats, and exactly the keys of either side. */
  lemma CategoriesSpec(baseline: Dict<string, nat>, current: Dict<string, nat>)
    ensures StrictlySorted(Categories(baseline, current))
    ensures Distinct(Categories(baseline, current))
    ensures forall c :: c in Categories(baseline, current) <==> c in Keys(baseline) || c in Keys(current)
  {
    SortedUniqueSpec(Keys(baseline) + Keys(current));
    SortedIsDistinct(Categories(baseline, current));
  }

  lemma {:induction false} PositiveSpec(observed: seq<nat>, expected: seq<real>)
    requires |observed| == |expected|
    ensures |Positive(observed, expected)| <= |observed|
    ensures forall p :: p in Positive(observed, expected) ==> p.1 > 0.0
    ensures (forall i :: 0 <= i < |expected| ==> expected[i] == 0.0) ==> Positive(observed, expected) == []
  {
    if observed != [] {
      var n := |observed| - 1;
      PositiveSpec(observed[..n], expected[..n]);
    }
  }

  /** With no baseline counts the test is neutral. */
  lemma EmptyBaselineNeutral(baseline: Dict<string, nat>, current: Dict<string, nat>, chisquare: (seq<nat>, seq<real>) -> (real, real))
    requires SumInts(CountsAt(baseline, Categories(baseline, current))) == 0
    ensures ChiSquaredTest(baseline, current, chisquare) == (0.0, 1.0)
  {
  }

  /** With no current counts every rescaled expectation is 0, so the test is neutral too. */
  lemma NoObservationsNeutral(baseline: Dict<string, nat>, current: Dict<string, nat>, chisquare: (seq<nat>, seq<real>) -> (real, real))
    requires SumInts(CountsAt(current, Categories(baseline, current))) == 0
    ensures ChiSquaredTest(baseline, current, chisquare) == (0.0, 1.0)
  {
    var categories := Categories(baseline, current);
    var observed := CountsAt(current, categories);
    var expected := CountsAt(baseline, categories);
    if SumInts(expected) > 0 {
      var scaled := Rescale(expected, 0, SumInts(expected));
      RescaleSpec(expected, 0, SumInts(expected));
      PositiveSpec(observed, scaled);
    }
  }

  /** The test runs only when at least 2 categories have a positive expectation, and then on
      exactly those pairs, every expectation positive. */
  lemma ChiSquaredRuns(baseline: Dict<string, nat>, current: Dict<string, nat>, chisquare: (seq<nat>, seq<real>) -> (real, real))
    requires ChiSquaredTest(baseline, current, chisquare) != (0.0, 1.0)
    ensures var categories := Categories(baseline, current);
      var observed := CountsAt(current, categories);
      var expected := CountsAt(baseline, categories);
      && SumInts(expected) > 0
      && var valid := Positive(observed, Rescale(expected, SumInts(observed), SumInts(expected)));
      && |valid| >= 2
      && (forall i :: 0 <= i < |valid| ==> Seconds(valid)[i] > 0.0)
      && ChiSquaredTest(baseline, current, chisquare) == chisquare(Firsts(valid), Seconds(valid))
  {
    var categories := Categories(baseline, current);
    var observed := CountsAt(current, categories);
    var expected := CountsAt(baseline, categories);
    var scaled := Rescale(expected, SumInts(observed), SumInts(expected));
    RescaleSpec(expected, SumInts(observed), SumInts(expected));
    PositiveSpec(observed, scaled);
    var valid := Positive(observed, scaled);
    forall i | 0 <= i < |valid| ensures Seconds(valid)[i] > 0.0 {
      assert valid[i] in valid;
    }
  }
}
