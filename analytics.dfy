/** The analytics helpers: the arrow and icon a drift metric is shown with, the automatic
    diagnosis of violation patterns, the clamped confidence interval of a rate and its
    three-way reading against the 5% hallucination threshold. */
module Analytics {
  import opened Dicts
  import opened Models

  // ---------------------------------------------------------------- arrows and icons

  datatype Arrow = DoubleUp | Up | DoubleDown | Down | Flat {
    function Symbol(): string {
      match this
      case DoubleUp => "⬆️⬆️"
      case Up => "↑"
      case DoubleDown => "⬇️⬇️"
      case Down => "↓"
      case Flat => "→"
    }
  }

  /** `_get_change_arrow`: five bands of the change in percent, the outer ones beyond 20,
      the inner ones beyond 5, flat in between. */
  function ChangeArrow(changePct: real): (r: Arrow)
    ensures r == DoubleUp <==> changePct > 20.0
    ensures r == Up <==> 5.0 < changePct <= 20.0
    ensures r == DoubleDown <==> changePct < -20.0
    ensures r == Down <==> -20.0 <= changePct < -5.0
    ensures r == Flat <==> -5.0 <= changePct <= 5.0
  {
    if changePct > 20.0 then DoubleUp
    else if changePct > 5.0 then Up
    else if changePct < -20.0 then DoubleDown
    else if changePct < -5.0 then Down
    else Flat
  }

  /** The arrow points the way of the change, and a larger change never gets a lower arrow. */
  lemma ChangeArrowMonotone(a: real, b: real)
    requires a <= b
    ensures ArrowRank(ChangeArrow(a)) <= ArrowRank(ChangeArrow(b))
  {
  }

  function ArrowRank(r: Arrow): int {
    match r
    case DoubleDown => -2
    case Down => -1
    case Flat => 0
    case Up => 1
    case DoubleUp => 2
  }

  /** `_get_status_icon` */
  function StatusIcon(status: DriftStatus): (r: string)
    ensures r == "🔴 BREAKAGE" <==> status == Breakage
    ensures r == "🟡 DRIFT" <==> status == Drift
    ensures r == "✅ STABLE" <==> status == Stable
  {
    match status
    case Breakage => "🔴 BREAKAGE"
    case Drift => "🟡 DRIFT"
    case Stable => "✅ STABLE"
  }

  // ---------------------------------------------------------------- auto-diagnosis

  datatype Pattern =
    | SystematicHallucination(pattern: string, occurrences: nat)
    | PolarityConfusion(occurrences: nat)
    | HotJournal(journalId: string, violations: nat)

  datatype DiagnosisSeverity = NoSeverity | Medium | High {
    function Value(): string {
      match this
      case NoSeverity => "none"
      case Medium => "medium"
      case High => "high"
    }
  }

  datatype Diagnosis = Diagnosis(
    patterns: seq<Pattern>, likelyCauses: seq<string>, recommendedActions: seq<string>, severity: DiagnosisSeverity)

  const EmptyDiagnosis := Diagnosis([], [], [], NoSeverity)
  const NegationCause := "Parser may not handle negation " + "words (no, not, without) correctly"
  const NegationAction := "Add negation examples " + "to parser prompt training"
  const HotAction := "Review hot journals for " + "unusual patterns or adversarial content"

  /** `s.replace(pat, rep)`: every non-overlapping occurrence, left to right. */
  function ReplaceAll(s: string, pat: string, rep: string): string
    requires pat != []
    decreases |s|
  {
    if |s| < |pat| then s
    else if s[..|pat|] == pat then rep + ReplaceAll(s[|pat|..], pat, rep)
    else [s[0]] + ReplaceAll(s[1..], pat, rep)
  }

  predicate OccursAt(s: string, pat: string, i: int) {
    0 <= i && i + |pat| <= |s| && s[i..i + |pat|] == pat
  }

  /** Text without the pattern is left alone, and deleting never lengthens a text. */
  lemma {:induction false} ReplaceAllSpec(s: string, pat: string)
    requires pat != []
    ensures |ReplaceAll(s, pat, "")| <= |s|
    ensures (forall i :: 0 <= i <= |s| - |pat| ==> !OccursAt(s, pat, i)) ==> ReplaceAll(s, pat, "") == s
    decreases |s|
  {
    if |s| >= |pat| {
      if s[..|pat|] == pat {
        ReplaceAllSpec(s[|pat|..], pat);
        assert OccursAt(s, pat, 0);
      } else {
        ReplaceAllSpec(s[1..], pat);
        if forall i :: 0 <= i <= |s| - |pat| ==> !OccursAt(s, pat, i) {
          forall i | 0 <= i <= |s[1..]| - |pat| ensures !OccursAt(s[1..], pat, i) {
            assert s[1..][i..i + |pat|] == s[i + 1..i + 1 + |pat|];
            assert !OccursAt(s, pat, i + 1);
          }
          assert s == [s[0]] + s[1..];
        }
      }
    }
  }

  /** The span text recovered from a hallucination's details. */
  function SpanText(details: string): string {
    ReplaceAll(ReplaceAll(details, "span '", ""), "' not in source", "")
  }

  function HallucinationCause(spanText: string): string {
    "Parser prompt may contain '" + spanText + "' as an example, " + "causing over-extraction"
  }

  function HallucinationAction(spanText: string): string {
    "Review parser prompt for " + "leading examples containing '" + spanText + "'"
  }

  /** The details of the `evidence_not_found` violations. */
  function EvidenceDetails(vs: seq<InvariantViolation>): seq<string> {
    if vs == [] then []
    else
      var last := vs[|vs| - 1];
      EvidenceDetails(vs[..|vs| - 1]) + (if last.violationType == "evidence_not_found" then [last.details] else [])
  }

  function PolarityConflicts(vs: seq<InvariantViolation>): nat {
    if vs == [] then 0
    else PolarityConflicts(vs[..|vs| - 1]) + (if vs[|vs| - 1].violationType == "polarity_conflict" then 1 else 0)
  }

  function JournalIds(vs: seq<InvariantViolation>): seq<string> {
    seq(|vs|, i requires 0 <= i < |vs| => vs[i].journalId)
  }

  function Ranked(counts: Dict<string, nat>): seq<((string, nat), real)> {
    seq(|counts|, i requires 0 <= i < |counts| => (counts[i], counts[i].1 as real))
  }

  function Unranked(s: seq<((string, nat), real)>): seq<(string, nat)> {
    seq(|s|, i requires 0 <= i < |s| => s[i].0)
  }

  lemma UnrankedKeys(s: seq<((string, nat), real)>)
    ensures Unranked(s) == Keys(s)
  {
    KeysLength(s);
  }

  /** `Counter(...).most_common(3)` */
  function MostCommon3(keys: seq<string>): seq<(string, nat)> {
    Unranked(PyTake(SortDesc(Ranked(CountAll(keys))), 3))
  }

  /** The entries counted at least three times. */
  function AtLeastThree(counts: seq<(string, nat)>): seq<(string, nat)> {
    if counts == [] then []
    else AtLeastThree(counts[..|counts| - 1]) + (if counts[|counts| - 1].1 >= 3 then [counts[|counts| - 1]] else [])
  }

  function HallucinationPatterns(fs: seq<(string, nat)>): seq<Pattern> {
    if fs == [] then []
    else
      var (span, count) := fs[|fs| - 1];
      HallucinationPatterns(fs[..|fs| - 1]) + [SystematicHallucination(SpanText(span), count)]
  }

  function HallucinationCauses(fs: seq<(string, nat)>): seq<string> {
    if fs == [] then [] else HallucinationCauses(fs[..|fs| - 1]) + [HallucinationCause(SpanText(fs[|fs| - 1].0))]
  }

  function HallucinationActions(fs: seq<(string, nat)>): seq<string> {
    if fs == [] then [] else HallucinationActions(fs[..|fs| - 1]) + [HallucinationAction(SpanText(fs[|fs| - 1].0))]
  }

  function HotPatterns(hot: seq<(string, nat)>): seq<Pattern> {
    if hot == [] then []
    else HotPatterns(hot[..|hot| - 1]) + [HotJournal(hot[|hot| - 1].0, hot[|hot| - 1].1)]
  }

  /** The hallucination details among the three most common that occur at least three times. */
  function FrequentSpans(vs: seq<InvariantViolation>): seq<(string, nat)> {
    AtLeastThree(MostCommon3(EvidenceDetails(vs)))
  }

  /** The journals with at least three violations, with their counts. */
  function HotJournals(vs: seq<InvariantViolation>): seq<(string, nat)> {
    AtLeastThree(CountAll(JournalIds(vs)))
  }

  /** What `generate_auto_diagnosis` reports for a list of violations. */
  function AutoDiagnosis(vs: seq<InvariantViolation>): Diagnosis {
    if vs == [] then EmptyDiagnosis else Diagnose(FrequentSpans(vs), PolarityConflicts(vs), HotJournals(vs))
  }

  /** The diagnosis for the frequent hallucination details, the number of polarity
      conflicts and the hot journals, in the order the checks append to it. */
  function Diagnose(fs: seq<(string, nat)>, conflicts: nat, hot: seq<(string, nat)>): Diagnosis {
      Diagnosis(
        HallucinationPatterns(fs) + (if conflicts >= 2 then [PolarityConfusion(conflicts)] else []) + HotPatterns(hot),
        HallucinationCauses(fs) + (if conflicts >= 2 then [NegationCause] else []),
        HallucinationActions(fs) + (if conflicts >= 2 then [NegationAction] else []) + (if hot != [] then [HotAction] else []),
        if fs != [] then High else if conflicts >= 2 then Medium else NoSeverity)
  }

  /** The loop over the three most common hallucination details. */
  method SpanPatterns(top: seq<(string, nat)>)
    returns (patterns: seq<Pattern>, causes: seq<string>, actions: seq<string>, severity: DiagnosisSeverity)
    ensures patterns == HallucinationPatterns(AtLeastThree(top))
    ensures causes == HallucinationCauses(AtLeastThree(top))
    ensures actions == HallucinationActions(AtLeastThree(top))
    ensures severity == if AtLeastThree(top) != [] then High else NoSeverity
  {
    patterns, causes, actions, severity := [], [], [], NoSeverity;
    var k := 0;
    while k < |top|
      invariant 0 <= k <= |top|
      invariant patterns == HallucinationPatterns(AtLeastThree(top[..k]))
      invariant causes == HallucinationCauses(AtLeastThree(top[..k]))
      invariant actions == HallucinationActions(AtLeastThree(top[..k]))
      invariant severity == if AtLeastThree(top[..k]) != [] then High else NoSeverity
    {
      var (span, count) := top[k];
      SpanPatternsStep(top, k);
      if count >= 3 {
        var spanText := SpanText(span);
        patterns := patterns + [SystematicHallucination(spanText, count)];
        causes := causes + [HallucinationCause(spanText)];
        actions := actions + [HallucinationAction(spanText)];
        severity := High;
      }
      k := k + 1;
    }
    assert top[..k] == top;
  }

  /** One step of the loop: a detail seen at least three times adds its pattern, cause and
      action; any other detail adds nothing. */
  lemma SpanPatternsStep(top: seq<(string, nat)>, k: nat)
    requires k < |top|
    ensures var fs, prev, (span, count) := AtLeastThree(top[..k + 1]), AtLeastThree(top[..k]), top[k];
      && (count >= 3 ==>
        && fs != []
        && HallucinationPatterns(fs) == HallucinationPatterns(prev) + [SystematicHallucination(SpanText(span), count)]
        && HallucinationCauses(fs) == HallucinationCauses(prev) + [HallucinationCause(SpanText(span))]
        && HallucinationActions(fs) == HallucinationActions(prev) + [HallucinationAction(SpanText(span))])
      && (count < 3 ==> fs == prev)
  {
    assert top[..k + 1][..k] == top[..k];
    var fs := AtLeastThree(top[..k + 1]);
    if top[k].1 >= 3 {
      assert fs == AtLeastThree(top[..k]) + [top[k]];
      assert fs[..|fs| - 1] == AtLeastThree(top[..k]);
    }
  }

  /** The loop over the hot journals. */
  method HotJournalPatterns(hot: seq<(string, nat)>) returns (patterns: seq<Pattern>)
    ensures patterns == HotPatterns(hot)
  {
    patterns := [];
    var j := 0;
    while j < |hot|
      invariant 0 <= j <= |hot|
      invariant patterns == HotPatterns(hot[..j])
    {
      assert hot[..j + 1][..j] == hot[..j];
      patterns := patterns + [HotJournal(hot[j].0, hot[j].1)];
      j := j + 1;
    }
    assert hot[..j] == hot;
  }

  /** `generate_auto_diagnosis`, filling the diagnosis step by step. */
  method GenerateAutoDiagnosis(vs: seq<InvariantViolation>) returns (d: Diagnosis)
    ensures d == AutoDiagnosis(vs)
  {
    if vs == [] {
      return EmptyDiagnosis;
    }
    d := DiagnoseSteps(MostCommon3(EvidenceDetails(vs)), PolarityConflicts(vs), HotJournals(vs));
  }

  /** The three checks of the diagnosis in turn, given the most common hallucination
      details, the number of polarity conflicts and the hot journals. */
  method DiagnoseSteps(top: seq<(string, nat)>, conflicts: nat, hot: seq<(string, nat)>) returns (d: Diagnosis)
    ensures d == Diagnose(AtLeastThree(top), conflicts, hot)
  {
    var patterns, causes, actions, severity := SpanPatterns(top);
    if conflicts >= 2 {
      patterns := patterns + [PolarityConfusion(conflicts)];
      causes := causes + [NegationCause];
      actions := actions + [NegationAction];
      if severity != High {
        severity := Medium;
      }
    }
    if hot != [] {
      var hotPatterns := HotJournalPatterns(hot);
      patterns := patterns + hotPatterns;
      actions := actions + [HotAction];
    } else {
      assert patterns == patterns + HotPatterns(hot);
    }
    d := Diagnosis(patterns, causes, actions, severity);
  }

  // ---------------------------------------------------------------- diagnosis properties

  /** With no violations, nothing is detected and the severity is "none". */
  lemma NoViolationsNoDiagnosis(vs: seq<InvariantViolation>)
    requires vs == []
    ensures var d := AutoDiagnosis(vs);
      d.patterns == [] && d.likelyCauses == [] && d.recommendedActions == [] && d.severity.Value() == "none"
  {
  }

  lemma {:induction false} AtLeastThreeMembers(counts: seq<(string, nat)>)
    ensures |AtLeastThree(counts)| <= |counts|
    ensures forall p :: p in AtLeastThree(counts) <==> p in counts && p.1 >= 3
  {
    if counts != [] {
      AtLeastThreeMembers(counts[..|counts| - 1]);
      assert counts == counts[..|counts| - 1] + [counts[|counts| - 1]];
    }
  }

  lemma {:induction false} HallucinationPatternsSpec(fs: seq<(string, nat)>)
    ensures |HallucinationPatterns(fs)| == |HallucinationCauses(fs)| == |HallucinationActions(fs)| == |fs|
    ensures forall i :: 0 <= i < |fs| ==> HallucinationPatterns(fs)[i] == SystematicHallucination(SpanText(fs[i].0), fs[i].1)
    ensures forall i :: 0 <= i < |fs| ==> HallucinationActions(fs)[i] == HallucinationAction(SpanText(fs[i].0))
  {
    if fs != [] {
      HallucinationPatternsSpec(fs[..|fs| - 1]);
    }
  }

  lemma {:induction false} HotPatternsSpec(hot: seq<(string, nat)>)
    ensures |HotPatterns(hot)| == |hot|
    ensures forall i :: 0 <= i < |hot| ==> HotPatterns(hot)[i] == HotJournal(hot[i].0, hot[i].1)
  {
    if hot != [] {
      HotPatternsSpec(hot[..|hot| - 1]);
    }
  }

  /** The three most common details, or all of them when there are fewer, each once and
      paired with how often it occurs, highest first; a detail left out occurs no more often
      than any kept, and ties go to the detail seen first. */
  lemma MostCommon3Spec(keys: seq<string>)
    ensures var top := MostCommon3(keys);
      && |top| == (if |CountAll(keys)| < 3 then |CountAll(keys)| else 3)
      && (forall p :: p in top ==> p.0 in keys && p.1 == multiset(keys)[p.0])
      && (forall i, j :: 0 <= i < j < |top| ==> top[i].1 >= top[j].1)
      && (forall i, j :: 0 <= i < j < |top| ==> top[i].0 != top[j].0)
      && (forall k, p :: k in keys && (forall q :: q in top ==> q.0 != k) && p in top ==> multiset(keys)[k] <= p.1)
      && (forall c :: WithCount(top, c) <= WithCount(CountAll(keys), c))
  {
    MostCommonRanks(keys);
    MostCommonDistinct(keys);
    MostCommonExcluded(keys);
    MostCommonStable(keys);
  }

  /** The entries of `d` counted exactly `c` times, in their order in `d`. */
  function WithCount(d: seq<(string, nat)>, c: nat): seq<(string, nat)> {
    if d == [] then [] else (if d[0].1 == c then [d[0]] else []) + WithCount(d[1..], c)
  }

  lemma {:induction false} WithCountKeys(s: seq<((string, nat), real)>, c: nat)
    requires forall q :: q in s ==> q.1 == q.0.1 as real
    ensures WithCount(Keys(s), c) == Keys(WithKey(s, c as real))
  {
    if s != [] {
      assert forall q :: q in s[1..] ==> q in s;
      WithCountKeys(s[1..], c);
      KeysOfConcat(if s[0].1 == c as real then [s[0]] else [], WithKey(s[1..], c as real));
      assert Keys(s)[1..] == Keys(s[1..]);
    }
  }

  /** Ties are broken by first occurrence: among details with one count, the three keep the
      first ones in the order they were first seen. */
  lemma MostCommonStable(keys: seq<string>)
    ensures forall c :: WithCount(MostCommon3(keys), c) <= WithCount(CountAll(keys), c)
  {
    TopRankedStable(CountAll(keys));
    UnrankedKeys(PyTake(SortDesc(Ranked(CountAll(keys))), 3));
  }

  lemma TopRankedStable(counts: Dict<string, nat>)
    ensures forall c :: WithCount(Keys(PyTake(SortDesc(Ranked(counts)), 3)), c) <= WithCount(counts, c)
  {
    var ranked := Ranked(counts);
    var taken := PyTake(SortDesc(ranked), 3);
    RankedSpec(counts);
    assert forall q :: q in taken ==> q.1 == q.0.1 as real by {
      RankedSorted(counts);
      assert forall q :: q in taken ==> q in SortDesc(ranked);
    }
    TopSpec(ranked, 3);
    forall c ensures WithCount(Keys(taken), c) <= WithCount(counts, c) {
      StableAtCount(taken, ranked, c);
    }
  }

  lemma RankedSpec(counts: Dict<string, nat>)
    ensures Keys(Ranked(counts)) == counts
    ensures forall q :: q in Ranked(counts) ==> q.1 == q.0.1 as real
  {
    KeysLength(Ranked(counts));
  }

  lemma StableAtCount(taken: seq<((string, nat), real)>, ranked: seq<((string, nat), real)>, c: nat)
    requires forall q :: q in taken ==> q.1 == q.0.1 as real
    requires forall q :: q in ranked ==> q.1 == q.0.1 as real
    requires WithKey(taken, c as real) <= WithKey(ranked, c as real)
    ensures WithCount(Keys(taken), c) <= WithCount(Keys(ranked), c)
  {
    WithCountKeys(taken, c);
    WithCountKeys(ranked, c);
    KeysPrefix(WithKey(taken, c as real), WithKey(ranked, c as real));
  }

  lemma MostCommonRanks(keys: seq<string>)
    ensures var top := MostCommon3(keys);
      && |top| == (if |CountAll(keys)| < 3 then |CountAll(keys)| else 3)
      && (forall p :: p in top ==> p.0 in keys && p.1 == multiset(keys)[p.0])
      && (forall i, j :: 0 <= i < j < |top| ==> top[i].1 >= top[j].1)
  {
    var counts := CountAll(keys);
    var sorted := SortDesc(Ranked(counts));
    var taken := PyTake(sorted, 3);
    assert |sorted| == |counts| by {
      SortDescOrdered(Ranked(counts));
      assert |multiset(sorted)| == |multiset(Ranked(counts))|;
    }
    RankedSorted(counts);
    CountsMeaning(keys);
    forall i | 0 <= i < |taken| ensures taken[i] in sorted {
    }
  }

  /** No detail appears twice among the three. */
  lemma MostCommonDistinct(keys: seq<string>)
    ensures var top := MostCommon3(keys);
      forall i, j :: 0 <= i < j < |top| ==> top[i].0 != top[j].0
  {
    var counts := CountAll(keys);
    var ranked := Ranked(counts);
    var top := MostCommon3(keys);
    UnrankedKeys(PyTake(SortDesc(ranked), 3));
    RankedKeys(keys);
    TopKeys(ranked, 3);
    forall i, j | 0 <= i < j < |top| ensures top[i].0 != top[j].0 {
      if top[i].0 == top[j].0 {
        assert top[i] in multiset(counts) && top[j] in multiset(counts);
        SameKeySameEntry(counts, top[i], top[j]);
        RepeatCount(top, i, j);
        DistinctCount(counts, top[i]);
      }
    }
  }

  /** A detail not among the three occurs no more often than any of them. */
  lemma MostCommonExcluded(keys: seq<string>)
    ensures var top := MostCommon3(keys);
      forall k, p :: k in keys && (forall q :: q in top ==> q.0 != k) && p in top ==> multiset(keys)[k] <= p.1
  {
    var counts := CountAll(keys);
    var ranked := Ranked(counts);
    var taken := PyTake(SortDesc(ranked), 3);
    var top := Unranked(taken);
    RankedKeys(keys);
    RankedSorted(counts);
    UnrankedKeys(taken);
    forall k, p | k in keys && (forall q :: q in top ==> q.0 != k) && p in top
      ensures multiset(keys)[k] <= p.1
    {
      var a :| 0 <= a < |counts| && counts[a].0 == k;
      var i :| 0 <= i < |top| && top[i] == p;
      assert ranked[a] in ranked;
      TopExcluded(ranked, 3, ranked[a]);
      assert taken[i] in SortDesc(ranked);
    }
  }

  /** The ranked table lists the counts, one entry per distinct detail, no entry twice. */
  lemma RankedKeys(keys: seq<string>)
    ensures Keys(Ranked(CountAll(keys))) == CountAll(keys)
    ensures Distinct(Keys(CountAll(keys))) && Distinct(CountAll(keys))
    ensures forall k :: k in keys ==> exists a :: 0 <= a < |CountAll(keys)| && CountAll(keys)[a].0 == k
    ensures forall a :: 0 <= a < |CountAll(keys)| ==> CountAll(keys)[a].1 == multiset(keys)[CountAll(keys)[a].0]
  {
    var counts := CountAll(keys);
    KeysLength(Ranked(counts));
    KeysLength(counts);
    CountAllSpec(keys);
    CountAllEntries(keys);
    DedupSpec(keys);
    forall k | k in keys ensures exists a :: 0 <= a < |counts| && counts[a].0 == k {
      var a :| 0 <= a < |Dedup(keys)| && Dedup(keys)[a] == k;
    }
  }

  /** In a table with distinct keys, two entries with the same key are the same entry. */
  lemma SameKeySameEntry(d: Dict<string, nat>, p: (string, nat), q: (string, nat))
    requires Distinct(Keys(d)) && p in multiset(d) && q in multiset(d) && p.0 == q.0
    ensures p == q
  {
    KeysLength(d);
    var a :| 0 <= a < |d| && d[a] == p;
    var b :| 0 <= b < |d| && d[b] == q;
    assert Keys(d)[a] == Keys(d)[b];
  }

  /** Ranking a table of counts and sorting it keeps each entry paired with its own count. */
  lemma RankedSorted(counts: Dict<string, nat>)
    ensures var sorted := SortDesc(Ranked(counts));
      && Descending(sorted)
      && forall q :: q in sorted ==> q.0 in counts && q.1 == q.0.1 as real
  {
    var ranked := Ranked(counts);
    var sorted := SortDesc(ranked);
    SortDescOrdered(ranked);
    forall q | q in sorted ensures q.0 in counts && q.1 == q.0.1 as real {
      assert q in multiset(ranked);
      var i :| 0 <= i < |ranked| && ranked[i] == q;
    }
  }

  /** Every entry of a `Counter` over `keys` is a key of `keys` with its number of occurrences. */
  lemma CountsMeaning(keys: seq<string>)
    ensures forall p :: p in CountAll(keys) ==> p.0 in keys && p.1 == multiset(keys)[p.0]
  {
    var counts := CountAll(keys);
    CountAllEntries(keys);
    DedupSpec(keys);
    forall p | p in counts ensures p.0 in keys && p.1 == multiset(keys)[p.0] {
      var i :| 0 <= i < |counts| && counts[i] == p;
      assert Dedup(keys)[i] in Dedup(keys);
    }
  }

  /** The severity is "high" exactly when one of the three most common hallucination details
      occurs at least three times; otherwise "medium" exactly when there are at least two
      polarity conflicts; otherwise "none". */
  lemma SeverityRule(vs: seq<InvariantViolation>)
    ensures var d := AutoDiagnosis(vs);
      var frequent := exists p :: p in MostCommon3(EvidenceDetails(vs)) && p.1 >= 3;
      && (d.severity == High <==> frequent)
      && (d.severity == Medium <==> !frequent && PolarityConflicts(vs) >= 2)
  {
    AtLeastThreeMembers(MostCommon3(EvidenceDetails(vs)));
    if vs == [] {
      assert EvidenceDetails(vs) == [];
      assert CountAll(EvidenceDetails(vs)) == [];
      assert MostCommon3(EvidenceDetails(vs)) == [];
    }
  }

  /** Each systematic-hallucination pattern names one of the three most common details and
      its count, which is at least three, so there are at most three of them. */
  lemma SystematicPatterns(vs: seq<InvariantViolation>)
    requires vs != []
    ensures var fs := FrequentSpans(vs);
      && |fs| <= 3 && |fs| <= |AutoDiagnosis(vs).patterns|
      && forall i :: 0 <= i < |fs| ==>
        && AutoDiagnosis(vs).patterns[i] == SystematicHallucination(SpanText(fs[i].0), fs[i].1)
        && fs[i].1 >= 3 && fs[i].1 == multiset(EvidenceDetails(vs))[fs[i].0]
  {
    var top := MostCommon3(EvidenceDetails(vs));
    var fs := FrequentSpans(vs);
    MostCommon3Spec(EvidenceDetails(vs));
    AtLeastThreeMembers(top);
    HallucinationPatternsSpec(fs);
    forall i | 0 <= i < |fs| ensures fs[i] in fs {
    }
  }

  /** The counts with at least three: exactly the keys counted that often. */
  lemma HotMembers(ids: seq<string>)
    ensures forall j, n :: (j, n) in AtLeastThree(CountAll(ids)) <==> j in ids && n == multiset(ids)[j] && n >= 3
  {
    var counts := CountAll(ids);
    CountAllEntries(ids);
    DedupSpec(ids);
    AtLeastThreeMembers(counts);
    forall j, n | (j, n) in counts ensures j in ids && n == multiset(ids)[j] {
      var m :| 0 <= m < |counts| && counts[m] == (j, n);
      assert Dedup(ids)[m] in Dedup(ids);
    }
    forall j | j in ids ensures (j, multiset(ids)[j]) in counts {
      var m :| 0 <= m < |Dedup(ids)| && Dedup(ids)[m] == j;
      assert counts[m] == (j, multiset(ids)[j]);
    }
  }

  lemma {:induction false} HotPatternsMembers(hot: seq<(string, nat)>)
    ensures forall j: string, n: nat :: HotJournal(j, n) in HotPatterns(hot) <==> (j, n) in hot
  {
    if hot != [] {
      HotPatternsMembers(hot[..|hot| - 1]);
      assert hot == hot[..|hot| - 1] + [hot[|hot| - 1]];
    }
  }

  lemma {:induction false} HallucinationPatternsKind(fs: seq<(string, nat)>)
    ensures forall p :: p in HallucinationPatterns(fs) ==> p.SystematicHallucination?
  {
    if fs != [] {
      HallucinationPatternsKind(fs[..|fs| - 1]);
    }
  }

  /** Hot-journal patterns come only from the hot list, one for each entry. */
  lemma DiagnoseHot(fs: seq<(string, nat)>, conflicts: nat, hot: seq<(string, nat)>)
    ensures forall j: string, n: nat :: HotJournal(j, n) in Diagnose(fs, conflicts, hot).patterns <==> (j, n) in hot
  {
    HotPatternsMembers(hot);
    HallucinationPatternsKind(fs);
  }

  /** Every journal with at least three violations, and no other, is reported hot with its
      violation count. */
  lemma HotJournalRule(vs: seq<InvariantViolation>)
    requires vs != []
    ensures forall j: string, n: nat :: HotJournal(j, n) in AutoDiagnosis(vs).patterns <==>
      j in JournalIds(vs) && n == multiset(JournalIds(vs))[j] && n >= 3
  {
    HotMembers(JournalIds(vs));
    DiagnoseHot(FrequentSpans(vs), PolarityConflicts(vs), HotJournals(vs));
  }

  /** The hot-journal action ends the recommendations exactly when some journal is hot. */
  lemma DiagnoseHotAction(fs: seq<(string, nat)>, conflicts: nat, hot: seq<(string, nat)>)
    ensures var a := Diagnose(fs, conflicts, hot).recommendedActions;
      a != [] && a[|a| - 1] == HotAction <==> hot != []
  {
    var a := Diagnose(fs, conflicts, hot).recommendedActions;
    if hot == [] && a != [] {
      if conflicts >= 2 {
        assert a == HallucinationActions(fs) + [NegationAction];
        assert NegationAction[0] == 'A' && HotAction[0] == 'R';
      } else {
        assert a == HallucinationActions(fs);
        var t := SpanText(fs[|fs| - 1].0);
        assert a[|a| - 1] == HallucinationAction(t);
        assert HallucinationAction(t)[7] == 'p' && HotAction[7] == 'h';
      }
    }
  }

  /** The hot-journal action is recommended, last, exactly when some journal has at least
      three violations: no other recommended action reads like it. */
  lemma HotActionRule(vs: seq<InvariantViolation>)
    requires vs != []
    ensures var a := AutoDiagnosis(vs).recommendedActions;
      a != [] && a[|a| - 1] == HotAction <==> exists j :: j in JournalIds(vs) && multiset(JournalIds(vs))[j] >= 3
  {
    HotNonEmpty(JournalIds(vs));
    DiagnoseHotAction(FrequentSpans(vs), PolarityConflicts(vs), HotJournals(vs));
  }

  /** Some journal is hot exactly when one identifier occurs at least three times. */
  lemma HotNonEmpty(ids: seq<string>)
    ensures AtLeastThree(CountAll(ids)) != [] <==> exists j :: j in ids && multiset(ids)[j] >= 3
  {
    var hot := AtLeastThree(CountAll(ids));
    HotMembers(ids);
    if exists j :: j in ids && multiset(ids)[j] >= 3 {
      var j :| j in ids && multiset(ids)[j] >= 3;
      assert (j, multiset(ids)[j]) in hot;
    }
    if hot != [] {
      var e := hot[0];
      assert e in hot;
      assert e.0 in ids && multiset(ids)[e.0] >= 3;
    }
  }

  /** Two or more polarity conflicts add the polarity-confusion pattern, and raise the severity
      to "medium" unless a systematic hallucination has already made it "high". */
  lemma PolarityRule(vs: seq<InvariantViolation>)
    requires vs != []
    ensures var d := AutoDiagnosis(vs);
      && (PolarityConfusion(PolarityConflicts(vs)) in d.patterns <==> PolarityConflicts(vs) >= 2)
      && (PolarityConflicts(vs) >= 2 ==> d.severity != NoSeverity)
  {
    DiagnosePolarity(FrequentSpans(vs), PolarityConflicts(vs), HotJournals(vs));
  }

  lemma DiagnosePolarity(fs: seq<(string, nat)>, conflicts: nat, hot: seq<(string, nat)>)
    ensures var d := Diagnose(fs, conflicts, hot);
      && (PolarityConfusion(conflicts) in d.patterns <==> conflicts >= 2)
      && (conflicts >= 2 ==> d.severity != NoSeverity)
  {
    HallucinationPatternsKind(fs);
    HotPatternsKind(hot);
  }

  lemma {:induction false} HotPatternsKind(hot: seq<(string, nat)>)
    ensures forall p :: p in HotPatterns(hot) ==> p.HotJournal?
  {
    if hot != [] {
      HotPatternsKind(hot[..|hot| - 1]);
    }
  }

  // ---------------------------------------------------------------- confidence intervals

  datatype Interval = Interval(lower: real, upper: real, margin: real)

  function Max0(x: real): real { if x > 0.0 then x else 0.0 }

  function Min1(x: real): real { if x < 1.0 then x else 1.0 }

  /** `compute_confidence_intervals` before rounding: the Wilson score interval with `z` 1.96
      at 95% and 2.576 otherwise, its bounds clamped to [0, 1]. `sqrt` is the square root. */
  function ConfidenceInterval(rate: real, sampleSize: int, confidence: real, sqrt: real -> real): (r: Interval)
    ensures sampleSize == 0 ==> r == Interval(0.0, 0.0, 0.0)
    ensures 0.0 <= r.lower && r.upper <= 1.0
  {
    if sampleSize == 0 then Interval(0.0, 0.0, 0.0)
    else
      var n := sampleSize as real;
      var z := if confidence == 0.95 then 1.96 else 2.576;
      var denominator := 1.0 + z * z / n;
      var center := (rate + z * z / (2.0 * n)) / denominator;
      var margin := if denominator == 0.0 then 0.0 else z * sqrt((rate * (1.0 - rate) + z * z / (4.0 * n)) / n) / denominator;
      Interval(Max0(center - margin), Min1(center + margin), margin)
  }

  /** For a rate in [0, 1], a positive sample and a non-negative square root, the centre lies
      in [0, 1] between the two bounds, and the margin is not negative. */
  lemma IntervalBracketsCenter(rate: real, sampleSize: int, confidence: real, sqrt: real -> real)
    requires 0.0 <= rate <= 1.0 && sampleSize > 0
    requires forall x :: sqrt(x) >= 0.0
    ensures var r := ConfidenceInterval(rate, sampleSize, confidence, sqrt);
      var z := if confidence == 0.95 then 1.96 else 2.576;
      var center := (rate + z * z / (2.0 * sampleSize as real)) / (1.0 + z * z / sampleSize as real);
      && 0.0 <= center <= 1.0
      && r.margin >= 0.0
      && r.lower <= center <= r.upper
  {
    var n := sampleSize as real;
    var z := if confidence == 0.95 then 1.96 else 2.576;
    var zz := z * z;
    assert zz > 0.0;
    WilsonCenterInUnit(rate, n, zz);
    WilsonMarginNonNegative(n, z, zz, sqrt((rate * (1.0 - rate) + zz / (4.0 * n)) / n));
  }

  /** With `zz` the square of `z`: the Wilson centre of a rate in [0, 1] lies in [0, 1], and
      the denominator exceeds 1. */
  lemma WilsonCenterInUnit(rate: real, n: real, zz: real)
    requires 0.0 <= rate <= 1.0 && n >= 1.0 && zz > 0.0
    ensures 1.0 + zz / n > 1.0
    ensures 0.0 <= (rate + zz / (2.0 * n)) / (1.0 + zz / n) <= 1.0
  {
    var q := zz / n;
    PositiveQuotient(zz, n);
    assert zz / (2.0 * n) == q / 2.0;
    Between(rate + q / 2.0, 1.0 + q);
  }

  lemma PositiveQuotient(a: real, b: real)
    requires a > 0.0 && b > 0.0
    ensures a / b > 0.0
  {
  }

  /** The Wilson margin is not negative when the square root is not. */
  lemma WilsonMarginNonNegative(n: real, z: real, zz: real, s: real)
    requires n >= 1.0 && z > 0.0 && zz > 0.0 && s >= 0.0
    ensures 1.0 + zz / n > 0.0
    ensures z * s / (1.0 + zz / n) >= 0.0
  {
    PositiveQuotient(zz, n);
    assert z * s >= 0.0;
  }

  lemma Between(numerator: real, denominator: real)
    requires 0.0 <= numerator <= denominator && denominator > 0.0
    ensures 0.0 <= numerator / denominator <= 1.0
  {
    assert numerator / denominator * denominator == numerator;
  }

  datatype Interpretation = Significant | Uncertain | BelowThreshold

  /** `_interpret_confidence` against the 5% threshold. */
  function InterpretConfidence(ci: Interval): (r: Interpretation)
    ensures r == Significant <==> ci.lower > 0.05
    ensures r == Uncertain <==> ci.lower <= 0.05 < ci.upper
    ensures r == BelowThreshold <==> ci.lower <= 0.05 && ci.upper <= 0.05
  {
    if ci.lower > 0.05 then Significant
    else if ci.upper > 0.05 then Uncertain
    else BelowThreshold
  }

  /** An interval from a sample of zero is always read as below the threshold, and for a
      well-formed interval a significant reading means the whole interval is above it. */
  lemma InterpretationOfIntervals(rate: real, confidence: real, sqrt: real -> real, ci: Interval)
    ensures InterpretConfidence(ConfidenceInterval(rate, 0, confidence, sqrt)) == BelowThreshold
    ensures ci.lower <= ci.upper && InterpretConfidence(ci) == Significant ==> ci.upper > 0.05
  {
  }
}
