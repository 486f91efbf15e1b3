/** The grounding invariant: every extracted evidence span must appear, ignoring case, in the
    journal it was extracted from, either whole or through a word prefix longer than five
    characters. */
module EvidenceChecker {
  import opened Text
  import opened Dicts
  import opened Models

  /** The fallback test on the first `k` words, re-joined with single spaces. */
  predicate PrefixMatch(words: seq<string>, k: nat, text: string)
    requires k <= |words|
  {
    var partial := Join(words[..k], " ");
    Contains(text, partial) && |partial| > 5
  }

  /** When the check accepts a span: its normalised form occurs in the lower-cased text, or a
      prefix of at least two of its words does and is longer than five characters. The words
      are those of the lower-cased span, which `SplitIgnoresStrip` shows are the words of the
      normalised one. */
  predicate Grounded(span: string, journalText: string) {
    var evidence := Normalize(span);
    var text := Lower(journalText);
    var words := Split(Lower(span));
    Contains(text, evidence) || exists k :: 2 <= k <= |words| && PrefixMatch(words, k, text)
  }

  /** `check_evidence_exists`: tries the whole span, then its word prefixes from the longest
      down to two words. */
  method CheckEvidenceExists(span: string, journalText: string) returns (found: bool)
    ensures found == Grounded(span, journalText)
    ensures Contains(Lower(journalText), Normalize(span)) ==> found
  {
    var evidence := Strip(Lower(span));
    var text := Lower(journalText);
    if Contains(text, evidence) {
      return true;
    }
    var words := Split(evidence);
    SplitIgnoresStrip(Lower(span));
    found := TryPrefixes(words, text);
  }

  /** The fallback of `check_evidence_exists`: the prefixes of `words` from the longest down
      to two words, each re-joined and looked up in `text`. */
  method TryPrefixes(words: seq<string>, text: string) returns (found: bool)
    ensures found <==> exists k :: 2 <= k <= |words| && PrefixMatch(words, k, text)
  {
    var i := |words|;
    while i > 1
      invariant 0 <= i <= |words|
      invariant forall k :: i < k <= |words| ==> !PrefixMatch(words, k, text)
      decreases i
    {
      var partial := Join(words[..i], " ");
      if Contains(text, partial) && |partial| > 5 {
        assert PrefixMatch(words, i, text);
        return true;
      }
      i := i - 1;
    }
    return false;
  }

  /** The fallback never rescues a span of five characters or fewer: no prefix of it can be
      longer than five characters. */
  lemma ShortSpanOnlyWhole(span: string, journalText: string)
    requires |Normalize(span)| <= 5
    ensures Grounded(span, journalText) <==> Contains(Lower(journalText), Normalize(span))
  {
    var words := Split(Lower(span));
    SplitIgnoresStrip(Lower(span));
    forall k | 2 <= k <= |words| ensures !PrefixMatch(words, k, Lower(journalText)) {
      SplitPrefixLength(Normalize(span), k);
    }
  }

  /** A one-word span is never tried as a prefix: only the whole word counts. */
  lemma OneWordOnlyWhole(span: string, journalText: string)
    requires |Split(Lower(span))| <= 1
    ensures Grounded(span, journalText) <==> Contains(Lower(journalText), Normalize(span))
  {
  }

  /** An empty or blank span is grounded in every text. */
  lemma BlankSpanGrounded(span: string, journalText: string)
    requires AllSpace(span)
    ensures Grounded(span, journalText)
  {
    LowerKeepsSpaces(span);
    StripBlank(Lower(span));
    ContainsEmpty(Lower(journalText));
  }

  /** Against the empty text (a journal that is missing), exactly the blank spans are grounded. */
  lemma EmptyTextGroundsOnlyBlank(span: string)
    ensures Grounded(span, "") <==> AllSpace(span)
  {
    var evidence := Normalize(span);
    var words := Split(Lower(span));
    assert Lower("") == "";
    LowerKeepsSpaces(span);
    StripBlank(Lower(span));
    ContainsInEmpty(evidence);
    forall k | 2 <= k <= |words| ensures !PrefixMatch(words, k, "") {
      ContainsInEmpty(Join(words[..k], " "));
    }
  }

  /** "MILD HEADACHE" is grounded in "woke up with mild headache". */
  lemma UpperCaseSpanGrounded()
    ensures Grounded("MILD HEADACHE", "woke up with mild headache")
  {
    NormalizeUpperCaseSpan();
    LowerCaseText();
    HeadacheInText();
  }

  lemma LowerCaseText()
    ensures Lower("woke up with mild headache") == "woke up with mild headache"
  {
  }

  lemma HeadacheInText()
    ensures Contains("woke up with mild headache", "mild headache")
  {
    var text := "woke up with mild headache";
    assert text[13..13 + |"mild headache"|] == "mild headache";
    ContainsAt(text, "mild headache", 13);
  }

  lemma NormalizeUpperCaseSpan()
    ensures Normalize("MILD HEADACHE") == "mild headache"
  {
    LowerCaseSpan();
    StripLowerCaseSpan();
  }

  lemma LowerCaseSpan()
    ensures Lower("MILD HEADACHE") == "mild headache"
  {
  }

  lemma StripLowerCaseSpan()
    ensures Strip("mild headache") == "mild headache"
  {
    assert TrimStart("mild headache") == "mild headache";
    assert TrimEnd("mild headache") == "mild headache";
  }

  // ---------------------------------------------------------------- hallucinations

  datatype Hallucination = Hallucination(
    journalId: string, itemIndex: nat, evidenceSpan: string, domain: string)

  /** `journals.get(journal_id, "")` */
  function JournalText(journals: Dict<string, string>, journalId: string): string {
    Get(journals, journalId, "")
  }

  /** The record made for an item that fails the check. */
  function HallucinationAt(o: ParserOutput, i: nat): Hallucination
    requires i < |o.items|
  {
    Hallucination(o.journalId, i, o.items[i].evidenceSpan, o.items[i].domain.Value())
  }

  /** The grounding verdict of every item of one output against `text`. */
  function Verdicts(o: ParserOutput, text: string): (v: seq<bool>)
    ensures |v| == |o.items|
  {
    seq(|o.items|, i requires 0 <= i < |o.items| => Grounded(o.items[i].evidenceSpan, text))
  }

  /** What item `i` adds given the verdicts: nothing when its span is grounded, its record
      otherwise. */
  function ItemVerdict(o: ParserOutput, grounded: seq<bool>, i: nat): seq<Hallucination>
    requires i < |o.items| && |grounded| == |o.items|
  {
    if grounded[i] then [] else [HallucinationAt(o, i)]
  }

  /** The hallucinations among the first `n` items of one output with the given verdicts. */
  function ItemHallucinations(o: ParserOutput, grounded: seq<bool>, n: nat): seq<Hallucination>
    requires n <= |o.items| && |grounded| == |o.items|
  {
    if n == 0 then [] else ItemHallucinations(o, grounded, n - 1) + ItemVerdict(o, grounded, n - 1)
  }

  /** All hallucinations, output by output and item by item. */
  function HallucinationsOf(outputs: seq<ParserOutput>, journals: Dict<string, string>): seq<Hallucination> {
    if outputs == [] then []
    else
      var last := outputs[|outputs| - 1];
      HallucinationsOf(outputs[..|outputs| - 1], journals)
      + ItemHallucinations(last, Verdicts(last, JournalText(journals, last.journalId)), |last.items|)
  }

  function Spans(hs: seq<Hallucination>): seq<string> {
    seq(|hs|, i requires 0 <= i < |hs| => hs[i].evidenceSpan)
  }

  /** `find_hallucinations`: the rate, the list and `Counter` of the hallucinated spans. */
  method FindHallucinations(outputs: seq<ParserOutput>, journals: Dict<string, string>)
    returns (rate: real, hallucinations: seq<Hallucination>, clustered: Dict<string, nat>)
    ensures hallucinations == HallucinationsOf(outputs, journals)
    ensures rate == Ratio(|hallucinations|, TotalItems(outputs), 0.0)
    ensures 0.0 <= rate <= 1.0
    ensures clustered == CountAll(Spans(hallucinations))
  {
    var totalItems := 0;
    hallucinations := [];
    var j := 0;
    while j < |outputs|
      invariant 0 <= j <= |outputs|
      invariant totalItems == TotalItems(outputs[..j])
      invariant hallucinations == HallucinationsOf(outputs[..j], journals)
    {
      var output := outputs[j];
      var journalText := Get(journals, output.journalId, "");
      var found, counted := ScanOutput(output, journalText);
      HallucinationsStep(outputs, journals, j);
      totalItems := totalItems + counted;
      hallucinations := hallucinations + found;
      j := j + 1;
    }
    assert outputs[..j] == outputs;
    HallucinationsBound(outputs, journals);
    rate := Ratio(|hallucinations|, totalItems, 0.0);
    clustered := CountAll(Spans(hallucinations));
  }

  /** One more output adds its items to the total and its hallucinations to the list. */
  lemma HallucinationsStep(outputs: seq<ParserOutput>, journals: Dict<string, string>, j: nat)
    requires j < |outputs|
    ensures TotalItems(outputs[..j + 1]) == TotalItems(outputs[..j]) + |outputs[j].items|
    ensures HallucinationsOf(outputs[..j + 1], journals) == HallucinationsOf(outputs[..j], journals)
      + ItemHallucinations(outputs[j], Verdicts(outputs[j], JournalText(journals, outputs[j].journalId)), |outputs[j].items|)
  {
    assert outputs[..j + 1][..j] == outputs[..j];
  }

  /** The inner loop of `find_hallucinations`, over the items of one output. */
  method ScanOutput(output: ParserOutput, journalText: string) returns (found: seq<Hallucination>, counted: nat)
    ensures found == ItemHallucinations(output, Verdicts(output, journalText), |output.items|)
    ensures counted == |output.items|
  {
    found, counted := [], 0;
    var idx := 0;
    while idx < |output.items|
      invariant 0 <= idx <= |output.items|
      invariant counted == idx
      invariant found == ItemHallucinations(output, Verdicts(output, journalText), idx)
    {
      counted := counted + 1;
      var item := output.items[idx];
      var ok := CheckItem(output, journalText, idx);
      if !ok {
        found := found + [Hallucination(output.journalId, idx, item.evidenceSpan, item.domain.Value())];
      }
      assert found == ItemHallucinations(output, Verdicts(output, journalText), idx)
        + ItemVerdict(output, Verdicts(output, journalText), idx);
      idx := idx + 1;
    }
  }

  /** The check on item `idx` of one output. */
  method CheckItem(output: ParserOutput, journalText: string, idx: nat) returns (ok: bool)
    requires idx < |output.items|
    ensures ok == Verdicts(output, journalText)[idx]
  {
    ok := CheckEvidenceExists(output.items[idx].evidenceSpan, journalText);
  }

  /** `compute_evidence_validity`: one minus the hallucination rate, and the same list. */
  method ComputeEvidenceValidity(outputs: seq<ParserOutput>, journals: Dict<string, string>)
    returns (validity: real, hallucinations: seq<Hallucination>)
    ensures hallucinations == HallucinationsOf(outputs, journals)
    ensures validity == 1.0 - Ratio(|hallucinations|, TotalItems(outputs), 0.0)
    ensures 0.0 <= validity <= 1.0
  {
    var rate, found, _ := FindHallucinations(outputs, journals);
    validity := 1.0 - rate;
    hallucinations := found;
  }

  lemma {:induction false} ItemHallucinationsBound(o: ParserOutput, grounded: seq<bool>, n: nat)
    requires n <= |o.items| && |grounded| == |o.items|
    ensures |ItemHallucinations(o, grounded, n)| <= n
  {
    if n > 0 {
      ItemHallucinationsBound(o, grounded, n - 1);
    }
  }

  /** There are never more hallucinations than items. */
  lemma {:induction false} HallucinationsBound(outputs: seq<ParserOutput>, journals: Dict<string, string>)
    ensures |HallucinationsOf(outputs, journals)| <= TotalItems(outputs)
  {
    if outputs != [] {
      var last := outputs[|outputs| - 1];
      HallucinationsBound(outputs[..|outputs| - 1], journals);
      ItemHallucinationsBound(last, Verdicts(last, JournalText(journals, last.journalId)), |last.items|);
    }
  }

  /** Item `i` of output `j` fails the grounding check against its own journal's text. */
  predicate Ungrounded(outputs: seq<ParserOutput>, journals: Dict<string, string>, j: nat, i: nat)
    requires j < |outputs| && i < |outputs[j].items|
  {
    !Verdicts(outputs[j], JournalText(journals, outputs[j].journalId))[i]
  }

  /** Item `i` of output `j` is ungrounded exactly when its span fails `Grounded`. */
  lemma UngroundedMeaning(outputs: seq<ParserOutput>, journals: Dict<string, string>, j: nat, i: nat)
    requires j < |outputs| && i < |outputs[j].items|
    ensures Ungrounded(outputs, journals, j, i)
      <==> !Grounded(outputs[j].items[i].evidenceSpan, JournalText(journals, outputs[j].journalId))
  {
  }

  lemma {:induction false} ItemHallucinationsSound(o: ParserOutput, grounded: seq<bool>, n: nat, h: Hallucination)
    requires n <= |o.items| && |grounded| == |o.items| && h in ItemHallucinations(o, grounded, n)
    ensures exists i :: 0 <= i < n && !grounded[i] && h == HallucinationAt(o, i)
  {
    if h !in ItemHallucinations(o, grounded, n - 1) {
      assert !grounded[n - 1] && h == HallucinationAt(o, n - 1);
    } else {
      ItemHallucinationsSound(o, grounded, n - 1, h);
    }
  }

  lemma {:induction false} ItemHallucinationsComplete(o: ParserOutput, grounded: seq<bool>, n: nat, i: nat)
    requires i < n <= |o.items| && |grounded| == |o.items| && !grounded[i]
    ensures HallucinationAt(o, i) in ItemHallucinations(o, grounded, n)
  {
    if i < n - 1 {
      ItemHallucinationsComplete(o, grounded, n - 1, i);
    } else {
      assert ItemVerdict(o, grounded, i) == [HallucinationAt(o, i)];
    }
  }

  lemma {:induction false} HallucinationsSound(outputs: seq<ParserOutput>, journals: Dict<string, string>, h: Hallucination)
    requires h in HallucinationsOf(outputs, journals)
    ensures exists j, i ::
      && 0 <= j < |outputs| && 0 <= i < |outputs[j].items|
      && Ungrounded(outputs, journals, j, i) && h == HallucinationAt(outputs[j], i)
  {
    var init, last := outputs[..|outputs| - 1], outputs[|outputs| - 1];
    if h in HallucinationsOf(init, journals) {
      HallucinationsSound(init, journals, h);
      var j, i :| 0 <= j < |init| && 0 <= i < |init[j].items|
        && Ungrounded(init, journals, j, i) && h == HallucinationAt(init[j], i);
      assert outputs[j] == init[j];
      assert Ungrounded(outputs, journals, j, i);
    } else {
      var grounded := Verdicts(last, JournalText(journals, last.journalId));
      ItemHallucinationsSound(last, grounded, |last.items|, h);
      var i :| 0 <= i < |last.items| && !grounded[i] && h == HallucinationAt(last, i);
      assert Ungrounded(outputs, journals, |outputs| - 1, i);
    }
  }

  lemma {:induction false} HallucinationsComplete(outputs: seq<ParserOutput>, journals: Dict<string, string>, j: nat, i: nat)
    requires j < |outputs| && i < |outputs[j].items| && Ungrounded(outputs, journals, j, i)
    ensures HallucinationAt(outputs[j], i) in HallucinationsOf(outputs, journals)
  {
    var init, last := outputs[..|outputs| - 1], outputs[|outputs| - 1];
    if j < |init| {
      assert outputs[j] == init[j];
      assert Ungrounded(init, journals, j, i);
      HallucinationsComplete(init, journals, j, i);
    } else {
      ItemHallucinationsComplete(last, Verdicts(last, JournalText(journals, last.journalId)), |last.items|, i);
    }
  }

  /** A record is in the list exactly when it describes an item that fails the check against
      the text of its own journal. */
  lemma HallucinationsMembers(outputs: seq<ParserOutput>, journals: Dict<string, string>)
    ensures forall h :: h in HallucinationsOf(outputs, journals) <==>
      exists j, i ::
        && 0 <= j < |outputs| && 0 <= i < |outputs[j].items|
        && Ungrounded(outputs, journals, j, i) && h == HallucinationAt(outputs[j], i)
  {
    forall h | h in HallucinationsOf(outputs, journals)
      ensures exists j, i ::
        && 0 <= j < |outputs| && 0 <= i < |outputs[j].items|
        && Ungrounded(outputs, journals, j, i) && h == HallucinationAt(outputs[j], i)
    {
      HallucinationsSound(outputs, journals, h);
    }
    forall j, i | 0 <= j < |outputs| && 0 <= i < |outputs[j].items| && Ungrounded(outputs, journals, j, i)
      ensures HallucinationAt(outputs[j], i) in HallucinationsOf(outputs, journals)
    {
      HallucinationsComplete(outputs, journals, j, i);
    }
  }

  /** Every non-blank span of an output whose journal is missing is a hallucination. */
  lemma MissingJournalUngrounded(outputs: seq<ParserOutput>, journals: Dict<string, string>, j: nat, i: nat)
    requires j < |outputs| && i < |outputs[j].items|
    requires outputs[j].journalId !in Keys(journals)
    ensures Ungrounded(outputs, journals, j, i) <==> !AllSpace(outputs[j].items[i].evidenceSpan)
  {
    GetAbsent(journals, outputs[j].journalId, "");
    EmptyTextGroundsOnlyBlank(outputs[j].items[i].evidenceSpan);
  }

  /** The cluster counts add up to the number of hallucinations, one entry per distinct span. */
  lemma ClustersCoverHallucinations(hs: seq<Hallucination>)
    ensures SumNat(CountAll(Spans(hs))) == |hs|
    ensures forall s :: s in Keys(CountAll(Spans(hs))) <==> exists i :: 0 <= i < |hs| && hs[i].evidenceSpan == s
  {
    CountAllSpec(Spans(hs));
    DedupSpec(Spans(hs));
    forall s | s in Spans(hs) ensures exists i :: 0 <= i < |hs| && hs[i].evidenceSpan == s {
      var i :| 0 <= i < |Spans(hs)| && Spans(hs)[i] == s;
      assert hs[i].evidenceSpan == s;
    }
    forall i | 0 <= i < |hs| ensures hs[i].evidenceSpan in Spans(hs) {
      assert Spans(hs)[i] == hs[i].evidenceSpan;
    }
  }
}
