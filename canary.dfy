/** The canary evaluation: parser outputs scored against hand-labelled gold journals, journal by
    journal, with the totals that feed precision, recall and F1 and the action decision. The
    item matcher, the scorer, the evidence-match rate and the action rule are parameters. */
module Canary {
  import opened Dicts
  import opened Models

  /** `match_items(parser_items, gold_items)`: (matched, missed, extra). */
  type Matcher = (seq<ParserItem>, seq<GoldItem>) -> (nat, nat, nat)

  datatype CanaryReport = CanaryReport(
    precision: real,
    recall: real,
    f1: real,
    evidenceMatchRate: real,
    matchedCount: nat,
    missedCount: nat,
    extraCount: nat,
    action: CanaryAction,
    actionReason: string,
    perJournal: seq<CanaryJournalResult>,
    thresholdsUsed: Dict<string, real>)

  function OutputId(o: ParserOutput): string { o.journalId }

  function LabelId(g: GoldLabel): string { g.journalId }

  /** The result for one gold journal: with no parser output for it, every gold item is
      missed; otherwise the matcher's three counts. */
  function JournalResult(journalId: string, gold: GoldLabel, parserById: Dict<string, ParserOutput>, matcher: Matcher)
    : CanaryJournalResult
  {
    if journalId !in Keys(parserById) then CanaryJournalResult(journalId, |gold.items|, 0, 0, |gold.items|, 0)
    else
      var parser := Get(parserById, journalId, NewParserOutput(journalId));
      var (matched, missed, extra) := matcher(parser.items, gold.items);
      CanaryJournalResult(journalId, |gold.items|, |parser.items|, matched, missed, extra)
  }

  /** One result per entry of the gold index, in its order. */
  function PerJournal(goldById: Dict<string, GoldLabel>, parserById: Dict<string, ParserOutput>, matcher: Matcher)
    : seq<CanaryJournalResult>
  {
    if goldById == [] then []
    else
      var (journalId, gold) := goldById[|goldById| - 1];
      PerJournal(goldById[..|goldById| - 1], parserById, matcher) + [JournalResult(journalId, gold, parserById, matcher)]
  }

  function SumMatched(rs: seq<CanaryJournalResult>): nat {
    if rs == [] then 0 else SumMatched(rs[..|rs| - 1]) + rs[|rs| - 1].matched
  }

  function SumMissed(rs: seq<CanaryJournalResult>): nat {
    if rs == [] then 0 else SumMissed(rs[..|rs| - 1]) + rs[|rs| - 1].missed
  }

  function SumExtra(rs: seq<CanaryJournalResult>): nat {
    if rs == [] then 0 else SumExtra(rs[..|rs| - 1]) + rs[|rs| - 1].extra
  }

  /** `[item for o in parser_outputs for item in o.items if o.journal_id in gold_by_id]` */
  function GoldJournalItems(outputs: seq<ParserOutput>, goldIds: seq<string>): seq<ParserItem> {
    if outputs == [] then []
    else
      var last := outputs[|outputs| - 1];
      GoldJournalItems(outputs[..|outputs| - 1], goldIds) + (if last.journalId in goldIds then last.items else [])
  }

  /** `[item for g in gold_labels for item in g.items]` */
  function AllGoldItems(labels: seq<GoldLabel>): seq<GoldItem> {
    if labels == [] then [] else AllGoldItems(labels[..|labels| - 1]) + labels[|labels| - 1].items
  }

  function CanaryThresholdsUsed(t: CanaryThresholds): Dict<string, real> {
    [("f1_pass", t.f1Pass), ("f1_alert", t.f1Alert), ("f1_human_review", t.f1HumanReview),
     ("f1_rollback", t.f1Rollback), ("min_evidence_match", t.minEvidenceMatch)]
  }

  /** The per-journal loop of `run_canary_evaluation`. */
  method AggregateJournals(goldById: Dict<string, GoldLabel>, parserById: Dict<string, ParserOutput>, matcher: Matcher)
    returns (perJournal: seq<CanaryJournalResult>, totalMatched: nat, totalMissed: nat, totalExtra: nat)
    ensures perJournal == PerJournal(goldById, parserById, matcher)
    ensures totalMatched == SumMatched(perJournal)
    ensures totalMissed == SumMissed(perJournal)
    ensures totalExtra == SumExtra(perJournal)
  {
    totalMatched, totalMissed, totalExtra := 0, 0, 0;
    perJournal := [];
    var k := 0;
    while k < |goldById|
      invariant 0 <= k <= |goldById|
      invariant perJournal == PerJournal(goldById[..k], parserById, matcher)
      invariant totalMatched == SumMatched(perJournal)
      invariant totalMissed == SumMissed(perJournal)
      invariant totalExtra == SumExtra(perJournal)
    {
      var (journalId, gold) := goldById[k];
      assert goldById[..k + 1][..k] == goldById[..k];
      if journalId !in Keys(parserById) {
        var missed := |gold.items|;
        perJournal := perJournal + [CanaryJournalResult(journalId, |gold.items|, 0, 0, missed, 0)];
        totalMissed := totalMissed + missed;
      } else {
        var parser := Get(parserById, journalId, NewParserOutput(journalId));
        var (matched, missed, extra) := matcher(parser.items, gold.items);
        totalMatched := totalMatched + matched;
        totalMissed := totalMissed + missed;
        totalExtra := totalExtra + extra;
        perJournal := perJournal + [CanaryJournalResult(journalId, |gold.items|, |parser.items|, matched, missed, extra)];
      }
      assert perJournal[..|perJournal| - 1] == PerJournal(goldById[..k], parserById, matcher);
      k := k + 1;
    }
    assert goldById[..k] == goldById;
  }

  /** `run_canary_evaluation` as evidently intended, without the two settings the canary
      thresholds do not have. `score` stands for `compute_precision_recall_f1`,
      `evidenceRate` for `compute_evidence_match_rate`, `decide` for `determine_action`. */
  method RunCanaryEvaluation(
    parserOutputs: seq<ParserOutput>, goldLabels: seq<GoldLabel>, t: CanaryThresholds,
    matcher: Matcher, score: (nat, nat, nat) -> (real, real, real),
    evidenceRate: (seq<ParserItem>, seq<GoldItem>) -> real, decide: (real, real) -> (CanaryAction, string))
    returns (report: CanaryReport)
    ensures var goldById := IndexBy(goldLabels, LabelId);
      var perJournal := PerJournal(goldById, IndexBy(parserOutputs, OutputId), matcher);
      && report.perJournal == perJournal
      && report.matchedCount == SumMatched(perJournal)
      && report.missedCount == SumMissed(perJournal)
      && report.extraCount == SumExtra(perJournal)
      && (report.precision, report.recall, report.f1) == score(SumMatched(perJournal), SumMissed(perJournal), SumExtra(perJournal))
      && report.evidenceMatchRate == evidenceRate(GoldJournalItems(parserOutputs, Keys(goldById)), AllGoldItems(goldLabels))
      && (report.action, report.actionReason) == decide(report.f1, report.evidenceMatchRate)
      && report.thresholdsUsed == CanaryThresholdsUsed(t)
  {
    var parserById := IndexBy(parserOutputs, OutputId);
    var goldById := IndexBy(goldLabels, LabelId);
    var perJournal, totalMatched, totalMissed, totalExtra := AggregateJournals(goldById, parserById, matcher);
    var (precision, recall, f1) := score(totalMatched, totalMissed, totalExtra);
    var rate := evidenceRate(GoldJournalItems(parserOutputs, Keys(goldById)), AllGoldItems(goldLabels));
    var (action, reason) := decide(f1, rate);
    report := CanaryReport(precision, recall, f1, rate, totalMatched, totalMissed, totalExtra, action, reason,
      perJournal, CanaryThresholdsUsed(t));
  }

  // ---------------------------------------------------------------- the code as written

  /** An attribute read on a `CanaryThresholds` record: only its five fields exist. */
  function ThresholdAttribute(t: CanaryThresholds, name: string): Option<real> {
    if name == "f1_pass" then Some(t.f1Pass)
    else if name == "f1_alert" then Some(t.f1Alert)
    else if name == "f1_human_review" then Some(t.f1HumanReview)
    else if name == "f1_rollback" then Some(t.f1Rollback)
    else if name == "min_evidence_match" then Some(t.minEvidenceMatch)
    else None
  }

  /** The report exactly as the code builds it: the thresholds record is also asked for
      `threshold_rationale` and `run_frequency`; a missing attribute raises `AttributeError`,
      named in the error. */
  function CanaryReportAsWritten(report: CanaryReport, t: CanaryThresholds): Result<CanaryReport, string> {
    if ThresholdAttribute(t, "threshold_rationale").None? then Err("threshold_rationale")
    else if ThresholdAttribute(t, "run_frequency").None? then Err("run_frequency")
    else Ok(report)
  }

  /** As written, building the report fails for every input, on `threshold_rationale`. */
  lemma AsWrittenAlwaysFails(report: CanaryReport, t: CanaryThresholds)
    ensures CanaryReportAsWritten(report, t) == Err("threshold_rationale")
  {
    assert "threshold_rationale" != "f1_pass" && "threshold_rationale" != "f1_alert";
    assert "threshold_rationale" != "f1_human_review" && "threshold_rationale" != "f1_rollback";
    assert "threshold_rationale" != "min_evidence_match";
  }

  // ---------------------------------------------------------------- properties

  lemma {:induction false} PerJournalShape(goldById: Dict<string, GoldLabel>, parserById: Dict<string, ParserOutput>, matcher: Matcher)
    ensures |PerJournal(goldById, parserById, matcher)| == |goldById|
    ensures forall i :: 0 <= i < |goldById| ==>
      PerJournal(goldById, parserById, matcher)[i] == JournalResult(goldById[i].0, goldById[i].1, parserById, matcher)
  {
    if goldById != [] {
      var init := goldById[..|goldById| - 1];
      PerJournalShape(init, parserById, matcher);
      assert forall i :: 0 <= i < |init| ==> init[i] == goldById[i];
    }
  }

  /** There is exactly one result per distinct gold journal id, in order of first
      appearance, and each is scored against the last gold record with that id. */
  lemma OnePerGoldJournal(goldLabels: seq<GoldLabel>, parserById: Dict<string, ParserOutput>, matcher: Matcher)
    ensures var rs := PerJournal(IndexBy(goldLabels, LabelId), parserById, matcher);
      && |rs| == |Dedup(MapKeys(goldLabels, LabelId))|
      && (forall i :: 0 <= i < |rs| ==> rs[i].journalId == Dedup(MapKeys(goldLabels, LabelId))[i])
      && Distinct(MapKeys(rs, (r: CanaryJournalResult) => r.journalId))
  {
    var goldById := IndexBy(goldLabels, LabelId);
    var rs := PerJournal(goldById, parserById, matcher);
    IndexBySpec(goldLabels, LabelId);
    KeysLength(goldById);
    PerJournalShape(goldById, parserById, matcher);
    DedupSpec(MapKeys(goldLabels, LabelId));
    var ids := MapKeys(rs, (r: CanaryJournalResult) => r.journalId);
    forall i, j | 0 <= i < j < |ids| ensures ids[i] != ids[j] {
      assert ids[i] == Keys(goldById)[i] && ids[j] == Keys(goldById)[j];
    }
  }

  /** When journal ids repeat, the last record with an id is the one looked up. */
  lemma LaterRecordWins(outputs: seq<ParserOutput>, i: nat)
    requires i < |outputs|
    requires forall j :: i < j < |outputs| ==> outputs[j].journalId != outputs[i].journalId
    ensures Get(IndexBy(outputs, OutputId), outputs[i].journalId, NewParserOutput(outputs[i].journalId)) == outputs[i]
  {
    IndexBySpec(outputs, OutputId);
    var def := NewParserOutput(outputs[i].journalId);
    assert forall j :: i < j < |outputs| ==> OutputId(outputs[j]) != OutputId(outputs[i]);
    assert Get(IndexBy(outputs, OutputId), OutputId(outputs[i]), def) == outputs[i];
  }

  /** A gold journal with no parser output: nothing parsed, nothing matched or extra, every
      gold item missed. */
  lemma MissingParserMissesAll(journalId: string, gold: GoldLabel, parserById: Dict<string, ParserOutput>, matcher: Matcher)
    requires journalId !in Keys(parserById)
    ensures var r := JournalResult(journalId, gold, parserById, matcher);
      r.parserCount == 0 && r.matched == 0 && r.extra == 0 && r.missed == |gold.items| && r.goldCount == |gold.items|
  {
  }

  /** A parser output for a journal that is not in gold changes no result. */
  lemma {:induction false} NonGoldOutputIgnored(
    goldById: Dict<string, GoldLabel>, outputs: seq<ParserOutput>, o: ParserOutput, matcher: Matcher)
    requires o.journalId !in Keys(goldById)
    ensures PerJournal(goldById, IndexBy(outputs + [o], OutputId), matcher)
         == PerJournal(goldById, IndexBy(outputs, OutputId), matcher)
  {
    if goldById != [] {
      var init := goldById[..|goldById| - 1];
      var (journalId, gold) := goldById[|goldById| - 1];
      KeysOfConcat(init, [goldById[|goldById| - 1]]);
      assert goldById == init + [goldById[|goldById| - 1]];
      NonGoldOutputIgnored(init, outputs, o, matcher);
      assert (outputs + [o])[..|outputs|] == outputs;
      var before := IndexBy(outputs, OutputId);
      PutSpec(before, o.journalId, o);
      assert journalId != o.journalId;
      assert (journalId in Keys(IndexBy(outputs + [o], OutputId))) == (journalId in Keys(before));
      assert Get(IndexBy(outputs + [o], OutputId), journalId, NewParserOutput(journalId))
          == Get(before, journalId, NewParserOutput(journalId));
    }
  }

  /** Restricting the evidence population: exactly the items of parser outputs whose journal
      is in gold. */
  lemma {:induction false} GoldJournalItemsMembers(outputs: seq<ParserOutput>, goldIds: seq<string>)
    ensures forall x :: x in GoldJournalItems(outputs, goldIds) <==>
      exists j :: 0 <= j < |outputs| && outputs[j].journalId in goldIds && x in outputs[j].items
  {
    if outputs != [] {
      var init := outputs[..|outputs| - 1];
      GoldJournalItemsMembers(init, goldIds);
      forall x | (exists j :: 0 <= j < |outputs| && outputs[j].journalId in goldIds && x in outputs[j].items)
        ensures x in GoldJournalItems(outputs, goldIds)
      {
        var j :| 0 <= j < |outputs| && outputs[j].journalId in goldIds && x in outputs[j].items;
        if j < |init| {
          assert init[j] == outputs[j];
        }
      }
      forall x | x in GoldJournalItems(init, goldIds)
        ensures exists j :: 0 <= j < |outputs| && outputs[j].journalId in goldIds && x in outputs[j].items
      {
        var j :| 0 <= j < |init| && init[j].journalId in goldIds && x in init[j].items;
        assert init[j] == outputs[j];
      }
    }
  }
}
