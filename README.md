# ashwam_monitor core, modelled in Dafny

`ashwam_monitor` watches a parser that extracts health items (symptoms, food, emotions,
mind states) from journal text. This project models the parts of the monitor that decide
things:

- the three **invariant checks** and the run that combines them:
  - schema: every item has the bucket its domain needs, an in-range confidence and a non-blank span;
  - grounding: every evidence span occurs in its journal's text, ignoring case, with a fallback to word prefixes longer than five characters;
  - polarity: no two items of a journal share a normalised span with different polarities;
- the **drift comparison** of a baseline run against a current run:
  - the per-run metrics: uncertainty rate, extraction volume, and the domain, arousal and intensity distributions;
  - the categorical and two-sample test wrappers;
  - the status rules and the alerts;
- the **canary evaluation** against hand-labelled gold journals;
- the **human review queue**: priority scoring, the daily batch, escalation and review decisions, and the workflow that fills the queue from an invariant report;
- the **analytics** helpers: the automatic diagnosis, the change arrows and status icons, and the Wilson confidence interval and how it is read.

Modules follow the source packages:

- `Text` models Python `str` operations. `Dicts` models insertion-ordered `dict`, `Counter`, `defaultdict` and stable `sorted`.
- `Models` gives the records, the enumerations and the configuration.
- The checks are `SchemaChecker`, `EvidenceChecker`, `ContradictionChecker` and `InvariantRunner`.
- The drift comparison is `Extractors`, `Statistical` and `Comparator`.
- The rest are `Canary`, `Queue`, `Workflow` and `Analytics`.

Loops in the source are methods with loop invariants, each proved equal to a specification function. The properties are lemmas about those functions. The review queue is a class whose `items` field its methods reassign. The per-item outcomes of the schema and grounding checks are gathered into sequences (`SchemaChecker.ErrorsOf`, `EvidenceChecker.Verdicts`), and the violation and hallucination lists are defined over those sequences.

These stand-ins are used:

- Floats are `real`.
- The clock is a `now` parameter in hours.
- Random ids are an id-supplying function parameter.
- These are function parameters: the Jensen–Shannon divergence, scipy's `ks_2samp` and `chisquare`, the square root, and the canary's matcher, score, evidence rate and action policy.

Where the code departs from its own configuration and comments:

- The volume limit of 50%, the uncertainty limits 0.6 and 15 points, and the p-value limits 0.01 and 0.05 are constants in the code, not configuration.
- `ks_alpha` and `arousal_shift_pct` are defined in `DriftThresholds` but never read.
- An intensity-distribution BREAKAGE raises no alert.
- The schema check tests the buckets for `None`. The distributions skip empty-string buckets as well, by truthiness.
- `mark_reviewed` accepts an item in any state, so an approved or escalated item can be decided again. `MarkFirst` models that.
- `InvariantReport` declares no `definitions` field, so the `definitions=` argument of `run_invariant_checks` is not kept in the report.

## Model

| member | source | states |
|---|---|---|
| Text.LowerIdempotent | ashwam_monitor/invariants/evidence_checker.py:13-14 | lower-casing twice is lower-casing once |
| Text.LowerKeepsSpaces | ashwam_monitor/invariants/evidence_checker.py:13 | lower-casing does not make a blank span non-blank or the reverse |
| Text.TrimStartSpec | ashwam_monitor/invariants/evidence_checker.py:13 | `lstrip` removes exactly a blank prefix and keeps the rest of the text |
| Text.TrimEndSpec | ashwam_monitor/invariants/evidence_checker.py:13 | `rstrip` removes exactly a blank suffix and keeps the rest of the text |
| Text.StripBlank | ashwam_monitor/invariants/schema_checker.py:27 | `strip()` gives "" exactly for an all-blank text |
| Text.SplitIgnoresStrip | ashwam_monitor/invariants/evidence_checker.py:13-22 | splitting the stripped span gives the same words as splitting the span |
| Text.SplitPrefixLength | ashwam_monitor/invariants/evidence_checker.py:22-24 | any word prefix re-joined with single spaces is no longer than the text it came from |
| Text.ContainsInEmpty | ashwam_monitor/invariants/evidence_checker.py:17 | only "" is contained in the empty text |
| Text.ContainsNoLonger | ashwam_monitor/invariants/evidence_checker.py:17 | a contained pattern is no longer than the text |
| Dicts.PutSpec | ashwam_monitor/metrics/statistical.py:70 | assigning a key keeps an existing key's position, appends a new key last, and changes only that key's value |
| Dicts.DedupSpec | ashwam_monitor/metrics/statistical.py:37 | de-duplication keeps exactly the elements of the input, each once |
| Dicts.IndexBySpec | ashwam_monitor/canary/runner.py:26-27 | a dict comprehension keyed by id has one key per distinct id in first-occurrence order; the last record with an id wins; an absent id gives the default |
| Dicts.CountAllSpec | ashwam_monitor/invariants/evidence_checker.py:56 | `Counter` has one key per distinct element in first-occurrence order, each key's count is its number of occurrences, and the counts add up to the length |
| Dicts.CountAllEntries | ashwam_monitor/analytics/advanced.py:127-128 | each entry of a count dictionary holds its key's number of occurrences |
| Dicts.GroupAllSpec | ashwam_monitor/invariants/contradiction_checker.py:16-18 | `defaultdict(list)` appends build one group per distinct key in first-occurrence order, and each group holds exactly that key's values in order |
| Dicts.GroupAllEntries | ashwam_monitor/invariants/contradiction_checker.py:16-18 | group keys are distinct and exactly the keys seen, and each group holds its key's values |
| Dicts.SharesSpec | ashwam_monitor/metrics/statistical.py:72-76 | dividing counts by their total keeps the keys, gives each key count over total, and sums to the counts' sum over total |
| Dicts.ShareOfCounts | ashwam_monitor/metrics/statistical.py:61-76 | a distribution is empty exactly when nothing was counted; otherwise it has one share per distinct key, each key's count over the total, summing to 1 |
| Dicts.LexTransitive | ashwam_monitor/metrics/statistical.py:37 | string order is transitive |
| Dicts.LexTotal | ashwam_monitor/metrics/statistical.py:37 | two different strings are ordered one way or the other |
| Dicts.SortedUniqueSpec | ashwam_monitor/metrics/statistical.py:37 | `sorted(set(xs))` is strictly increasing and holds exactly the elements of `xs` |
| Dicts.SortDescSpec | ashwam_monitor/human_loop/queue.py:74 | sorting with `reverse=True` gives a permutation of the input in non-increasing key order, and is stable: the elements sharing a key keep their input order |
| Dicts.PyTake | ashwam_monitor/human_loop/queue.py:75 | a slice `[:n]` is a prefix of the list, of length `min(n, len)` for `n >= 0` and `max(len + n, 0)` for a negative `n` |
| Dicts.TopSpec | ashwam_monitor/human_loop/queue.py:74-75 | the first `n` after a descending sort are in non-increasing order, drawn from the input, as long as `n` allows, rank no lower than anything left out, and for each key are the first elements with that key |
| Dicts.TopKeys | ashwam_monitor/human_loop/queue.py:74-75 | the keys kept are drawn from the input's keys, and a key left out belongs to an entry left out |
| Dicts.TopExcluded | ashwam_monitor/analytics/advanced.py:88-90 | an entry whose key is not among the first `n` ranks no higher than any that is |
| Dicts.SortDescKeys | ashwam_monitor/human_loop/queue.py:74 | sorting pairs reorders their keys as it reorders the pairs |
| Models.DomainValueInjective | ashwam_monitor/models/enums.py:4-8 | two domains have the same string value exactly when they are the same domain |
| Models.NewParserOutput | ashwam_monitor/models/inputs.py:31-33 | a parser output built from an id alone has that id and no items |
| Models.NewGoldLabel | ashwam_monitor/models/inputs.py:53-55 | a gold label built from an id alone has that id and no items |
| Models.NewParserItem | ashwam_monitor/models/inputs.py:6-28 | construction succeeds exactly for an allowed intensity bucket, an allowed arousal bucket and a confidence in [0, 1]; on failure it names each failing field and no other |
| Models.UnknownOnlyForIntensity | ashwam_monitor/models/inputs.py:19-26 | "unknown" is an allowed intensity bucket but not an allowed arousal bucket |
| Models.TotalItemsAppend | ashwam_monitor/invariants/runner.py:23 | the item total of one more output grows by that output's item count |
| Models.Ratio | ashwam_monitor/invariants/evidence_checker.py:53 | a count ratio is the empty value for no items and lies in [0, 1] when the count is at most the total |
| Models.RatioTimesTotal | ashwam_monitor/invariants/evidence_checker.py:53 | over a positive total, the ratio times the total gives back the count |
| SchemaChecker.CheckItemSchema | ashwam_monitor/invariants/schema_checker.py:6-30 | the straight-line checks report exactly the errors of the schema rules, in rule order |
| SchemaChecker.SchemaErrorsMeaning | ashwam_monitor/invariants/schema_checker.py:14-28 | each rule reports exactly its own failure: missing arousal for an emotion item, missing intensity for any other domain, a confidence outside [0, 1], a blank span |
| SchemaChecker.AtMostOneBucketError | ashwam_monitor/invariants/schema_checker.py:14-20 | only one bucket rule applies to an item, so an item has at most three errors |
| SchemaChecker.ValidatedItemInRange | ashwam_monitor/invariants/schema_checker.py:23-24 | an item that passed construction never gets the out-of-range error |
| SchemaChecker.CompleteItemIsValid | ashwam_monitor/invariants/schema_checker.py:6-30 | an item with both buckets, an in-range confidence and a non-blank span has no error |
| SchemaChecker.ComputeSchemaValidity | ashwam_monitor/invariants/schema_checker.py:33-55 | the rate is the share of error-free items (1 for no items) and lies in [0, 1]; the violations are one record per failing item |
| SchemaChecker.ScanOutput | ashwam_monitor/invariants/schema_checker.py:42-52 | the inner loop over one output counts its error-free items and records each failing item with its index and errors |
| SchemaChecker.ItemsCountedOnce | ashwam_monitor/invariants/schema_checker.py:41-52 | within one output each item is counted valid or gets one violation record, never both |
| SchemaChecker.EachItemCountedOnce | ashwam_monitor/invariants/schema_checker.py:41-52 | the valid items and the violation records together number the items |
| SchemaChecker.ItemViolationsMembers | ashwam_monitor/invariants/schema_checker.py:41-52 | within one output a record exists exactly for each item with an error and carries all of its errors |
| SchemaChecker.ViolationsMembers | ashwam_monitor/invariants/schema_checker.py:33-55 | a violation record exists exactly for each item with at least one error, with its journal, its index and all its errors |
| SchemaChecker.ViolationsSound | ashwam_monitor/invariants/schema_checker.py:41-52 | every violation record belongs to an item of some output that has an error, and carries that item's journal, index and errors |
| SchemaChecker.ViolationsComplete | ashwam_monitor/invariants/schema_checker.py:41-52 | every item with an error has its violation record |
| EvidenceChecker.CheckEvidenceExists | ashwam_monitor/invariants/evidence_checker.py:7-28 | the loop accepts exactly the grounded spans: the normalised span occurs in the lower-cased text, or a prefix of at least two of its words longer than five characters does |
| EvidenceChecker.TryPrefixes | ashwam_monitor/invariants/evidence_checker.py:22-28 | the fallback loop succeeds exactly when some prefix of at least two words, re-joined, occurs in the text and is longer than five characters |
| EvidenceChecker.ShortSpanOnlyWhole | ashwam_monitor/invariants/evidence_checker.py:22-26 | a normalised span of five characters or fewer is grounded only by a direct match |
| EvidenceChecker.OneWordOnlyWhole | ashwam_monitor/invariants/evidence_checker.py:23 | a span of at most one word is grounded only by a direct match |
| EvidenceChecker.BlankSpanGrounded | ashwam_monitor/invariants/evidence_checker.py:13-18 | a blank span is grounded in every text |
| EvidenceChecker.EmptyTextGroundsOnlyBlank | ashwam_monitor/invariants/evidence_checker.py:40 | against the empty text of a missing journal, exactly the blank spans are grounded |
| EvidenceChecker.UpperCaseSpanGrounded | ashwam_monitor/invariants/evidence_checker.py:13-18 | the match ignores case: "MILD HEADACHE" is grounded in "woke up with mild headache" |
| EvidenceChecker.NormalizeUpperCaseSpan | ashwam_monitor/invariants/evidence_checker.py:13 | normalising "MILD HEADACHE" gives "mild headache" |
| EvidenceChecker.FindHallucinations | ashwam_monitor/invariants/evidence_checker.py:31-58 | the loops return the hallucination list, its rate over all items (0 for no items, within [0, 1]), and a `Counter` of the hallucinated spans |
| EvidenceChecker.ScanOutput | ashwam_monitor/invariants/evidence_checker.py:42-51 | the inner loop finds the failing items of one output and counts all its items |
| EvidenceChecker.ComputeEvidenceValidity | ashwam_monitor/invariants/evidence_checker.py:61-68 | validity is one minus the hallucination rate and lies in [0, 1] |
| EvidenceChecker.ItemHallucinationsBound | ashwam_monitor/invariants/evidence_checker.py:42-51 | one output gives no more hallucinations than items |
| EvidenceChecker.HallucinationsBound | ashwam_monitor/invariants/evidence_checker.py:31-58 | there are never more hallucinations than items |
| EvidenceChecker.ItemHallucinationsSound | ashwam_monitor/invariants/evidence_checker.py:42-51 | every record of one output describes one of its items that fails the check |
| EvidenceChecker.ItemHallucinationsComplete | ashwam_monitor/invariants/evidence_checker.py:42-51 | every failing item of one output has its record |
| EvidenceChecker.HallucinationsSound | ashwam_monitor/invariants/evidence_checker.py:31-58 | every record describes an item that fails the check against its own journal's text |
| EvidenceChecker.HallucinationsComplete | ashwam_monitor/invariants/evidence_checker.py:31-58 | every item that fails the check against its journal's text has its record |
| EvidenceChecker.HallucinationsMembers | ashwam_monitor/invariants/evidence_checker.py:31-58 | a record is in the list exactly when it describes a failing item |
| EvidenceChecker.MissingJournalUngrounded | ashwam_monitor/invariants/evidence_checker.py:40 | for an output whose journal is missing, an item fails exactly when its span is not blank |
| EvidenceChecker.ClustersCoverHallucinations | ashwam_monitor/invariants/evidence_checker.py:56 | the cluster counts add up to the number of hallucinations, with one key per hallucinated span |
| ContradictionChecker.FindContradictions | ashwam_monitor/invariants/contradiction_checker.py:7-51 | the loops return the contradictions of each journal in turn, and their rate over all items (0 for no items, within [0, 1]) |
| ContradictionChecker.BuildSpanMap | ashwam_monitor/invariants/contradiction_checker.py:16-22 | the first loop groups a journal's items by normalised span |
| ContradictionChecker.ReportConflicts | ashwam_monitor/invariants/contradiction_checker.py:28-48 | the second loop reports one contradiction per conflicting group, in group order |
| ContradictionChecker.SmallGroupAgrees | ashwam_monitor/invariants/contradiction_checker.py:30-31 | a group of fewer than two items has at most one polarity |
| ContradictionChecker.ConflictingIffClash | ashwam_monitor/invariants/contradiction_checker.py:30-35 | a group is reported exactly when two of its members have different polarities |
| ContradictionChecker.AllSameSingleton | ashwam_monitor/invariants/contradiction_checker.py:33-34 | a non-empty group whose members share one polarity has exactly that polarity |
| ContradictionChecker.GroupMembers | ashwam_monitor/invariants/contradiction_checker.py:16-22 | a span's group holds exactly the items with that normalised span, each with its own index |
| ContradictionChecker.GroupContradictionsBound | ashwam_monitor/invariants/contradiction_checker.py:28-48 | a journal has no more contradictions than span groups |
| ContradictionChecker.ContradictionsBound | ashwam_monitor/invariants/contradiction_checker.py:7-51 | there are never more contradictions than items |
| ContradictionChecker.CountSpanAppend | ashwam_monitor/invariants/contradiction_checker.py:36-48 | counting the contradictions for a span adds up over concatenated lists |
| ContradictionChecker.OneEntryPerConflictingSpan | ashwam_monitor/invariants/contradiction_checker.py:28-48 | within one journal a span has one contradiction exactly when its group conflicts, and none otherwise; each contradiction carries its group |
| ContradictionChecker.ClashIsReported | ashwam_monitor/invariants/contradiction_checker.py:16-48 | two items of a journal with the same normalised span and different polarities are both listed in a reported contradiction for that span |
| ContradictionChecker.ReportedIsClash | ashwam_monitor/invariants/contradiction_checker.py:16-48 | a reported contradiction names its journal, lists exactly the items with its span, and contains two items of different polarity |
| ContradictionChecker.ContradictionsPerJournal | ashwam_monitor/invariants/contradiction_checker.py:12-48 | every contradiction comes from the groups of a single journal |
| InvariantRunner.RunInvariantChecks | ashwam_monitor/invariants/runner.py:16-111 | the report holds the item and journal totals, the three checkers' rates, evidence validity as one minus the hallucination rate, the combined violations and alerts, and the four thresholds |
| InvariantRunner.AssembleViolations | ashwam_monitor/invariants/runner.py:33-62 | the three loops produce the schema, hallucination and polarity-conflict records in that order |
| InvariantRunner.AppendSchemaRecords | ashwam_monitor/invariants/runner.py:33-41 | the loop appends one warning record per schema violation, joining its messages with "; " |
| InvariantRunner.AppendHallucinationRecords | ashwam_monitor/invariants/runner.py:43-51 | the loop appends one critical record per hallucination, quoting its span |
| InvariantRunner.AppendContradictionRecords | ashwam_monitor/invariants/runner.py:53-62 | the nested loop appends one critical record per conflicting item of each contradiction |
| InvariantRunner.RaiseAlerts | ashwam_monitor/invariants/runner.py:67-78 | the alert steps produce the rate alerts followed by the cluster warnings |
| InvariantRunner.SchemaRecordsShape | ashwam_monitor/invariants/runner.py:33-41 | one record per schema violation, in order |
| InvariantRunner.HallucinationRecordsShape | ashwam_monitor/invariants/runner.py:43-51 | one record per hallucination, in order |
| InvariantRunner.ConflictRecordsShape | ashwam_monitor/invariants/runner.py:53-62 | one record per conflicting item of a contradiction, in order |
| InvariantRunner.ContradictionRecordsShape | ashwam_monitor/invariants/runner.py:53-62 | there is one record per conflicting item over all contradictions, and each is a critical polarity conflict |
| InvariantRunner.ViolationsLayout | ashwam_monitor/invariants/runner.py:33-62 | the violation list is the schema records, then the hallucination records, then the conflict records, and its length is their sum |
| InvariantRunner.ViolationsHead | ashwam_monitor/invariants/runner.py:33-51 | the list is as long as the three record counts together; position i holds the i-th schema record, and the hallucination records follow the schema records in order |
| InvariantRunner.ViolationsTail | ashwam_monitor/invariants/runner.py:53-62 | every position after the schema and hallucination records holds a conflict record |
| InvariantRunner.SeveritiesByKind | ashwam_monitor/invariants/runner.py:33-62 | exactly the schema records are warnings; every other record is critical |
| InvariantRunner.RateAlertsMeaning | ashwam_monitor/invariants/runner.py:67-74 | each rate alert is raised exactly when its strict comparison with its threshold holds |
| InvariantRunner.ClusterAlertsMembers | ashwam_monitor/invariants/runner.py:76-78 | a cluster warning exists exactly for each span counted more than once, with its count |
| InvariantRunner.SystematicWarnings | ashwam_monitor/invariants/runner.py:76-78 | a systematic-hallucination warning is raised for a span exactly when more than one hallucination has that span, with that number |
| InvariantRunner.ThresholdsRecorded | ashwam_monitor/invariants/runner.py:104-109 | `thresholds_used` records exactly the four invariant thresholds under their names, each with its configured value |
| InvariantRunner.RunnerImportFails | ashwam_monitor/invariants/runner.py:6 | as written, loading the runner fails on `InvariantDefinition`, which `models/outputs.py` does not bind |
| InvariantRunner.CorrectedImportsResolve | ashwam_monitor/invariants/definitions.py:6 | with `InvariantDefinition` imported from the module that defines it, every import of the runner resolves |
| Extractors.UncertainCountSpec | ashwam_monitor/metrics/extractors.py:11-25 | at most every item is uncertain; none is exactly when no item meets any condition; all are exactly when every item meets one |
| Extractors.ComputeUncertaintyRate | ashwam_monitor/metrics/extractors.py:6-27 | the rate is uncertain items over items, 0 for no items, within [0, 1] |
| Extractors.EmptyJournalsSpec | ashwam_monitor/metrics/extractors.py:30-47 | the empty journals are at most all journals, and all of them exactly when there are no items |
| Extractors.ComputeExtractionVolume | ashwam_monitor/metrics/extractors.py:30-47 | no outputs give the zero volume; otherwise the zero rate lies in [0, 1] and the totals are all items and all journals |
| Extractors.ExtractionVolumeSpec | ashwam_monitor/metrics/extractors.py:30-47 | for at least one output the mean is the item count over the journal count and the zero rate is the empty journals over the journal count |
| Extractors.ZeroMeanAllEmpty | ashwam_monitor/metrics/extractors.py:30-47 | the mean is 0 exactly when the zero rate is 1 |
| Extractors.Distribute | ashwam_monitor/metrics/extractors.py:55-61 | counting the keys and dividing each count by their total gives the normalised count of the keys; no keys give `{}` |
| Extractors.ComputeDomainDistribution | ashwam_monitor/metrics/extractors.py:50-61 | the domain distribution of the items |
| Extractors.ComputeArousalDistribution | ashwam_monitor/metrics/extractors.py:64-76 | the arousal distribution of the emotion items |
| Extractors.ComputeIntensityDistribution | ashwam_monitor/metrics/extractors.py:79-91 | the intensity distribution of the non-emotion items |
| Extractors.DomainDistributionSpec | ashwam_monitor/metrics/extractors.py:50-61 | the distribution is empty only for no items; its keys are exactly the domains present; the shares sum to 1 and each is that domain's count over the item count |
| Extractors.ArousalDistributionSpec | ashwam_monitor/metrics/extractors.py:64-76 | the keys are exactly the non-empty arousal buckets of emotion items, and the shares sum to 1 |
| Extractors.ArousalIgnoresOtherDomains | ashwam_monitor/metrics/extractors.py:64-76 | a non-emotion item leaves the arousal distribution unchanged |
| Extractors.IntensityDistributionSpec | ashwam_monitor/metrics/extractors.py:79-91 | the keys are exactly the non-empty intensity buckets of non-emotion items, and the shares sum to 1 |
| Extractors.IntensityIgnoresEmotion | ashwam_monitor/metrics/extractors.py:79-91 | an emotion item leaves the intensity distribution unchanged |
| Statistical.PresentKeysMembers | ashwam_monitor/metrics/statistical.py:67-70 | the counted keys are exactly the non-`None` keys of the items |
| Statistical.ComputeDistribution | ashwam_monitor/metrics/statistical.py:61-76 | the loop returns the normalised count of the non-`None` keys |
| Statistical.CountKeys | ashwam_monitor/metrics/statistical.py:66-70 | the counting loop builds `Counter` of the keys |
| Statistical.AllKeysPresent | ashwam_monitor/metrics/statistical.py:67-70 | when every item has a key, one key is counted per item |
| Statistical.DistributionSpec | ashwam_monitor/metrics/statistical.py:61-76 | the distribution is empty exactly when no item has a key; otherwise its keys are the keys present and its shares sum to 1 |
| Statistical.NoneKeysSkipped | ashwam_monitor/metrics/statistical.py:69 | an item whose key is `None` does not change the counted keys |
| Statistical.KsTest | ashwam_monitor/metrics/statistical.py:24-32 | fewer than two values on either side give (0, 1); otherwise the two-sample test's result |
| Statistical.Rescale | ashwam_monitor/metrics/statistical.py:48 | rescaling keeps one expectation per category |
| Statistical.RescaleSpec | ashwam_monitor/metrics/statistical.py:48 | rescaling keeps one value per category; the values sum to the expected sum scaled by observed total over expected total, and are all 0 with no observations |
| Statistical.RescaledToObserved | ashwam_monitor/metrics/statistical.py:42-48 | the rescaled expectations sum to the observed total |
| Statistical.CategoriesSpec | ashwam_monitor/metrics/statistical.py:37 | the categories are sorted, free of repeats, and exactly the keys of either side |
| Statistical.PositiveSpec | ashwam_monitor/metrics/statistical.py:50 | only pairs with a positive expectation are kept, and none when every expectation is 0 |
| Statistical.EmptyBaselineNeutral | ashwam_monitor/metrics/statistical.py:45-46 | with no baseline counts the test gives (0, 1) |
| Statistical.NoObservationsNeutral | ashwam_monitor/metrics/statistical.py:42-52 | with no current counts every expectation is 0, so the test gives (0, 1) |
| Statistical.ChiSquaredRuns | ashwam_monitor/metrics/statistical.py:35-58 | a non-neutral result comes from the test run on at least two categories with positive expectation and a positive baseline total |
| Comparator.GetAllItemsSpec | ashwam_monitor/metrics/comparator.py:20-21 | flattening keeps every item of every output and no other, as many as the outputs hold |
| Comparator.DetermineStatusBands | ashwam_monitor/metrics/comparator.py:24-29 | each status holds for exactly its band of divergences (breakage from the breakage threshold, drift between the two, stable below) |
| Comparator.DetermineStatusMonotone | ashwam_monitor/metrics/comparator.py:24-29 | a larger divergence never gives a less serious status |
| Comparator.ChangePct | ashwam_monitor/metrics/comparator.py:63 | the change is the relative difference in percent for a positive base, and 0 otherwise |
| Comparator.StatusRulesSpec | ashwam_monitor/metrics/comparator.py:98-124 | volume breakage exactly beyond 50% either way and stable exactly within both limits; an uncertainty rate above 0.6 is breakage and a rise of more than 15 points otherwise drift; the p-value rule is stable from 0.05, breakage below 0.01 |
| Comparator.MaxValue | ashwam_monitor/metrics/comparator.py:61-62 | the maximum is at least every value and is one of them |
| Comparator.CompareEmpty | ashwam_monitor/metrics/comparator.py:32-52 | two empty distributions compare as stable with every value 0 |
| Comparator.CompareNonEmpty | ashwam_monitor/metrics/comparator.py:32-72 | otherwise the divergence is taken over the aligned sorted union of keys, the values are the maxima and the status is the divergence's status |
| Comparator.RunDriftAnalysis | ashwam_monitor/metrics/comparator.py:75-222 | the report holds the six metrics in order, the alerts derived from them, and the four recorded thresholds |
| Comparator.VolumeStep | ashwam_monitor/metrics/comparator.py:94-110 | the extraction-volume metric from the two runs' means |
| Comparator.UncertaintyStep | ashwam_monitor/metrics/comparator.py:116-132 | the uncertainty metric from the two rates |
| Comparator.ConfidenceStep | ashwam_monitor/metrics/comparator.py:165-187 | the confidence metric from the two-sample test and the two means |
| Comparator.AddSurgeAlerts | ashwam_monitor/metrics/comparator.py:141-146 | the loop appends the surge warnings of the watched domains |
| Comparator.AddCollapseAlert | ashwam_monitor/metrics/comparator.py:154-156 | a collapse alert is appended exactly when the current high-arousal share exceeds 0.9 and the baseline one is below 0.7 |
| Comparator.AddShiftAlerts | ashwam_monitor/metrics/comparator.py:189-196 | appends the domain-shift and arousal-shift criticals for breakage and the confidence warning for any non-stable confidence metric, in that order |
| Comparator.ShiftAlertsMembers | ashwam_monitor/metrics/comparator.py:189-196 | each shift alert is present exactly when its metric's status calls for it |
| Comparator.SurgeAlertsMeaning | ashwam_monitor/metrics/comparator.py:141-146 | surge warnings name only "mind" and "emotion", each raised exactly when its share rose by more than the shift threshold |
| Comparator.SurgeAlertsUnfold | ashwam_monitor/metrics/comparator.py:141 | the surge warnings are those for "mind" and then "emotion" |
| Comparator.VolumeAlertIff | ashwam_monitor/metrics/comparator.py:112-113 | the volume warning is raised exactly when the volume status is not stable |
| Comparator.CollapseAlertIff | ashwam_monitor/metrics/comparator.py:155-156 | the collapse alert is raised exactly when the current high share is above 0.9 and the baseline's below 0.7 |
| Comparator.ShiftAlertsIff | ashwam_monitor/metrics/comparator.py:189-196 | the domain and arousal shift alerts follow exactly a breakage of their metric; the confidence warning follows exactly a non-stable confidence status |
| Comparator.AlertLevels | ashwam_monitor/metrics/comparator.py:113-196 | surge, volume and confidence alerts are warnings; collapse and shift alerts are critical |
| Comparator.DriftMetricsNames | ashwam_monitor/metrics/comparator.py:104-187 | the six metrics carry their names in the order they are appended |
| Comparator.CompareNamed | ashwam_monitor/metrics/comparator.py:32-72 | a comparison carries the name it was given |
| Comparator.VolumeMetricRule | ashwam_monitor/metrics/comparator.py:96-110 | the volume status follows the volume rule on the change; with no baseline outputs the change is 0 |
| Comparator.UncertaintyMetricRule | ashwam_monitor/metrics/comparator.py:116-132 | both uncertainty rates lie in [0, 1], and a current rate above 0.6 is breakage whatever the baseline |
| Comparator.ConfidenceMetricRule | ashwam_monitor/metrics/comparator.py:165-187 | the status follows the test's p-value, and fewer than two items on either side give statistic 0, p-value 1 and a stable status |
| Canary.AggregateJournals | ashwam_monitor/canary/runner.py:34-64 | the loop gives one result per gold journal, and the totals are the sums of the per-journal counts |
| Canary.RunCanaryEvaluation | ashwam_monitor/canary/runner.py:16-98 | the report holds the per-journal results over the gold index, the totals, the score of the totals, the evidence rate over the items of gold journals, the action decided from them, and the five thresholds |
| Canary.AsWrittenAlwaysFails | ashwam_monitor/canary/runner.py:99-100 | building the report as written fails for every input, on the missing `threshold_rationale` attribute |
| Canary.PerJournalShape | ashwam_monitor/canary/runner.py:34-64 | one result per gold index entry, each for that entry's journal |
| Canary.OnePerGoldJournal | ashwam_monitor/canary/runner.py:26-64 | there is exactly one result per distinct gold journal id, in first-occurrence order, with no id repeated |
| Canary.LaterRecordWins | ashwam_monitor/canary/runner.py:26 | when parser outputs repeat a journal id, the last of them is the one looked up |
| Canary.MissingParserMissesAll | ashwam_monitor/canary/runner.py:38-50 | a gold journal with no parser output has nothing parsed, matched or extra, and every gold item missed |
| Canary.NonGoldOutputIgnored | ashwam_monitor/canary/runner.py:34-64 | a parser output for a journal not in gold changes no result |
| Canary.GoldJournalItemsMembers | ashwam_monitor/canary/runner.py:70-72 | the evidence population is exactly the items of parser outputs whose journal is in gold |
| Queue.NewReviewItem | ashwam_monitor/human_loop/queue.py:18-31 | a new item is pending, unassigned and without notes, and keeps the given fields |
| Queue.AgeFactorBounds | ashwam_monitor/human_loop/queue.py:58-60 | the age factor lies in [1, 2] for a non-negative age, reaches 2 exactly from one day, and never falls with age |
| Queue.FullConfidenceNoPriority | ashwam_monitor/human_loop/queue.py:63-65 | an item with confidence 1 has priority 0 |
| Queue.PriorityMonotone | ashwam_monitor/human_loop/queue.py:46-65 | an older, less confident item of the same severity never has a lower priority |
| Queue.DefaultSeverityOrder | ashwam_monitor/config.py:35-40 | under the shipped weights, with equal age and confidence below 1, critical outranks warning and warning outranks info |
| Queue.PendingOfMembers | ashwam_monitor/human_loop/queue.py:67-68 | the pending list holds exactly the pending items |
| Queue.PendingOfAppend | ashwam_monitor/human_loop/queue.py:67-68 | the pending selection keeps insertion order |
| Queue.CriticalPendingOfMembers | ashwam_monitor/human_loop/queue.py:77-81 | the critical list holds exactly the pending critical items |
| Queue.CriticalWithinPending | ashwam_monitor/human_loop/queue.py:77-81 | critical items are among the pending ones, and every pending critical item is returned whatever the daily limit |
| Queue.DailyBatchSpec | ashwam_monitor/human_loop/queue.py:70-75 | the batch draws on the pending items, each at most as often as it is pending, is as long as the pending list or the daily limit whichever is smaller, is in non-increasing priority, leaves out no pending item that outranks one it holds, and among equal priorities takes the first ones in pending order |
| Queue.DailyBatchRanks | ashwam_monitor/human_loop/queue.py:73-75 | ranking the pending items and cutting at the limit gives a sub-multiset of them, as long as the limit allows, in non-increasing priority |
| Queue.DailyBatchTop | ashwam_monitor/human_loop/queue.py:73-75 | no pending item left out of the batch has a higher priority than one in it |
| Queue.DailyBatchStable | ashwam_monitor/human_loop/queue.py:74 | among items of one priority the batch holds the first ones in pending order |
| Queue.EscalateAllSpec | ashwam_monitor/human_loop/queue.py:86-92 | escalation treats each item on its own and keeps the list's length |
| Queue.EscalationMeaning | ashwam_monitor/human_loop/queue.py:86-92 | exactly the pending items older than the timeout become escalated; every other item is unchanged and none becomes pending |
| Queue.EscalatedOfMembers | ashwam_monitor/human_loop/queue.py:85-93 | the returned list holds exactly the aged pending items, escalated |
| Queue.MarkFirstAt | ashwam_monitor/human_loop/queue.py:96-100 | the first item with the id is the one that receives the decision |
| Queue.MarkFirstAbsent | ashwam_monitor/human_loop/queue.py:101 | with no item of that id nothing changes |
| Queue.MarkFirstMeaning | ashwam_monitor/human_loop/queue.py:95-101 | only the first item with the id changes, to approved or rejected with the new notes |
| Queue.ReviewQueue.constructor | ashwam_monitor/human_loop/queue.py:39-41 | a new queue is empty and holds its configuration |
| Queue.ReviewQueue.Add | ashwam_monitor/human_loop/queue.py:43-44 | adding appends the item and keeps the others |
| Queue.ReviewQueue.GetPending | ashwam_monitor/human_loop/queue.py:67-68 | the result holds exactly the queue's pending items |
| Queue.ReviewQueue.GetCriticalItems | ashwam_monitor/human_loop/queue.py:77-81 | the result holds exactly the queue's pending critical items, with no cap |
| Queue.ReviewQueue.GetDailyBatch | ashwam_monitor/human_loop/queue.py:70-75 | the batch is a sub-multiset of the queue's pending items, of the smaller of their number and the daily limit, in non-increasing priority, with no left-out pending item outranking a chosen one, and stable on equal priorities |
| Queue.ReviewQueue.EscalateAgedItems | ashwam_monitor/human_loop/queue.py:83-93 | the loop escalates exactly the aged pending items and returns them |
| Queue.ReviewQueue.MarkReviewed | ashwam_monitor/human_loop/queue.py:95-101 | the result is true exactly when some item has the id, and the first such item gets the decision |
| Workflow.BeforeQuote | ashwam_monitor/human_loop/workflow.py:75 | the text before the first quote holds no quote |
| Workflow.AfterQuoteOf | ashwam_monitor/human_loop/workflow.py:75 | after a quote-free prefix and a quote, the rest of the text is recovered |
| Workflow.BeforeQuoteOf | ashwam_monitor/human_loop/workflow.py:75 | a quote-free prefix is kept whole before the first quote |
| Workflow.BeforeQuoteWhole | ashwam_monitor/human_loop/workflow.py:75 | cutting at the first quote keeps the whole text exactly when it has no quote |
| Workflow.QuotedSpanOf | ashwam_monitor/human_loop/workflow.py:75 | `split("'")[1]` gives the text between the first two quotes, or after a single one, and "" without a quote |
| Workflow.HallucinationSpanRecovered | ashwam_monitor/human_loop/workflow.py:75 | a hallucination record's details give back its span, exactly when the span holds no quote |
| Workflow.BeforeQuotePrefix | ashwam_monitor/human_loop/workflow.py:75 | text after a quote never changes the cut before it |
| Workflow.BuildReviewQueueFromInvariants | ashwam_monitor/human_loop/workflow.py:63-82 | the loop builds a new queue with one item per violation in order |
| Workflow.ReviewItemsSpec | ashwam_monitor/human_loop/workflow.py:63-82 | each item copies its violation's journal, type, severity and details, gets the quoted span, confidence 0.5, the time and its id, and is pending |
| Workflow.HallucinationItems | ashwam_monitor/human_loop/workflow.py:63-82 | built from an invariant run, the item for each hallucination carries its span back as critical `evidence_not_found` |
| Workflow.GetReviewSummary | ashwam_monitor/human_loop/workflow.py:85-101 | the summary counts the pending items and the pending critical items, no more critical than pending, and a batch of the smaller of pending and the daily limit |
| Workflow.AllPendingKept | ashwam_monitor/human_loop/queue.py:67-68 | a list of pending items is its own pending list |
| Workflow.FreshQueueAllPending | ashwam_monitor/human_loop/workflow.py:63-101 | a freshly built queue has one pending item per violation |
| Analytics.ChangeArrow | ashwam_monitor/analytics/advanced.py:50-59 | each arrow holds for exactly its band of the change: beyond 20 either way, between 5 and 20, or within 5 |
| Analytics.ChangeArrowMonotone | ashwam_monitor/analytics/advanced.py:50-59 | a larger change never gets a lower arrow |
| Analytics.StatusIcon | ashwam_monitor/analytics/advanced.py:62-67 | each status has its own icon, and each icon means exactly its status |
| Analytics.ReplaceAllSpec | ashwam_monitor/analytics/advanced.py:93 | deleting a pattern never lengthens a text, and a text without it is unchanged |
| Analytics.SpanPatterns | ashwam_monitor/analytics/advanced.py:90-106 | the loop over the three most common details makes one pattern, cause and action per detail counted at least three times, and sets severity high when there is one |
| Analytics.HotJournalPatterns | ashwam_monitor/analytics/advanced.py:131-137 | the loop makes one hot-journal pattern per hot journal |
| Analytics.GenerateAutoDiagnosis | ashwam_monitor/analytics/advanced.py:70-142 | the step-by-step fill gives the diagnosis of the violations |
| Analytics.DiagnoseSteps | ashwam_monitor/analytics/advanced.py:90-142 | the three checks run in turn (frequent hallucinated spans, at least two polarity conflicts, hot journals) build exactly the diagnosis defined from the most common details, the conflict count and the hot journals |
| Analytics.NoViolationsNoDiagnosis | ashwam_monitor/analytics/advanced.py:82-83 | with no violations nothing is detected, suggested or recommended, and the severity is "none" |
| Analytics.AtLeastThreeMembers | ashwam_monitor/analytics/advanced.py:91 | exactly the entries counted at least three times are kept |
| Analytics.HallucinationPatternsSpec | ashwam_monitor/analytics/advanced.py:90-106 | one pattern, cause and action per frequent detail, in order, each about its span text |
| Analytics.HotPatternsSpec | ashwam_monitor/analytics/advanced.py:131-137 | one hot-journal pattern per hot journal, in order |
| Analytics.MostCommon3Spec | ashwam_monitor/analytics/advanced.py:88-90 | `most_common(3)` gives the three most common details, or all when fewer, each once with its number of occurrences, highest first; a detail left out occurs no more often than any kept, and ties go to the detail seen first |
| Analytics.MostCommonExcluded | ashwam_monitor/analytics/advanced.py:88-90 | a detail not among the three occurs no more often than any of them |
| Analytics.MostCommonDistinct | ashwam_monitor/analytics/advanced.py:88-90 | no detail appears twice among the three |
| Analytics.MostCommonStable | ashwam_monitor/analytics/advanced.py:88-90 | among details with one count, the three keep the first ones in first-occurrence order |
| Analytics.SeverityRule | ashwam_monitor/analytics/advanced.py:106-124 | the severity is high exactly when a frequent detail exists, medium exactly when not and there are two or more polarity conflicts, and none otherwise |
| Analytics.SystematicPatterns | ashwam_monitor/analytics/advanced.py:90-106 | each systematic pattern names one of the three most common details, with its count of at least three |
| Analytics.HotMembers | ashwam_monitor/analytics/advanced.py:127-128 | the hot list holds exactly the journals with at least three violations and their counts |
| Analytics.HotNonEmpty | ashwam_monitor/analytics/advanced.py:127-130 | the hot list is non-empty exactly when some journal identifier occurs at least three times |
| Analytics.HotPatternsMembers | ashwam_monitor/analytics/advanced.py:131-137 | a hot-journal pattern exists exactly for each hot entry |
| Analytics.HallucinationPatternsKind | ashwam_monitor/analytics/advanced.py:94-99 | the hallucination step makes only systematic-hallucination patterns |
| Analytics.DiagnoseHot | ashwam_monitor/analytics/advanced.py:127-140 | hot-journal patterns come only from the hot list, one for each entry |
| Analytics.HotJournalRule | ashwam_monitor/analytics/advanced.py:127-140 | a journal is reported hot, with its count, exactly when it has at least three violations |
| Analytics.DiagnoseHotAction | ashwam_monitor/analytics/advanced.py:130-140 | the hot-journal action ends the recommendations exactly when the hot list is not empty |
| Analytics.HotActionRule | ashwam_monitor/analytics/advanced.py:127-140 | the hot-journal action is recommended, last, exactly when some journal has at least three violations |
| Analytics.PolarityRule | ashwam_monitor/analytics/advanced.py:109-124 | the polarity-confusion pattern, with the number of conflicts, is reported exactly when there are two or more, and then the severity is never "none" |
| Analytics.ConfidenceInterval | ashwam_monitor/analytics/advanced.py:248-271 | a zero sample gives (0, 0, 0), and every interval lies within [0, 1] |
| Analytics.IntervalBracketsCenter | ashwam_monitor/analytics/advanced.py:261-269 | for a rate in [0, 1] and a positive sample, the Wilson centre lies in [0, 1] between the bounds and the margin is non-negative |
| Analytics.InterpretConfidence | ashwam_monitor/analytics/advanced.py:322-331 | significant exactly when the lower bound is above 5%, uncertain when 5% lies within the interval, below the threshold otherwise |
| Analytics.InterpretationOfIntervals | ashwam_monitor/analytics/advanced.py:322-331 | an interval from a zero sample reads as below the threshold, and a significant interval has its upper bound above 5% |

## Left out

- Reading and writing files, logging, storage and the command line are left out, as is `run_canary_from_paths`, because all of them are I/O.
- The Jensen–Shannon divergence, `ks_2samp`, `chisquare` and the square root are numerical code over floats. The model takes them as parameters.
- The canary matcher, its score (precision, recall and F1) and its action policy live in files this model does not include. They are parameters, so the canary's action thresholds are not modelled.
- The `std` of the extraction volume needs a square root over floats. It is left out, because no rule reads it.
- None of the `round()` calls is modelled; values are kept exact.
- Run ids, timestamps and `uuid4` are not modelled: ids come from a parameter and `datetime.now()` is a `now` parameter.
- Alert, message and description strings that format floats are modelled as datatypes carrying their numbers, and are not rendered. Examples are `{x:.1%}` and the diagnosis patterns' `description` text.
- `normal_definitions`, the invariant `definitions`, the review summary's `review_triggers`, cadence, scaling and privacy text, and the explainability views are text content with no rule behind it.
- `lower()` is modelled on the ASCII letters only. Unicode case mapping is out of reach.
- Pydantic's own error messages are not modelled. Only which fields fail is kept.
- `analyze_data.py` and `test_invariants.py` are scripts that drive the monitor rather than part of it.
- A review item is a value held in the queue's `items`. Aliasing is not captured: a caller cannot change an item it got back from `get_daily_batch` or `escalate_aged_items` and have the queue see the change.
- Queue.PriorityScore is evaluated as the sort key at one fixed `now`. In the source each call reads the clock.
- Queue.SeverityWeight does not model the default of 10 in `weights.get`. It is unreachable, because every alert level has a weight.
- Queue.DailyBatchSpec: the length clause is stated only for a non-negative daily limit. For a negative limit the slice is still modelled, counting from the end.
- Queue.ReviewQueue.GetDailyBatch: the length bound is stated only for a non-negative daily limit, for the same reason.
- Workflow.GetReviewSummary: the batch-size clause is stated only for a non-negative daily limit.
- Comparator.VolumeMetricRule: a stable status with no baseline outputs is proved only for a non-negative volume threshold.
- Analytics.ConfidenceInterval states only its bounds and its zero-sample case. The Wilson arithmetic is not restated, because the square root is a parameter. The 95% and 99% `z` values are in the body.
- Extractors.ComputeExtractionVolume gives the mean and the zero rate, without `std`.

## Findings

| source | as written | input that shows it | evidently intended | confidence | as-written member | corrected member |
|---|---|---|---|---|---|---|
| ashwam_monitor/canary/runner.py:99-100 | the report is built with `thresholds.threshold_rationale` and `thresholds.run_frequency`, which `CanaryThresholds` (ashwam_monitor/config.py:25-31) does not define | any call: reading the first missing attribute raises `AttributeError` | a report built from the five defined thresholds, without those two fields | not executed | Canary.CanaryReportAsWritten (shown by Canary.AsWrittenAlwaysFails) | Canary.RunCanaryEvaluation |
| ashwam_monitor/invariants/runner.py:6 | `InvariantDefinition` is imported from `models/outputs.py`, which binds no such name; it is defined only in ashwam_monitor/invariants/definitions.py:6 | importing the runner at all: the import raises `ImportError` before `run_invariant_checks` exists | the name imported from `invariants/definitions.py` | not executed | InvariantRunner.RunnerImportsAsWritten (shown by InvariantRunner.RunnerImportFails) | InvariantRunner.RunInvariantChecks (imports shown resolving by InvariantRunner.CorrectedImportsResolve) |
