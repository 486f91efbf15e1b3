/** The schema invariant: per-item structural rules, and the share of items that pass all of
    them. */
module SchemaChecker {
  import opened Text
  import opened Models

  datatype SchemaError =
    | MissingArousal
    | MissingIntensity(domain: Domain)
    | ConfidenceOutOfRange(confidence: real)
    | EmptyEvidenceSpan
  {
    /** The message the checker reports; `showFloat` stands for Python's `str(float)`. */
    function Message(showFloat: real -> string): string {
      match this
      case MissingArousal => "emotion item missing arousal_bucket"
      case MissingIntensity(d) => d.Value() + " item missing intensity_bucket"
      case ConfidenceOutOfRange(c) => "confidence out of range: " + showFloat(c)
      case EmptyEvidenceSpan => "empty evidence span"
    }
  }

  /** The errors `check_item_schema` reports for an item, in the order it checks them. */
  function SchemaErrors(item: ParserItem): seq<SchemaError> {
    (if item.domain == Emotion then (if item.arousalBucket.None? then [MissingArousal] else [])
     else (if item.intensityBucket.None? then [MissingIntensity(item.domain)] else []))
    + (if item.confidence < 0.0 || item.confidence > 1.0 then [ConfidenceOutOfRange(item.confidence)] else [])
    + (if item.evidenceSpan == [] || Strip(item.evidenceSpan) == [] then [EmptyEvidenceSpan] else [])
  }

  /** `check_item_schema` */
  method CheckItemSchema(item: ParserItem) returns (errors: seq<SchemaError>)
    ensures errors == SchemaErrors(item)
  {
    errors := [];
    if item.domain == Emotion {
      if item.arousalBucket.None? {
        errors := errors + [MissingArousal];
      }
    } else {
      if item.intensityBucket.None? {
        errors := errors + [MissingIntensity(item.domain)];
      }
    }
    if item.confidence < 0.0 || item.confidence > 1.0 {
      errors := errors + [ConfidenceOutOfRange(item.confidence)];
    }
    if item.evidenceSpan == [] || Strip(item.evidenceSpan) == [] {
      errors := errors + [EmptyEvidenceSpan];
    }
  }

  /** Each rule reports exactly its own failure, independently of the others. */
  lemma SchemaErrorsMeaning(item: ParserItem)
    ensures MissingArousal in SchemaErrors(item) <==> item.domain == Emotion && item.arousalBucket.None?
    ensures forall d :: MissingIntensity(d) in SchemaErrors(item) <==>
      d == item.domain && item.domain != Emotion && item.intensityBucket.None?
    ensures forall c :: ConfidenceOutOfRange(c) in SchemaErrors(item) <==>
      c == item.confidence && (c < 0.0 || c > 1.0)
    ensures EmptyEvidenceSpan in SchemaErrors(item) <==> AllSpace(item.evidenceSpan)
  {
    BucketErrorsMeaning(item);
    RangeErrorMeaning(item);
    SpanErrorMeaning(item);
  }

  lemma BucketErrorsMeaning(item: ParserItem)
    ensures MissingArousal in SchemaErrors(item) <==> item.domain == Emotion && item.arousalBucket.None?
    ensures forall d :: MissingIntensity(d) in SchemaErrors(item) <==>
      d == item.domain && item.domain != Emotion && item.intensityBucket.None?
  {
  }

  lemma RangeErrorMeaning(item: ParserItem)
    ensures forall c :: ConfidenceOutOfRange(c) in SchemaErrors(item) <==>
      c == item.confidence && (c < 0.0 || c > 1.0)
  {
  }

  lemma SpanErrorMeaning(item: ParserItem)
    ensures EmptyEvidenceSpan in SchemaErrors(item) <==> AllSpace(item.evidenceSpan)
  {
    StripBlank(item.evidenceSpan);
  }

  /** Only one of the two bucket rules applies to an item, so at most three errors arise. */
  lemma AtMostOneBucketError(item: ParserItem)
    ensures !(MissingArousal in SchemaErrors(item) && exists d :: MissingIntensity(d) in SchemaErrors(item))
    ensures |SchemaErrors(item)| <= 3
  {
    SchemaErrorsMeaning(item);
  }

  /** An item that passed construction never gets the out-of-range error. */
  lemma ValidatedItemInRange(item: ParserItem)
    requires ValidParserItem(item)
    ensures forall c :: ConfidenceOutOfRange(c) !in SchemaErrors(item)
  {
    SchemaErrorsMeaning(item);
  }

  /** An item with both buckets, an in-range confidence and a non-blank span has no error. */
  lemma CompleteItemIsValid(item: ParserItem)
    requires item.intensityBucket.Some? && item.arousalBucket.Some?
    requires 0.0 <= item.confidence <= 1.0 && !AllSpace(item.evidenceSpan)
    ensures SchemaErrors(item) == []
  {
    SchemaErrorsMeaning(item);
  }

  // ---------------------------------------------------------------- validity rate

  datatype SchemaViolation = SchemaViolation(journalId: string, itemIndex: nat, errors: seq<SchemaError>)

  /** The errors of every item of one output. */
  function ErrorsOf(o: ParserOutput): (e: seq<seq<SchemaError>>)
    ensures |e| == |o.items|
  {
    seq(|o.items|, i requires 0 <= i < |o.items| => SchemaErrors(o.items[i]))
  }

  /** The violations among the first `n` items of one output, given their errors. */
  function ItemViolations(o: ParserOutput, errors: seq<seq<SchemaError>>, n: nat): seq<SchemaViolation>
    requires n <= |o.items| && |errors| == |o.items|
  {
    if n == 0 then []
    else
      ItemViolations(o, errors, n - 1)
      + (if errors[n - 1] != [] then [SchemaViolation(o.journalId, n - 1, errors[n - 1])] else [])
  }

  function ItemValidCount(o: ParserOutput, errors: seq<seq<SchemaError>>, n: nat): nat
    requires n <= |o.items| && |errors| == |o.items|
  {
    if n == 0 then 0 else ItemValidCount(o, errors, n - 1) + (if errors[n - 1] == [] then 1 else 0)
  }

  function ViolationsOf(outputs: seq<ParserOutput>): seq<SchemaViolation> {
    if outputs == [] then []
    else
      var last := outputs[|outputs| - 1];
      ViolationsOf(outputs[..|outputs| - 1]) + ItemViolations(last, ErrorsOf(last), |last.items|)
  }

  function ValidCount(outputs: seq<ParserOutput>): nat {
    if outputs == [] then 0
    else
      var last := outputs[|outputs| - 1];
      ValidCount(outputs[..|outputs| - 1]) + ItemValidCount(last, ErrorsOf(last), |last.items|)
  }

  /** `compute_schema_validity`: the share of error-free items and the violations. */
  method ComputeSchemaValidity(outputs: seq<ParserOutput>) returns (rate: real, violations: seq<SchemaViolation>)
    ensures violations == ViolationsOf(outputs)
    ensures rate == Ratio(ValidCount(outputs), TotalItems(outputs), 1.0)
    ensures 0.0 <= rate <= 1.0
  {
    var totalItems, validItems := 0, 0;
    violations := [];
    var j := 0;
    while j < |outputs|
      invariant 0 <= j <= |outputs|
      invariant totalItems == TotalItems(outputs[..j])
      invariant validItems == ValidCount(outputs[..j])
      invariant violations == ViolationsOf(outputs[..j])
    {
      var output := outputs[j];
      var valid, found := ScanOutput(output);
      ViolationsStep(outputs, j);
      totalItems := totalItems + |output.items|;
      validItems := validItems + valid;
      violations := violations + found;
      j := j + 1;
    }
    assert outputs[..j] == outputs;
    EachItemCountedOnce(outputs);
    rate := Ratio(validItems, totalItems, 1.0);
  }

  /** One more output adds its items, its valid items and its violations. */
  lemma ViolationsStep(outputs: seq<ParserOutput>, j: nat)
    requires j < |outputs|
    ensures TotalItems(outputs[..j + 1]) == TotalItems(outputs[..j]) + |outputs[j].items|
    ensures ValidCount(outputs[..j + 1]) == ValidCount(outputs[..j])
      + ItemValidCount(outputs[j], ErrorsOf(outputs[j]), |outputs[j].items|)
    ensures ViolationsOf(outputs[..j + 1]) == ViolationsOf(outputs[..j])
      + ItemViolations(outputs[j], ErrorsOf(outputs[j]), |outputs[j].items|)
  {
    assert outputs[..j + 1][..j] == outputs[..j];
  }

  /** The inner loop of `compute_schema_validity`, over the items of one output. */
  method ScanOutput(output: ParserOutput) returns (valid: nat, found: seq<SchemaViolation>)
    ensures valid == ItemValidCount(output, ErrorsOf(output), |output.items|)
    ensures found == ItemViolations(output, ErrorsOf(output), |output.items|)
  {
    ghost var errorsOf := ErrorsOf(output);
    valid, found := 0, [];
    var idx := 0;
    while idx < |output.items|
      invariant 0 <= idx <= |output.items|
      invariant valid == ItemValidCount(output, errorsOf, idx)
      invariant found == ItemViolations(output, errorsOf, idx)
    {
      var errors := CheckItemAt(output, idx);
      ScanStep(output, errorsOf, idx);
      if errors != [] {
        found := found + [SchemaViolation(output.journalId, idx, errors)];
      } else {
        valid := valid + 1;
      }
      idx := idx + 1;
    }
  }

  /** Item `idx` adds one to the valid count when it has no error and a record otherwise. */
  lemma ScanStep(o: ParserOutput, errors: seq<seq<SchemaError>>, idx: nat)
    requires idx < |o.items| && |errors| == |o.items|
    ensures errors[idx] == [] ==>
      && ItemValidCount(o, errors, idx + 1) == ItemValidCount(o, errors, idx) + 1
      && ItemViolations(o, errors, idx + 1) == ItemViolations(o, errors, idx)
    ensures errors[idx] != [] ==>
      && ItemValidCount(o, errors, idx + 1) == ItemValidCount(o, errors, idx)
      && ItemViolations(o, errors, idx + 1) == ItemViolations(o, errors, idx) + [SchemaViolation(o.journalId, idx, errors[idx])]
  {
  }

  /** `check_item_schema` on item `idx` of one output. */
  method CheckItemAt(output: ParserOutput, idx: nat) returns (errors: seq<SchemaError>)
    requires idx < |output.items|
    ensures errors == ErrorsOf(output)[idx]
  {
    errors := CheckItemSchema(output.items[idx]);
  }

  lemma {:induction false} ItemsCountedOnce(o: ParserOutput, errors: seq<seq<SchemaError>>, n: nat)
    requires n <= |o.items| && |errors| == |o.items|
    ensures ItemValidCount(o, errors, n) + |ItemViolations(o, errors, n)| == n
  {
    if n > 0 {
      ItemsCountedOnce(o, errors, n - 1);
    }
  }

  /** Every item is either valid or has exactly one violation record. */
  lemma {:induction false} EachItemCountedOnce(outputs: seq<ParserOutput>)
    ensures ValidCount(outputs) + |ViolationsOf(outputs)| == TotalItems(outputs)
  {
    if outputs != [] {
      var last := outputs[|outputs| - 1];
      EachItemCountedOnce(outputs[..|outputs| - 1]);
      ItemsCountedOnce(last, ErrorsOf(last), |last.items|);
    }
  }

  lemma {:induction false} ItemViolationsMembers(o: ParserOutput, errors: seq<seq<SchemaError>>, n: nat)
    requires n <= |o.items| && |errors| == |o.items|
    ensures forall v :: v in ItemViolations(o, errors, n) <==>
      exists i :: 0 <= i < n && errors[i] != [] && v == SchemaViolation(o.journalId, i, errors[i])
  {
    if n > 0 {
      ItemViolationsMembers(o, errors, n - 1);
    }
  }

  /** Item `i` of output `j` has at least one error. */
  predicate Flawed(outputs: seq<ParserOutput>, j: nat, i: nat)
    requires j < |outputs| && i < |outputs[j].items|
  {
    ErrorsOf(outputs[j])[i] != []
  }

  /** The record made for item `i` of output `j`. */
  function RecordAt(outputs: seq<ParserOutput>, j: nat, i: nat): SchemaViolation
    requires j < |outputs| && i < |outputs[j].items|
  {
    SchemaViolation(outputs[j].journalId, i, ErrorsOf(outputs[j])[i])
  }

  lemma {:induction false} ViolationsSound(outputs: seq<ParserOutput>, v: SchemaViolation)
    requires v in ViolationsOf(outputs)
    ensures exists j, i :: 0 <= j < |outputs| && 0 <= i < |outputs[j].items| && Flawed(outputs, j, i) && v == RecordAt(outputs, j, i)
  {
    var init, last := outputs[..|outputs| - 1], outputs[|outputs| - 1];
    if v in ViolationsOf(init) {
      ViolationsSound(init, v);
      var j, i :| 0 <= j < |init| && 0 <= i < |init[j].items| && Flawed(init, j, i) && v == RecordAt(init, j, i);
      assert outputs[j] == init[j];
      assert Flawed(outputs, j, i) && v == RecordAt(outputs, j, i);
    } else {
      var errors := ErrorsOf(last);
      ItemViolationsMembers(last, errors, |last.items|);
      var i :| 0 <= i < |last.items| && errors[i] != [] && v == SchemaViolation(last.journalId, i, errors[i]);
      assert Flawed(outputs, |outputs| - 1, i) && v == RecordAt(outputs, |outputs| - 1, i);
    }
  }

  lemma {:induction false} ViolationsComplete(outputs: seq<ParserOutput>, j: nat, i: nat)
    requires j < |outputs| && i < |outputs[j].items| && Flawed(outputs, j, i)
    ensures RecordAt(outputs, j, i) in ViolationsOf(outputs)
  {
    var init, last := outputs[..|outputs| - 1], outputs[|outputs| - 1];
    if j < |init| {
      assert outputs[j] == init[j];
      assert Flawed(init, j, i) && RecordAt(init, j, i) == RecordAt(outputs, j, i);
      ViolationsComplete(init, j, i);
    } else {
      ItemViolationsMembers(last, ErrorsOf(last), |last.items|);
    }
  }

  /** A violation record exists exactly for each item with at least one error, and carries
      that item's journal, index and errors. */
  lemma ViolationsMembers(outputs: seq<ParserOutput>)
    ensures forall v :: v in ViolationsOf(outputs) <==>
      exists j, i :: 0 <= j < |outputs| && 0 <= i < |outputs[j].items| && Flawed(outputs, j, i) && v == RecordAt(outputs, j, i)
    ensures forall j, i :: 0 <= j < |outputs| && 0 <= i < |outputs[j].items| ==>
      (Flawed(outputs, j, i) <==> SchemaErrors(outputs[j].items[i]) != [])
      && RecordAt(outputs, j, i) == SchemaViolation(outputs[j].journalId, i, SchemaErrors(outputs[j].items[i]))
  {
    forall v | v in ViolationsOf(outputs)
      ensures exists j, i :: 0 <= j < |outputs| && 0 <= i < |outputs[j].items| && Flawed(outputs, j, i) && v == RecordAt(outputs, j, i)
    {
      ViolationsSound(outputs, v);
    }
    forall j, i | 0 <= j < |outputs| && 0 <= i < |outputs[j].items| && Flawed(outputs, j, i)
      ensures RecordAt(outputs, j, i) in ViolationsOf(outputs)
    {
      ViolationsComplete(outputs, j, i);
    }
  }
}
