/** The review workflow: a queue built from the invariant report's violations, and the
    counts reported about a queue. Review ids are supplied by a parameter in place of random
    identifiers. */
module Workflow {
  import opened Models
  import opened SchemaChecker
  import opened EvidenceChecker
  import opened ContradictionChecker
  import opened InvariantRunner
  import opened Queue

  // ---------------------------------------------------------------- the quoted span

  /** The text after the first `'`, or "" when there is none. */
  function AfterQuote(s: string): string {
    if s == [] then [] else if s[0] == '\'' then s[1..] else AfterQuote(s[1..])
  }

  /** The text before the first `'`, or all of it when there is none. */
  function BeforeQuote(s: string): (r: string)
    ensures '\'' !in r
  {
    if s == [] then [] else if s[0] == '\'' then [] else [s[0]] + BeforeQuote(s[1..])
  }

  /** `details.split("'")[1] if "'" in details else ""`: the second piece of a split on `'`. */
  function QuotedSpan(details: string): string {
    if '\'' in details then BeforeQuote(AfterQuote(details)) else ""
  }

  lemma {:induction false} AfterQuoteOf(a: string, b: string)
    requires '\'' !in a
    ensures AfterQuote(a + "'" + b) == b
  {
    if a != [] {
      assert (a + "'" + b)[1..] == a[1..] + "'" + b;
      AfterQuoteOf(a[1..], b);
    }
  }

  lemma {:induction false} BeforeQuoteOf(b: string, c: string)
    requires '\'' !in b
    ensures BeforeQuote(b + c) == b + BeforeQuote(c)
  {
    if b != [] {
      assert (b + c)[0] == b[0] && (b + c)[1..] == b[1..] + c;
      assert b[0] in b;
      BeforeQuoteOf(b[1..], c);
      assert BeforeQuote(b + c) == [b[0]] + BeforeQuote(b[1..] + c);
      assert b == [b[0]] + b[1..];
    } else {
      assert b + c == c;
    }
  }

  lemma {:induction false} BeforeQuoteWhole(s: string)
    ensures BeforeQuote(s) == s <==> '\'' !in s
  {
    if s != [] && s[0] != '\'' {
      BeforeQuoteWhole(s[1..]);
      assert s == [s[0]] + s[1..];
    }
  }

  /** The span between the first two quotes is recovered, and so is everything after a single
      quote; text without a quote gives "". */
  lemma QuotedSpanOf(a: string, b: string, c: string)
    requires '\'' !in a && '\'' !in b
    ensures QuotedSpan(a + "'" + b + "'" + c) == b
    ensures QuotedSpan(a + "'" + b) == b
    ensures QuotedSpan(a) == ""
  {
    var rest := b + "'" + c;
    var d := a + "'" + rest;
    assert a + "'" + b + "'" + c == d;
    assert d[|a|] == '\'';
    AfterQuoteOf(a, rest);
    BeforeQuoteOf(b, "'" + c);
    assert rest == b + ("'" + c);
    assert BeforeQuote("'" + c) == [];
    assert BeforeQuote(rest) == b + [];
    assert (a + "'" + b)[|a|] == '\'';
    AfterQuoteOf(a, b);
    BeforeQuoteOf(b, "");
    assert b + "" == b;
  }

  /** A hallucination's review item gets back its span when the span has no `'`; a span with
      one is cut at it. */
  lemma HallucinationSpanRecovered(h: Hallucination)
    ensures QuotedSpan(HallucinationRecord(h).details) == BeforeQuote(h.evidenceSpan)
    ensures QuotedSpan(HallucinationRecord(h).details) == h.evidenceSpan <==> '\'' !in h.evidenceSpan
  {
    var details := "span '" + h.evidenceSpan + "' not in source";
    assert details == "span " + "'" + (h.evidenceSpan + "' not in source");
    assert '\'' in details by {
      assert details[5] == '\'';
    }
    AfterQuoteOf("span ", h.evidenceSpan + "' not in source");
    var b := BeforeQuote(h.evidenceSpan);
    BeforeQuotePrefix(h.evidenceSpan, "' not in source");
    BeforeQuoteWhole(h.evidenceSpan);
  }

  /** Cutting `s + t` at the first quote: where `s` has one, the cut falls inside `s`. */
  lemma {:induction false} BeforeQuotePrefix(s: string, t: string)
    requires t != [] && t[0] == '\''
    ensures BeforeQuote(s + t) == BeforeQuote(s)
  {
    if s == [] {
      assert s + t == t;
    } else {
      assert (s + t)[1..] == s[1..] + t;
      BeforeQuotePrefix(s[1..], t);
    }
  }

  // ---------------------------------------------------------------- building the queue

  /** The review item for one violation, created at `now`. */
  function ReviewItemOf(v: InvariantViolation, id: string, now: real): ReviewItem {
    NewReviewItem(id, v.journalId, v.violationType, v.severity, QuotedSpan(v.details), v.details, 0.5, now)
  }

  function ReviewItemsOf(vs: seq<InvariantViolation>, newId: nat -> string, now: real): seq<ReviewItem> {
    if vs == [] then []
    else ReviewItemsOf(vs[..|vs| - 1], newId, now) + [ReviewItemOf(vs[|vs| - 1], newId(|vs| - 1), now)]
  }

  /** `build_review_queue_from_invariants`; `newId(k)` is the id of the `k`-th item. */
  method BuildReviewQueueFromInvariants(report: InvariantReport, cfg: HumanReviewConfig, newId: nat -> string, now: real)
    returns (queue: ReviewQueue)
    ensures fresh(queue) && queue.cfg == cfg
    ensures queue.items == ReviewItemsOf(report.violations, newId, now)
  {
    queue := new ReviewQueue(cfg);
    var k := 0;
    while k < |report.violations|
      invariant 0 <= k <= |report.violations|
      invariant queue.cfg == cfg
      invariant queue.items == ReviewItemsOf(report.violations[..k], newId, now)
    {
      assert report.violations[..k + 1][..k] == report.violations[..k];
      queue.Add(ReviewItemOf(report.violations[k], newId(k), now));
      k := k + 1;
    }
    assert report.violations[..k] == report.violations;
  }

  /** One pending item per violation, in violation order, copying its journal, type,
      severity and details, with confidence 0.5 and the quoted span as evidence. */
  lemma ReviewItemsSpec(vs: seq<InvariantViolation>, newId: nat -> string, now: real)
    ensures var r := ReviewItemsOf(vs, newId, now);
      && |r| == |vs|
      && forall i :: 0 <= i < |vs| ==>
        && r[i].id == newId(i) && r[i].journalId == vs[i].journalId && r[i].violationType == vs[i].violationType
        && r[i].severity == vs[i].severity && r[i].details == vs[i].details && r[i].confidence == 0.5
        && r[i].state == Pending && r[i].evidenceSpan == QuotedSpan(vs[i].details) && r[i].createdAt == now
  {
    ReviewItemsAt(vs, newId, now);
  }

  lemma {:induction false} ReviewItemsAt(vs: seq<InvariantViolation>, newId: nat -> string, now: real)
    ensures var r := ReviewItemsOf(vs, newId, now);
      && |r| == |vs|
      && forall i :: 0 <= i < |vs| ==> r[i] == ReviewItemOf(vs[i], newId(i), now)
  {
    if vs != [] {
      ReviewItemsAt(vs[..|vs| - 1], newId, now);
    }
  }

  /** Built from the invariant checks, the item for the `i`-th hallucination sits after the
      schema items and carries the hallucinated span back. */
  lemma HallucinationItems(
    vs: seq<SchemaViolation>, hs: seq<Hallucination>, cs: seq<Contradiction>, showFloat: real -> string,
    newId: nat -> string, now: real, i: nat)
    requires i < |hs| && '\'' !in hs[i].evidenceSpan
    ensures var r := ReviewItemsOf(AllViolations(vs, hs, cs, showFloat), newId, now);
      && |vs| + i < |r|
      && r[|vs| + i].evidenceSpan == hs[i].evidenceSpan
      && r[|vs| + i].severity == Critical
      && r[|vs| + i].violationType == "evidence_not_found"
  {
    ViolationsLayout(vs, hs, cs, showFloat);
    ReviewItemsSpec(AllViolations(vs, hs, cs, showFloat), newId, now);
    HallucinationSpanRecovered(hs[i]);
  }

  // ---------------------------------------------------------------- the summary

  datatype ReviewSummary = ReviewSummary(totalPending: nat, criticalPending: nat, dailyBatchSize: nat)

  /** `get_review_summary` at time `now`, counts only. */
  function GetReviewSummary(queue: ReviewQueue, now: real): (r: ReviewSummary)
    reads queue
    ensures r.totalPending == |PendingOf(queue.items)|
    ensures r.criticalPending == |CriticalPendingOf(queue.items)| <= r.totalPending
    ensures queue.cfg.maxDailyReviews >= 0 ==>
      r.dailyBatchSize == if r.totalPending < queue.cfg.maxDailyReviews then r.totalPending else queue.cfg.maxDailyReviews
  {
    CriticalWithinPending(queue.items);
    ReviewSummary(|queue.GetPending()|, |queue.GetCriticalItems()|, |queue.GetDailyBatch(now)|)
  }

  lemma {:induction false} AllPendingKept(items: seq<ReviewItem>)
    requires forall i :: 0 <= i < |items| ==> items[i].state == Pending
    ensures PendingOf(items) == items
  {
    if items != [] {
      AllPendingKept(items[..|items| - 1]);
    }
  }

  /** A freshly built queue has every item pending, one per violation. */
  lemma FreshQueueAllPending(vs: seq<InvariantViolation>, newId: nat -> string, now: real)
    ensures |PendingOf(ReviewItemsOf(vs, newId, now))| == |vs|
  {
    ReviewItemsSpec(vs, newId, now);
    AllPendingKept(ReviewItemsOf(vs, newId, now));
  }
}
