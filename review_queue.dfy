/** The human review queue: items awaiting a clinician, their lifecycle states, the priority
    score that orders a capped daily batch, and age-based escalation. Times are hours on one
    clock; the current time is a parameter. */
module Queue {
  import opened Dicts
  import opened Models

  datatype ReviewState = Pending | InReview | Approved | Rejected | Escalated {
    function Value(): string {
      match this
      case Pending => "pending"
      case InReview => "in_review"
      case Approved => "approved"
      case Rejected => "rejected"
      case Escalated => "escalated"
    }
  }

  /** One item that needs human review. `createdAt` is in hours. */
  datatype ReviewItem = ReviewItem(
    id: string,
    journalId: string,
    violationType: string,
    severity: AlertLevel,
    evidenceSpan: string,
    details: string,
    confidence: real,
    createdAt: real,
    state: ReviewState,
    assignedTo: Option<string>,
    notes: string)

  /** `ReviewItem(...)` with the defaults for state, assignee and notes. */
  function NewReviewItem(
    id: string, journalId: string, violationType: string, severity: AlertLevel,
    evidenceSpan: string, details: string, confidence: real, createdAt: real): (r: ReviewItem)
    ensures r.state == Pending && r.assignedTo == None && r.notes == ""
    ensures r.id == id && r.journalId == journalId && r.violationType == violationType && r.severity == severity
    ensures r.evidenceSpan == evidenceSpan && r.details == details && r.confidence == confidence && r.createdAt == createdAt
  {
    ReviewItem(id, journalId, violationType, severity, evidenceSpan, details, confidence, createdAt, Pending, None, "")
  }

  // ---------------------------------------------------------------- priority

  /** The weight the configuration gives a severity. */
  function SeverityWeight(cfg: HumanReviewConfig, severity: AlertLevel): int {
    match severity
    case Critical => cfg.criticalWeight
    case Warning => cfg.warningWeight
    case Info => cfg.infoWeight
  }

  /** `min(2.0, 1.0 + age_hours / 24)` */
  function AgeFactor(ageHours: real): real {
    if 2.0 <= 1.0 + ageHours / 24.0 then 2.0 else 1.0 + ageHours / 24.0
  }

  /** `get_priority_score`: severity weight times age factor times one minus confidence. */
  function PriorityScore(cfg: HumanReviewConfig, item: ReviewItem, now: real): real {
    SeverityWeight(cfg, item.severity) as real * AgeFactor(now - item.createdAt) * (1.0 - item.confidence)
  }

  /** The age factor lies between 1 and 2 for a non-negative age, reaches 2 at one day, and
      never decreases with age. */
  lemma AgeFactorBounds(ageHours: real, older: real)
    requires 0.0 <= ageHours <= older
    ensures 1.0 <= AgeFactor(ageHours) <= 2.0
    ensures AgeFactor(ageHours) == 2.0 <==> ageHours >= 24.0
    ensures AgeFactor(ageHours) <= AgeFactor(older)
  {
  }

  /** An item the parser was fully confident in has priority 0. */
  lemma FullConfidenceNoPriority(cfg: HumanReviewConfig, item: ReviewItem, now: real)
    requires item.confidence == 1.0
    ensures PriorityScore(cfg, item, now) == 0.0
  {
  }

  lemma MulMono(a: real, b: real, c: real, d: real)
    requires 0.0 <= a <= b && 0.0 <= c <= d
    ensures a * c <= b * d
  {
    assert a * c <= a * d;
    assert a * d <= b * d;
  }

  /** With a non-negative weight and a confidence of at most 1, an item that is older and
      less confident than another of the same severity is at least as urgent. */
  lemma PriorityMonotone(cfg: HumanReviewConfig, x: ReviewItem, y: ReviewItem, now: real)
    requires x.severity == y.severity && SeverityWeight(cfg, x.severity) >= 0
    requires x.createdAt <= y.createdAt <= now
    requires x.confidence <= y.confidence <= 1.0
    ensures PriorityScore(cfg, x, now) >= PriorityScore(cfg, y, now)
  {
    var w := SeverityWeight(cfg, x.severity) as real;
    AgeFactorBounds(now - y.createdAt, now - x.createdAt);
    MulMono(w, w, AgeFactor(now - y.createdAt), AgeFactor(now - x.createdAt));
    MulMono(w * AgeFactor(now - y.createdAt), w * AgeFactor(now - x.createdAt), 1.0 - y.confidence, 1.0 - x.confidence);
  }

  /** Under the shipped weights, with equal age and confidence below 1, a critical item
      outranks a warning, which outranks an info item. */
  lemma DefaultSeverityOrder(x: ReviewItem, y: ReviewItem, z: ReviewItem, now: real)
    requires x.severity == Critical && y.severity == Warning && z.severity == Info
    requires x.createdAt == y.createdAt == z.createdAt <= now
    requires x.confidence == y.confidence == z.confidence < 1.0
    ensures PriorityScore(DefaultConfig.humanReview, x, now) > PriorityScore(DefaultConfig.humanReview, y, now)
    ensures PriorityScore(DefaultConfig.humanReview, y, now) > PriorityScore(DefaultConfig.humanReview, z, now)
  {
    var f := AgeFactor(now - x.createdAt) * (1.0 - x.confidence);
    AgeFactorBounds(now - x.createdAt, now - x.createdAt);
    MulMono(1.0, AgeFactor(now - x.createdAt), 1.0 - x.confidence, 1.0 - x.confidence);
    assert f > 0.0;
    assert PriorityScore(DefaultConfig.humanReview, x, now) == 100.0 * f;
    assert PriorityScore(DefaultConfig.humanReview, y, now) == 50.0 * f;
    assert PriorityScore(DefaultConfig.humanReview, z, now) == 10.0 * f;
  }

  // ---------------------------------------------------------------- selections

  /** `[i for i in items if i.state == PENDING]` */
  function PendingOf(items: seq<ReviewItem>): seq<ReviewItem> {
    if items == [] then []
    else PendingOf(items[..|items| - 1]) + (if items[|items| - 1].state == Pending then [items[|items| - 1]] else [])
  }

  /** The pending critical items. */
  function CriticalPendingOf(items: seq<ReviewItem>): seq<ReviewItem> {
    if items == [] then []
    else
      var last := items[|items| - 1];
      CriticalPendingOf(items[..|items| - 1]) + (if last.severity == Critical && last.state == Pending then [last] else [])
  }

  lemma {:induction false} PendingOfMembers(items: seq<ReviewItem>)
    ensures forall x :: x in PendingOf(items) <==> x in items && x.state == Pending
  {
    if items != [] {
      PendingOfMembers(items[..|items| - 1]);
      assert items == items[..|items| - 1] + [items[|items| - 1]];
    }
  }

  /** Selection keeps insertion order: it distributes over concatenation. */
  lemma {:induction false} PendingOfAppend(a: seq<ReviewItem>, b: seq<ReviewItem>)
    ensures PendingOf(a + b) == PendingOf(a) + PendingOf(b)
    decreases |b|
  {
    if b == [] {
      assert a + b == a;
    } else {
      var b' := b[..|b| - 1];
      assert (a + b)[..|a + b| - 1] == a + b';
      PendingOfAppend(a, b');
    }
  }

  lemma {:induction false} CriticalPendingOfMembers(items: seq<ReviewItem>)
    ensures forall x :: x in CriticalPendingOf(items) <==> x in items && x.severity == Critical && x.state == Pending
  {
    if items != [] {
      CriticalPendingOfMembers(items[..|items| - 1]);
      assert items == items[..|items| - 1] + [items[|items| - 1]];
    }
  }

  /** Critical items are a sub-list of the pending ones, and however small the daily limit,
      none is left out. */
  lemma {:induction false} CriticalWithinPending(items: seq<ReviewItem>)
    ensures |CriticalPendingOf(items)| <= |PendingOf(items)|
    ensures forall i :: 0 <= i < |items| && items[i].severity == Critical && items[i].state == Pending ==>
      items[i] in CriticalPendingOf(items)
  {
    CriticalPendingOfMembers(items);
    if items != [] {
      CriticalWithinPending(items[..|items| - 1]);
    }
  }

  // ---------------------------------------------------------------- daily batch

  function Scored(items: seq<ReviewItem>, cfg: HumanReviewConfig, now: real): seq<(ReviewItem, real)> {
    seq(|items|, i requires 0 <= i < |items| => (items[i], PriorityScore(cfg, items[i], now)))
  }

  /** `get_daily_batch`: the pending items sorted by priority, highest first and stable on
      ties, cut at `max_daily_reviews`. */
  function DailyBatch(items: seq<ReviewItem>, cfg: HumanReviewConfig, now: real): seq<ReviewItem> {
    Keys(PyTake(SortDesc(Scored(PendingOf(items), cfg, now)), cfg.maxDailyReviews))
  }

  /** The items of `s` whose priority at `now` is exactly `k`, in their order in `s`. */
  function AtPriority(s: seq<ReviewItem>, cfg: HumanReviewConfig, now: real, k: real): seq<ReviewItem> {
    if s == [] then []
    else (if PriorityScore(cfg, s[0], now) == k then [s[0]] else []) + AtPriority(s[1..], cfg, now, k)
  }

  predicate ScoredPairs(s: seq<(ReviewItem, real)>, cfg: HumanReviewConfig, now: real) {
    forall p :: p in s ==> p.1 == PriorityScore(cfg, p.0, now)
  }

  lemma ScoredSpec(items: seq<ReviewItem>, cfg: HumanReviewConfig, now: real)
    ensures Keys(Scored(items, cfg, now)) == items
    ensures ScoredPairs(Scored(items, cfg, now), cfg, now)
  {
    KeysLength(Scored(items, cfg, now));
  }

  lemma {:induction false} AtPriorityKeys(s: seq<(ReviewItem, real)>, cfg: HumanReviewConfig, now: real, k: real)
    requires ScoredPairs(s, cfg, now)
    ensures AtPriority(Keys(s), cfg, now, k) == Keys(WithKey(s, k))
  {
    if s != [] {
      assert ScoredPairs(s[1..], cfg, now) by {
        forall p | p in s[1..] ensures p in s { }
      }
      AtPriorityKeys(s[1..], cfg, now, k);
      KeysOfConcat(if s[0].1 == k then [s[0]] else [], WithKey(s[1..], k));
      assert Keys(s)[1..] == Keys(s[1..]);
    }
  }

  /** The batch draws its items from the pending list, as often as they occur there, is as
      long as the pending list or the daily limit, whichever is smaller, never puts a lower
      priority before a higher one, and leaves out no pending item that outranks one it
      holds; among items of equal priority it takes the first ones in pending order. */
  lemma DailyBatchSpec(items: seq<ReviewItem>, cfg: HumanReviewConfig, now: real)
    ensures var r, pending := DailyBatch(items, cfg, now), PendingOf(items);
      && (forall x :: x in r ==> x in items && x.state == Pending)
      && multiset(r) <= multiset(pending)
      && (cfg.maxDailyReviews >= 0 ==> |r| == if |pending| < cfg.maxDailyReviews then |pending| else cfg.maxDailyReviews)
      && (forall i, j :: 0 <= i < j < |r| ==> PriorityScore(cfg, r[i], now) >= PriorityScore(cfg, r[j], now))
      && (forall x, i :: x in multiset(pending) - multiset(r) && 0 <= i < |r| ==> PriorityScore(cfg, x, now) <= PriorityScore(cfg, r[i], now))
      && (forall k :: AtPriority(r, cfg, now, k) <= AtPriority(pending, cfg, now, k))
  {
    var r := DailyBatch(items, cfg, now);
    PendingOfMembers(items);
    DailyBatchRanks(PendingOf(items), cfg, now, cfg.maxDailyReviews);
    DailyBatchTop(PendingOf(items), cfg, now, cfg.maxDailyReviews);
    DailyBatchStable(PendingOf(items), cfg, now, cfg.maxDailyReviews);
    forall x | x in r ensures x in PendingOf(items) {
      assert x in multiset(r);
    }
  }

  /** Ranking `pending` by priority and keeping the first `n`: drawn from `pending`, as
      long as `n` allows, highest priority first. */
  lemma DailyBatchRanks(pending: seq<ReviewItem>, cfg: HumanReviewConfig, now: real, n: int)
    ensures var r := Keys(PyTake(SortDesc(Scored(pending, cfg, now)), n));
      && multiset(r) <= multiset(pending)
      && (n >= 0 ==> |r| == if |pending| < n then |pending| else n)
      && (forall i, j :: 0 <= i < j < |r| ==> PriorityScore(cfg, r[i], now) >= PriorityScore(cfg, r[j], now))
  {
    var scored := Scored(pending, cfg, now);
    var top := PyTake(SortDesc(scored), n);
    ScoredSpec(pending, cfg, now);
    TopSpec(scored, n);
    TopKeys(scored, n);
    KeysLength(top);
    forall i | 0 <= i < |top| ensures top[i].1 == PriorityScore(cfg, top[i].0, now) {
      assert top[i] in multiset(scored);
    }
  }

  /** No pending item left out of the batch outranks one it holds. */
  lemma DailyBatchTop(pending: seq<ReviewItem>, cfg: HumanReviewConfig, now: real, n: int)
    ensures var r := Keys(PyTake(SortDesc(Scored(pending, cfg, now)), n));
      forall x, i :: x in multiset(pending) - multiset(r) && 0 <= i < |r| ==> PriorityScore(cfg, x, now) <= PriorityScore(cfg, r[i], now)
  {
    var scored := Scored(pending, cfg, now);
    var top := PyTake(SortDesc(scored), n);
    var r := Keys(top);
    ScoredSpec(pending, cfg, now);
    TopSpec(scored, n);
    TopKeys(scored, n);
    KeysLength(top);
    forall x, i | x in multiset(pending) - multiset(r) && 0 <= i < |r|
      ensures PriorityScore(cfg, x, now) <= PriorityScore(cfg, r[i], now)
    {
      var q: (ReviewItem, real) :| q in multiset(scored) - multiset(top) && q.0 == x;
      assert q in scored && top[i] in multiset(scored);
    }
  }

  /** Among items of one priority, the batch keeps the first of them in pending order. */
  lemma DailyBatchStable(pending: seq<ReviewItem>, cfg: HumanReviewConfig, now: real, n: int)
    ensures var r := Keys(PyTake(SortDesc(Scored(pending, cfg, now)), n));
      forall k :: AtPriority(r, cfg, now, k) <= AtPriority(pending, cfg, now, k)
  {
    var scored := Scored(pending, cfg, now);
    var sorted := SortDesc(scored);
    var top := PyTake(sorted, n);
    ScoredSpec(pending, cfg, now);
    TopSpec(scored, n);
    assert ScoredPairs(top, cfg, now) by {
      forall p | p in top ensures p.1 == PriorityScore(cfg, p.0, now) {
        assert p in multiset(scored);
      }
    }
    forall k ensures AtPriority(Keys(top), cfg, now, k) <= AtPriority(pending, cfg, now, k) {
      AtPriorityKeys(top, cfg, now, k);
      AtPriorityKeys(scored, cfg, now, k);
      KeysPrefix(WithKey(top, k), WithKey(scored, k));
    }
  }

  // ---------------------------------------------------------------- escalation

  predicate IsAged(item: ReviewItem, timeoutHours: int, now: real) {
    now - item.createdAt > timeoutHours as real
  }

  /** One item after escalation: only a pending item past the timeout changes. */
  function Escalate(item: ReviewItem, timeoutHours: int, now: real): ReviewItem {
    if item.state == Pending && IsAged(item, timeoutHours, now) then item.(state := Escalated) else item
  }

  function EscalateAll(items: seq<ReviewItem>, timeoutHours: int, now: real): seq<ReviewItem> {
    if items == [] then []
    else EscalateAll(items[..|items| - 1], timeoutHours, now) + [Escalate(items[|items| - 1], timeoutHours, now)]
  }

  /** The items `escalate_aged_items` returns, as they are once escalated. */
  function EscalatedOf(items: seq<ReviewItem>, timeoutHours: int, now: real): seq<ReviewItem> {
    if items == [] then []
    else
      var last := items[|items| - 1];
      EscalatedOf(items[..|items| - 1], timeoutHours, now)
        + (if last.state == Pending && IsAged(last, timeoutHours, now) then [last.(state := Escalated)] else [])
  }

  lemma {:induction false} EscalateAllSpec(items: seq<ReviewItem>, timeoutHours: int, now: real)
    ensures |EscalateAll(items, timeoutHours, now)| == |items|
    ensures forall i :: 0 <= i < |items| ==> EscalateAll(items, timeoutHours, now)[i] == Escalate(items[i], timeoutHours, now)
  {
    if items != [] {
      EscalateAllSpec(items[..|items| - 1], timeoutHours, now);
    }
  }

  /** Escalation turns exactly the aged pending items into escalated ones; every other item,
      and in particular every item that was not pending, is left as it was. Nothing becomes
      pending. */
  lemma EscalationMeaning(items: seq<ReviewItem>, timeoutHours: int, now: real)
    ensures var r := EscalateAll(items, timeoutHours, now);
      && |r| == |items|
      && (forall i :: 0 <= i < |items| ==> (r[i] != items[i] <==> items[i].state == Pending && IsAged(items[i], timeoutHours, now)))
      && (forall i :: 0 <= i < |items| && r[i] != items[i] ==> r[i] == items[i].(state := Escalated))
      && (forall i :: 0 <= i < |items| && r[i].state == Pending ==> items[i].state == Pending)
  {
    EscalateAllSpec(items, timeoutHours, now);
  }

  /** The returned list holds exactly the aged pending items, escalated. */
  lemma {:induction false} EscalatedOfMembers(items: seq<ReviewItem>, timeoutHours: int, now: real)
    ensures forall x :: x in EscalatedOf(items, timeoutHours, now) <==>
      exists i :: 0 <= i < |items| && items[i].state == Pending && IsAged(items[i], timeoutHours, now) && x == items[i].(state := Escalated)
  {
    if items != [] {
      var init := items[..|items| - 1];
      EscalatedOfMembers(init, timeoutHours, now);
      forall x | x in EscalatedOf(init, timeoutHours, now)
        ensures exists i :: 0 <= i < |items| && items[i].state == Pending && IsAged(items[i], timeoutHours, now) && x == items[i].(state := Escalated)
      {
        var i :| 0 <= i < |init| && init[i].state == Pending && IsAged(init[i], timeoutHours, now) && x == init[i].(state := Escalated);
        assert items[i] == init[i];
      }
      forall i | 0 <= i < |init| && items[i].state == Pending && IsAged(items[i], timeoutHours, now)
        ensures items[i].(state := Escalated) in EscalatedOf(init, timeoutHours, now)
      {
        assert items[i] == init[i];
      }
    }
  }

  // ---------------------------------------------------------------- review decision

  function Reviewed(item: ReviewItem, approved: bool, notes: string): ReviewItem {
    item.(state := if approved then Approved else Rejected, notes := notes)
  }

  /** The list after `mark_reviewed`: the first item with the id gets the decision. */
  function MarkFirst(items: seq<ReviewItem>, itemId: string, approved: bool, notes: string): seq<ReviewItem> {
    if items == [] then []
    else if items[0].id == itemId then [Reviewed(items[0], approved, notes)] + items[1..]
    else [items[0]] + MarkFirst(items[1..], itemId, approved, notes)
  }

  lemma {:induction false} MarkFirstAt(items: seq<ReviewItem>, itemId: string, approved: bool, notes: string, k: nat)
    requires k < |items| && items[k].id == itemId
    requires forall j :: 0 <= j < k ==> items[j].id != itemId
    ensures MarkFirst(items, itemId, approved, notes) == items[k := Reviewed(items[k], approved, notes)]
  {
    if k > 0 {
      MarkFirstAt(items[1..], itemId, approved, notes, k - 1);
    }
  }

  lemma {:induction false} MarkFirstAbsent(items: seq<ReviewItem>, itemId: string, approved: bool, notes: string)
    requires forall j :: 0 <= j < |items| ==> items[j].id != itemId
    ensures MarkFirst(items, itemId, approved, notes) == items
  {
    if items != [] {
      MarkFirstAbsent(items[1..], itemId, approved, notes);
    }
  }

  /** Only the first item with the id changes, to approved or rejected with the new notes;
      with no such item nothing changes; no item becomes pending. */
  lemma MarkFirstMeaning(items: seq<ReviewItem>, itemId: string, approved: bool, notes: string)
    ensures var r := MarkFirst(items, itemId, approved, notes);
      && |r| == |items|
      && (forall i :: 0 <= i < |items| && r[i].state == Pending ==> items[i].state == Pending)
      && ((forall j :: 0 <= j < |items| ==> items[j].id != itemId) ==> r == items)
      && (forall k :: 0 <= k < |items| && items[k].id == itemId && (forall j :: 0 <= j < k ==> items[j].id != itemId) ==>
            && r[k].state == (if approved then Approved else Rejected) && r[k].notes == notes
            && (forall i :: 0 <= i < |items| && i != k ==> r[i] == items[i]))
  {
    var r := MarkFirst(items, itemId, approved, notes);
    if k :| 0 <= k < |items| && items[k].id == itemId && (forall j :: 0 <= j < k ==> items[j].id != itemId) {
      MarkFirstAt(items, itemId, approved, notes, k);
      forall k' | 0 <= k' < |items| && items[k'].id == itemId && (forall j :: 0 <= j < k' ==> items[j].id != itemId)
        ensures k' == k
      {
      }
    } else {
      assert forall j :: 0 <= j < |items| ==> items[j].id != itemId by {
        forall j | 0 <= j < |items| ensures items[j].id != itemId {
          FirstMatch(items, itemId, j);
        }
      }
      MarkFirstAbsent(items, itemId, approved, notes);
    }
  }

  /** A match at `j` means there is a first match at or before it. */
  lemma {:induction false} FirstMatch(items: seq<ReviewItem>, itemId: string, j: nat)
    requires j < |items|
    requires forall k :: 0 <= k < |items| && items[k].id == itemId ==> exists j' :: 0 <= j' < k && items[j'].id == itemId
    ensures items[j].id != itemId
    decreases j
  {
    if items[j].id == itemId {
      var j' :| 0 <= j' < j && items[j'].id == itemId;
      FirstMatch(items, itemId, j');
    }
  }

  // ---------------------------------------------------------------- the queue

  /** The queue of items awaiting review. */
  class ReviewQueue {
    var items: seq<ReviewItem>
    const cfg: HumanReviewConfig

    constructor (cfg: HumanReviewConfig)
      ensures items == [] && this.cfg == cfg
    {
      items := [];
      this.cfg := cfg;
    }

    /** `add`: one item at the end, the others unchanged. */
    method Add(item: ReviewItem)
      modifies this
      ensures items == old(items) + [item]
    {
      items := items + [item];
    }

    /** `get_pending` */
    function GetPending(): (r: seq<ReviewItem>)
      reads this
      ensures forall x :: x in r <==> x in items && x.state == Pending
    {
      PendingOfMembers(items);
      PendingOf(items)
    }

    /** `get_critical_items`: every pending critical item, with no cap. */
    function GetCriticalItems(): (r: seq<ReviewItem>)
      reads this
      ensures forall x :: x in r <==> x in items && x.severity == Critical && x.state == Pending
    {
      CriticalPendingOfMembers(items);
      CriticalPendingOf(items)
    }

    /** `get_daily_batch` at time `now`: the highest-priority pending items, at most the
        daily limit of them. */
    function GetDailyBatch(now: real): (r: seq<ReviewItem>)
      reads this
      ensures forall x :: x in r ==> x in items && x.state == Pending
      ensures multiset(r) <= multiset(PendingOf(items))
      ensures cfg.maxDailyReviews >= 0 ==>
        |r| == if |PendingOf(items)| < cfg.maxDailyReviews then |PendingOf(items)| else cfg.maxDailyReviews
      ensures forall i, j :: 0 <= i < j < |r| ==> PriorityScore(cfg, r[i], now) >= PriorityScore(cfg, r[j], now)
      ensures forall x, i :: x in multiset(PendingOf(items)) - multiset(r) && 0 <= i < |r| ==>
        PriorityScore(cfg, x, now) <= PriorityScore(cfg, r[i], now)
      ensures forall k :: AtPriority(r, cfg, now, k) <= AtPriority(PendingOf(items), cfg, now, k)
    {
      DailyBatchSpec(items, cfg, now);
      DailyBatch(items, cfg, now)
    }

    /** `escalate_aged_items` at time `now`. */
    method EscalateAgedItems(now: real) returns (escalated: seq<ReviewItem>)
      modifies this
      ensures items == EscalateAll(old(items), cfg.escalationTimeoutHours, now)
      ensures escalated == EscalatedOf(old(items), cfg.escalationTimeoutHours, now)
    {
      ghost var before := items;
      escalated := [];
      var k := 0;
      while k < |items|
        invariant 0 <= k <= |items| == |before|
        invariant items[..k] == EscalateAll(before[..k], cfg.escalationTimeoutHours, now)
        invariant items[k..] == before[k..]
        invariant escalated == EscalatedOf(before[..k], cfg.escalationTimeoutHours, now)
      {
        var item := items[k];
        assert item == before[k];
        assert before[..k + 1][..k] == before[..k];
        if item.state == Pending && now - item.createdAt > cfg.escalationTimeoutHours as real {
          items := items[k := item.(state := Escalated)];
          escalated := escalated + [item.(state := Escalated)];
        }
        assert items[..k + 1] == items[..k] + [items[k]];
        k := k + 1;
      }
      assert before[..k] == before;
      assert items[..k] == items;
    }

    /** `mark_reviewed`: true exactly when some item has the id. */
    method MarkReviewed(itemId: string, approved: bool, notes: string) returns (found: bool)
      modifies this
      ensures found <==> exists i :: 0 <= i < |old(items)| && old(items)[i].id == itemId
      ensures items == MarkFirst(old(items), itemId, approved, notes)
    {
      var k := 0;
      while k < |items|
        invariant 0 <= k <= |items| && items == old(items)
        invariant forall j :: 0 <= j < k ==> items[j].id != itemId
      {
        if items[k].id == itemId {
          MarkFirstAt(items, itemId, approved, notes, k);
          items := items[k := Reviewed(items[k], approved, notes)];
          return true;
        }
        k := k + 1;
      }
      MarkFirstAbsent(items, itemId, approved, notes);
      return false;
    }
  }
}
