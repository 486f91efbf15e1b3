/** The contradiction invariant: within one journal, items that share a normalised evidence
    span must agree on polarity. */
module ContradictionChecker {
  import opened Text
  import opened Dicts
  import opened Models

  /** `{"index": idx, "item": item}`, a group member. */
  datatype Member = Member(index: nat, item: ParserItem)

  /** One entry of `conflicting_items`. */
  datatype ConflictingItem = ConflictingItem(index: nat, polarity: string, confidence: real, domain: string)

  datatype Contradiction = Contradiction(
    journalId: string, evidenceSpan: string, conflictingItems: seq<ConflictingItem>)

  /** Each item of an output paired with its span key and position. */
  function Keyed(items: seq<ParserItem>): seq<(string, Member)> {
    seq(|items|, i requires 0 <= i < |items| => (Normalize(items[i].evidenceSpan), Member(i, items[i])))
  }

  /** `span_map` of one output: its items grouped by normalised span, in first-occurrence order. */
  function SpanMap(o: ParserOutput): Dict<string, seq<Member>> {
    GroupAll(Keyed(o.items))
  }

  function Polarities(group: seq<Member>): set<Polarity> {
    set m | m in group :: m.item.polarity
  }

  /** A group the checker reports: at least two members, and more than one polarity. */
  predicate Conflicting(group: seq<Member>) {
    |group| >= 2 && |Polarities(group)| > 1
  }

  function EntryOf(m: Member): ConflictingItem {
    ConflictingItem(m.index, m.item.polarity.Value(), m.item.confidence, m.item.domain.Value())
  }

  function EntriesOf(group: seq<Member>): seq<ConflictingItem> {
    seq(|group|, t requires 0 <= t < |group| => EntryOf(group[t]))
  }

  /** The contradictions of one journal's groups, in group order. */
  function GroupContradictions(journalId: string, groups: Dict<string, seq<Member>>): seq<Contradiction> {
    if groups == [] then []
    else
      var (span, group) := groups[|groups| - 1];
      GroupContradictions(journalId, groups[..|groups| - 1])
      + (if Conflicting(group) then [Contradiction(journalId, span, EntriesOf(group))] else [])
  }

  /** All contradictions, journal by journal. */
  function ContradictionsOf(outputs: seq<ParserOutput>): seq<Contradiction> {
    if outputs == [] then []
    else
      var last := outputs[|outputs| - 1];
      ContradictionsOf(outputs[..|outputs| - 1]) + GroupContradictions(last.journalId, SpanMap(last))
  }

  /** `find_contradictions`: the rate and the list. */
  method FindContradictions(outputs: seq<ParserOutput>) returns (rate: real, contradictions: seq<Contradiction>)
    ensures contradictions == ContradictionsOf(outputs)
    ensures rate == Ratio(|contradictions|, TotalItems(outputs), 0.0)
    ensures 0.0 <= rate <= 1.0
  {
    var totalItems := 0;
    contradictions := [];
    var j := 0;
    while j < |outputs|
      invariant 0 <= j <= |outputs|
      invariant totalItems == TotalItems(outputs[..j])
      invariant contradictions == ContradictionsOf(outputs[..j])
    {
      var output := outputs[j];
      var spanMap := BuildSpanMap(output);
      totalItems := totalItems + |output.items|;
      var found := ReportConflicts(output.journalId, spanMap);
      ContradictionsStep(outputs, j);
      contradictions := contradictions + found;
      j := j + 1;
    }
    assert outputs[..j] == outputs;
    ContradictionsBound(outputs);
    rate := Ratio(|contradictions|, totalItems, 0.0);
  }

  /** One more journal adds its items to the total and its conflicts to the list. */
  lemma ContradictionsStep(outputs: seq<ParserOutput>, j: nat)
    requires j < |outputs|
    ensures TotalItems(outputs[..j + 1]) == TotalItems(outputs[..j]) + |outputs[j].items|
    ensures ContradictionsOf(outputs[..j + 1]) == ContradictionsOf(outputs[..j])
      + GroupContradictions(outputs[j].journalId, SpanMap(outputs[j]))
  {
    assert outputs[..j + 1][..j] == outputs[..j];
  }

  /** The first loop of one journal: `span_map[span_key].append(...)` for each item. */
  method BuildSpanMap(output: ParserOutput) returns (spanMap: Dict<string, seq<Member>>)
    ensures spanMap == SpanMap(output)
  {
    var keyed := Keyed(output.items);
    spanMap := [];
    var idx := 0;
    while idx < |output.items|
      invariant 0 <= idx <= |output.items|
      invariant spanMap == GroupAll(keyed[..idx])
    {
      var item := output.items[idx];
      var spanKey := Strip(Lower(item.evidenceSpan));
      spanMap := Put(spanMap, spanKey, Get(spanMap, spanKey, []) + [Member(idx, item)]);
      assert keyed[..idx + 1][..idx] == keyed[..idx];
      idx := idx + 1;
    }
    assert keyed[..idx] == keyed;
  }

  /** The second loop of one journal: one contradiction per conflicting group. */
  method ReportConflicts(journalId: string, spanMap: Dict<string, seq<Member>>) returns (found: seq<Contradiction>)
    ensures found == GroupContradictions(journalId, spanMap)
  {
    found := [];
    var g := 0;
    while g < |spanMap|
      invariant 0 <= g <= |spanMap|
      invariant found == GroupContradictions(journalId, spanMap[..g])
    {
      var (span, group) := spanMap[g];
      assert spanMap[..g + 1][..g] == spanMap[..g];
      if |group| < 2 {
        g := g + 1;
        continue;
      }
      var polarities := set m | m in group :: m.item.polarity;
      if |polarities| > 1 {
        var entries := [];
        var t := 0;
        while t < |group|
          invariant 0 <= t <= |group|
          invariant entries == EntriesOf(group[..t])
        {
          entries := entries + [EntryOf(group[t])];
          t := t + 1;
        }
        assert group[..t] == group;
        found := found + [Contradiction(journalId, span, entries)];
      }
      g := g + 1;
    }
    assert spanMap[..g] == spanMap;
  }

  // ---------------------------------------------------------------- properties

  /** A group of fewer than two items can never disagree on polarity. */
  lemma SmallGroupAgrees(group: seq<Member>)
    requires |group| < 2
    ensures |Polarities(group)| <= 1
  {
    if |group| == 1 {
      assert Polarities(group) == {group[0].item.polarity};
    } else {
      assert Polarities(group) == {};
    }
  }

  /** A group disagrees exactly when two of its members carry different polarities. */
  lemma ConflictingIffClash(group: seq<Member>)
    ensures Conflicting(group) <==>
      exists a, b :: 0 <= a < |group| && 0 <= b < |group| && group[a].item.polarity != group[b].item.polarity
  {
    if Conflicting(group) {
      var p := group[0].item.polarity;
      if forall a :: 0 <= a < |group| ==> group[a].item.polarity == p {
        AllSameSingleton(group, p);
        assert false;
      }
    } else if exists a, b :: 0 <= a < |group| && 0 <= b < |group| && group[a].item.polarity != group[b].item.polarity {
      var a, b :| 0 <= a < |group| && 0 <= b < |group| && group[a].item.polarity != group[b].item.polarity;
      assert group[a] in group && group[b] in group;
      assert Polarities(group) == {Present, Absent};
      assert a != b;
    }
  }

  lemma AllSameSingleton(group: seq<Member>, p: Polarity)
    requires |group| > 0 && forall a :: 0 <= a < |group| ==> group[a].item.polarity == p
    ensures Polarities(group) == {p}
  {
    assert group[0] in group;
  }

  /** The members of a span's group are exactly the items with that normalised span, each with
      its own index. */
  lemma GroupMembers(o: ParserOutput, key: string)
    ensures forall m :: m in Get(SpanMap(o), key, []) <==>
      exists i :: 0 <= i < |o.items| && Normalize(o.items[i].evidenceSpan) == key && m == Member(i, o.items[i])
  {
    var keyed := Keyed(o.items);
    GroupAllSpec(keyed);
    assert Get(SpanMap(o), key, []) == ValuesWithKey(keyed, key);
    ValuesWithKeyMembers(keyed, key);
    forall m ensures m in ValuesWithKey(keyed, key) <==>
      exists i :: 0 <= i < |o.items| && Normalize(o.items[i].evidenceSpan) == key && m == Member(i, o.items[i])
    {
      if exists i :: 0 <= i < |o.items| && Normalize(o.items[i].evidenceSpan) == key && m == Member(i, o.items[i]) {
        var i :| 0 <= i < |o.items| && Normalize(o.items[i].evidenceSpan) == key && m == Member(i, o.items[i]);
        assert keyed[i] == (key, m);
      }
    }
  }

  lemma {:induction false} GroupContradictionsBound(journalId: string, groups: Dict<string, seq<Member>>)
    ensures |GroupContradictions(journalId, groups)| <= |groups|
  {
    if groups != [] {
      GroupContradictionsBound(journalId, groups[..|groups| - 1]);
    }
  }

  /** There are never more contradictions than items. */
  lemma {:induction false} ContradictionsBound(outputs: seq<ParserOutput>)
    ensures |ContradictionsOf(outputs)| <= TotalItems(outputs)
  {
    if outputs != [] {
      var last := outputs[|outputs| - 1];
      ContradictionsBound(outputs[..|outputs| - 1]);
      GroupContradictionsBound(last.journalId, SpanMap(last));
      GroupAllSpec(Keyed(last.items));
      KeysLength(SpanMap(last));
      KeysLength(Keyed(last.items));
      DedupLength(Keys(Keyed(last.items)));
    }
  }

  function CountSpan(cs: seq<Contradiction>, span: string): nat {
    if cs == [] then 0
    else CountSpan(cs[..|cs| - 1], span) + (if cs[|cs| - 1].evidenceSpan == span then 1 else 0)
  }

  lemma CountSpanAppend(a: seq<Contradiction>, b: seq<Contradiction>, span: string)
    ensures CountSpan(a + b, span) == CountSpan(a, span) + CountSpan(b, span)
    decreases |b|
  {
    if b != [] {
      assert (a + b)[..|a + b| - 1] == a + b[..|b| - 1];
      CountSpanAppend(a, b[..|b| - 1], span);
    } else {
      assert a + b == a;
    }
  }

  /** Within one journal, a span gets one contradiction entry if its group disagrees on
      polarity and none otherwise; each entry lists the whole group. */
  lemma {:induction false} OneEntryPerConflictingSpan(journalId: string, groups: Dict<string, seq<Member>>, span: string)
    requires Distinct(Keys(groups))
    ensures CountSpan(GroupContradictions(journalId, groups), span)
      == if span in Keys(groups) && Conflicting(Get(groups, span, [])) then 1 else 0
    ensures forall c :: c in GroupContradictions(journalId, groups) ==>
      c.journalId == journalId && c.conflictingItems == EntriesOf(Get(groups, c.evidenceSpan, []))
      && Conflicting(Get(groups, c.evidenceSpan, []))
  {
    if groups != [] {
      var init, last := groups[..|groups| - 1], groups[|groups| - 1];
      assert groups == init + [last];
      KeysOfConcat(init, [last]);
      assert Keys([last]) == [last.0];
      KeysLength(groups);
      assert Distinct(Keys(init)) by {
        KeysLength(init);
        forall a, b | 0 <= a < b < |init| ensures Keys(init)[a] != Keys(init)[b] {
          assert Keys(groups)[a] != Keys(groups)[b];
        }
      }
      assert last.0 !in Keys(init) by {
        KeysLength(init);
        forall a | 0 <= a < |init| ensures Keys(init)[a] != last.0 {
          assert Keys(groups)[a] != Keys(groups)[|groups| - 1];
        }
      }
      OneEntryPerConflictingSpan(journalId, init, span);
      var tail := if Conflicting(last.1) then [Contradiction(journalId, last.0, EntriesOf(last.1))] else [];
      CountSpanAppend(GroupContradictions(journalId, init), tail, span);
      assert CountSpan(tail, span) == if span == last.0 && Conflicting(last.1) then 1 else 0 by {
        if tail != [] { assert tail[..0] == []; }
      }
      GetAt(groups, |groups| - 1, []);
      forall c | c in GroupContradictions(journalId, init)
        ensures Get(groups, c.evidenceSpan, []) == Get(init, c.evidenceSpan, [])
      {
        if c.evidenceSpan !in Keys(init) {
          GetAbsent(init, c.evidenceSpan, []);
        }
        GetPrefix(init, last, c.evidenceSpan, []);
      }
      if span in Keys(init) {
        GetPrefix(init, last, span, []);
      } else {
        GetAbsent(init, span, []);
      }
    }
  }

  lemma {:induction false} CountSpanWitness(cs: seq<Contradiction>, span: string) returns (c: Contradiction)
    requires CountSpan(cs, span) > 0
    ensures c in cs && c.evidenceSpan == span
  {
    if cs[|cs| - 1].evidenceSpan == span {
      c := cs[|cs| - 1];
    } else {
      c := CountSpanWitness(cs[..|cs| - 1], span);
    }
  }

  /** Two items of one journal whose normalised spans agree but whose polarities differ are
      both listed in the contradiction reported for that span. */
  lemma ClashIsReported(o: ParserOutput, i1: nat, i2: nat)
    requires i1 < |o.items| && i2 < |o.items|
    requires Normalize(o.items[i1].evidenceSpan) == Normalize(o.items[i2].evidenceSpan)
    requires o.items[i1].polarity != o.items[i2].polarity
    ensures exists c ::
      && c in GroupContradictions(o.journalId, SpanMap(o))
      && c.evidenceSpan == Normalize(o.items[i1].evidenceSpan)
      && EntryOf(Member(i1, o.items[i1])) in c.conflictingItems
      && EntryOf(Member(i2, o.items[i2])) in c.conflictingItems
  {
    var key := Normalize(o.items[i1].evidenceSpan);
    var groups := SpanMap(o);
    var group := Get(groups, key, []);
    ClashGroup(o, i1, i2);
    var m1, m2 := Member(i1, o.items[i1]), Member(i2, o.items[i2]);
    var a :| 0 <= a < |group| && group[a] == m1;
    var b :| 0 <= b < |group| && group[b] == m2;
    GroupAllEntries(Keyed(o.items));
    OneEntryPerConflictingSpan(o.journalId, groups, key);
    var c := CountSpanWitness(GroupContradictions(o.journalId, groups), key);
    assert EntriesOf(group)[a] == EntryOf(m1) && EntriesOf(group)[b] == EntryOf(m2);
  }

  /** Two such items share a group, and that group is a key of the span map and disagrees. */
  lemma ClashGroup(o: ParserOutput, i1: nat, i2: nat)
    requires i1 < |o.items| && i2 < |o.items|
    requires Normalize(o.items[i1].evidenceSpan) == Normalize(o.items[i2].evidenceSpan)
    requires o.items[i1].polarity != o.items[i2].polarity
    ensures var key := Normalize(o.items[i1].evidenceSpan);
      var group := Get(SpanMap(o), key, []);
      && Member(i1, o.items[i1]) in group && Member(i2, o.items[i2]) in group
      && key in Keys(SpanMap(o)) && Conflicting(group)
  {
    var key := Normalize(o.items[i1].evidenceSpan);
    var groups := SpanMap(o);
    var group := Get(groups, key, []);
    GroupMembers(o, key);
    var m1, m2 := Member(i1, o.items[i1]), Member(i2, o.items[i2]);
    assert m1 in group && m2 in group;
    var a :| 0 <= a < |group| && group[a] == m1;
    var b :| 0 <= b < |group| && group[b] == m2;
    ConflictingIffClash(group);
    if key !in Keys(groups) {
      GetAbsent(groups, key, []);
    }
  }

  /** Each reported contradiction of a journal names that journal, and its conflicting items
      are exactly the journal's items with that normalised span, among which two polarities
      occur. */
  lemma ReportedIsClash(o: ParserOutput, c: Contradiction)
    requires c in GroupContradictions(o.journalId, SpanMap(o))
    ensures c.journalId == o.journalId
    ensures forall i :: 0 <= i < |o.items| ==>
      (EntryOf(Member(i, o.items[i])) in c.conflictingItems <==> Normalize(o.items[i].evidenceSpan) == c.evidenceSpan)
    ensures forall e :: e in c.conflictingItems ==>
      e.index < |o.items| && e == EntryOf(Member(e.index, o.items[e.index]))
    ensures exists i1, i2 ::
      && 0 <= i1 < |o.items| && 0 <= i2 < |o.items|
      && Normalize(o.items[i1].evidenceSpan) == c.evidenceSpan && Normalize(o.items[i2].evidenceSpan) == c.evidenceSpan
      && o.items[i1].polarity != o.items[i2].polarity
  {
    var groups := SpanMap(o);
    GroupAllEntries(Keyed(o.items));
    OneEntryPerConflictingSpan(o.journalId, groups, c.evidenceSpan);
    var group := Get(groups, c.evidenceSpan, []);
    GroupMembers(o, c.evidenceSpan);
    assert c.conflictingItems == EntriesOf(group);
    forall e | e in c.conflictingItems
      ensures e.index < |o.items| && e == EntryOf(Member(e.index, o.items[e.index]))
      ensures Normalize(o.items[e.index].evidenceSpan) == c.evidenceSpan
    {
      var t :| 0 <= t < |group| && EntriesOf(group)[t] == e;
      assert group[t] in group;
    }
    forall i | 0 <= i < |o.items| && Normalize(o.items[i].evidenceSpan) == c.evidenceSpan
      ensures EntryOf(Member(i, o.items[i])) in c.conflictingItems
    {
      var m := Member(i, o.items[i]);
      assert m in group;
      var t :| 0 <= t < |group| && group[t] == m;
      assert EntriesOf(group)[t] == EntryOf(m);
    }
    ConflictingIffClash(group);
    var a, b :| 0 <= a < |group| && 0 <= b < |group| && group[a].item.polarity != group[b].item.polarity;
    assert group[a] in group && group[b] in group;
  }

  /** A contradiction never spans two journals: each one is built from the groups of a single
      output. */
  lemma {:induction false} ContradictionsPerJournal(outputs: seq<ParserOutput>, c: Contradiction)
    requires c in ContradictionsOf(outputs)
    ensures exists j :: 0 <= j < |outputs| && c in GroupContradictions(outputs[j].journalId, SpanMap(outputs[j]))
  {
    var init, last := outputs[..|outputs| - 1], outputs[|outputs| - 1];
    if c in ContradictionsOf(init) {
      ContradictionsPerJournal(init, c);
      var j :| 0 <= j < |init| && c in GroupContradictions(init[j].journalId, SpanMap(init[j]));
      assert outputs[j] == init[j];
    } else {
      assert c in GroupContradictions(last.journalId, SpanMap(last));
    }
  }
}
