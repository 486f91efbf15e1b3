/** Python's insertion-ordered `dict` as an association list, and what the monitor does with
    it: `counts[k] = counts.get(k, 0) + 1`, `Counter`, `defaultdict(list)` grouping,
    `{k: v / total}` shares, `sorted(set(a) | set(b))` over string keys, and the stable
    `sorted(..., reverse=True)` / `most_common` orders. */
module Dicts {

  /** Keys appear in first-insertion order, as in a Python `dict`. */
  type Dict<K, V> = seq<(K, V)>

  function Keys<K, V>(d: Dict<K, V>): seq<K> {
    if d == [] then [] else [d[0].0] + Keys(d[1..])
  }

  /** `d.get(k, default)` */
  function Get<K(==), V>(d: Dict<K, V>, k: K, default: V): V {
    if d == [] then default
    else if d[0].0 == k then d[0].1
    else Get(d[1..], k, default)
  }

  /** `d[k] = v`: an existing key keeps its position, a new key goes last. */
  function Put<K(==), V>(d: Dict<K, V>, k: K, v: V): Dict<K, V> {
    if d == [] then [(k, v)]
    else if d[0].0 == k then [(k, v)] + d[1..]
    else [d[0]] + Put(d[1..], k, v)
  }

  predicate Distinct<T(==)>(s: seq<T>) {
    forall i, j :: 0 <= i < j < |s| ==> s[i] != s[j]
  }

  lemma KeysLength<K, V>(d: Dict<K, V>)
    ensures |Keys(d)| == |d|
    ensures forall i :: 0 <= i < |d| ==> Keys(d)[i] == d[i].0
  {
    if d != [] {
      KeysLength(d[1..]);
    }
  }

  lemma {:induction false} KeysOfConcat<K, V>(a: Dict<K, V>, b: Dict<K, V>)
    ensures Keys(a + b) == Keys(a) + Keys(b)
  {
    if a != [] {
      assert (a + b)[1..] == a[1..] + b;
      KeysOfConcat(a[1..], b);
      calc {
        Keys(a + b);
        [a[0].0] + Keys(a[1..] + b);
        [a[0].0] + (Keys(a[1..]) + Keys(b));
        ([a[0].0] + Keys(a[1..])) + Keys(b);
      }
    } else {
      assert a + b == b;
    }
  }

  lemma {:induction false} PutSpec<K, V>(d: Dict<K, V>, k: K, v: V)
    ensures Keys(Put(d, k, v)) == if k in Keys(d) then Keys(d) else Keys(d) + [k]
    ensures forall j, def :: Get(Put(d, k, v), j, def) == if j == k then v else Get(d, j, def)
  {
    if d != [] && d[0].0 != k {
      PutSpec(d[1..], k, v);
    }
  }

  /** The value stored at a position of a dictionary with distinct keys is what `get` finds. */
  lemma {:induction false} GetAt<K, V>(d: Dict<K, V>, i: nat, def: V)
    requires i < |d| && Distinct(Keys(d))
    ensures Get(d, d[i].0, def) == d[i].1
  {
    KeysLength(d);
    if i > 0 {
      assert Keys(d)[0] != Keys(d)[i];
      KeysLength(d[1..]);
      assert Distinct(Keys(d[1..])) by {
        forall a, b | 0 <= a < b < |d| - 1 ensures Keys(d[1..])[a] != Keys(d[1..])[b] {
          assert Keys(d)[a + 1] != Keys(d)[b + 1];
        }
      }
      GetAt(d[1..], i - 1, def);
    }
  }

  lemma {:induction false} GetAbsent<K, V>(d: Dict<K, V>, k: K, def: V)
    requires k !in Keys(d)
    ensures Get(d, k, def) == def
  {
    if d != [] {
      GetAbsent(d[1..], k, def);
    }
  }

  /** Appending an entry does not change what `get` finds for a key already present. */
  lemma {:induction false} GetPrefix<K, V>(init: Dict<K, V>, last: (K, V), k: K, def: V)
    requires k in Keys(init)
    ensures Get(init + [last], k, def) == Get(init, k, def)
  {
    if init[0].0 != k {
      assert (init + [last])[1..] == init[1..] + [last];
      GetPrefix(init[1..], last, k, def);
    }
  }

  /** The distinct elements of `xs`, in order of first occurrence. */
  function Dedup<T(==)>(xs: seq<T>): seq<T> {
    if xs == [] then []
    else
      var p := Dedup(xs[..|xs| - 1]);
      if xs[|xs| - 1] in p then p else p + [xs[|xs| - 1]]
  }

  lemma {:induction false} DedupSpec<T>(xs: seq<T>)
    ensures forall x :: x in Dedup(xs) <==> x in xs
    ensures Distinct(Dedup(xs))
  {
    if xs != [] {
      var init := xs[..|xs| - 1];
      DedupSpec(init);
      assert xs == init + [xs[|xs| - 1]];
    }
  }

  /** `[key(x) for x in xs]` */
  function MapKeys<K, T>(xs: seq<T>, key: T -> K): seq<K> {
    seq(|xs|, i requires 0 <= i < |xs| => key(xs[i]))
  }

  /** `{key(x): x for x in xs}`: a later element replaces an earlier one with the same key,
      which keeps its first position. */
  function IndexBy<K(==), T>(xs: seq<T>, key: T -> K): Dict<K, T> {
    if xs == [] then [] else Put(IndexBy(xs[..|xs| - 1], key), key(xs[|xs| - 1]), xs[|xs| - 1])
  }

  /** The index has one key per distinct key, in first-occurrence order; a key's value is
      the last element carrying it; an absent key finds the default. */
  lemma {:induction false} IndexBySpec<K, T>(xs: seq<T>, key: T -> K)
    ensures Keys(IndexBy(xs, key)) == Dedup(MapKeys(xs, key))
    ensures forall i, def :: 0 <= i < |xs| && (forall j :: i < j < |xs| ==> key(xs[j]) != key(xs[i])) ==>
      Get(IndexBy(xs, key), key(xs[i]), def) == xs[i]
    ensures forall k, def :: k !in MapKeys(xs, key) ==> Get(IndexBy(xs, key), k, def) == def
  {
    if xs != [] {
      var init, last := xs[..|xs| - 1], xs[|xs| - 1];
      IndexBySpec(init, key);
      PutSpec(IndexBy(init, key), key(last), last);
      assert MapKeys(xs, key) == MapKeys(init, key) + [key(last)];
      DedupSpec(MapKeys(init, key));
      forall i, def | 0 <= i < |xs| && (forall j :: i < j < |xs| ==> key(xs[j]) != key(xs[i]))
        ensures Get(IndexBy(xs, key), key(xs[i]), def) == xs[i]
      {
        if i < |init| {
          assert key(xs[|xs| - 1]) != key(xs[i]);
          assert init[i] == xs[i];
          assert forall j :: i < j < |init| ==> key(init[j]) != key(init[i]) by {
            assert forall j :: i < j < |init| ==> init[j] == xs[j];
          }
          assert Get(IndexBy(init, key), key(init[i]), def) == init[i];
          assert IndexBy(xs, key) == Put(IndexBy(init, key), key(last), last);
          assert Get(Put(IndexBy(init, key), key(last), last), key(xs[i]), def) == Get(IndexBy(init, key), key(xs[i]), def);
        } else {
          assert xs[i] == last;
          assert IndexBy(xs, key) == Put(IndexBy(init, key), key(last), last);
        }
      }
      forall k, def | k !in MapKeys(xs, key) ensures Get(IndexBy(xs, key), k, def) == def {
        assert k != key(last);
      }
    }
  }

  // ---------------------------------------------------------------- counting

  /** `counts[k] = counts.get(k, 0) + 1` */
  function Bump<K(==)>(c: Dict<K, nat>, k: K): Dict<K, nat> {
    Put(c, k, Get(c, k, 0) + 1)
  }

  /** The dictionary that counting `keys` one by one builds; also `Counter(keys)`. */
  function CountAll<K(==)>(keys: seq<K>): Dict<K, nat> {
    if keys == [] then [] else Bump(CountAll(keys[..|keys| - 1]), keys[|keys| - 1])
  }

  lemma CountAllAppend<K>(keys: seq<K>, k: K)
    ensures CountAll(keys + [k]) == Bump(CountAll(keys), k)
  {
    assert (keys + [k])[..|keys|] == keys;
  }

  function SumNat<K>(d: Dict<K, nat>): nat {
    if d == [] then 0 else d[0].1 + SumNat(d[1..])
  }

  lemma {:induction false} BumpSum<K>(c: Dict<K, nat>, k: K)
    ensures SumNat(Bump(c, k)) == SumNat(c) + 1
  {
    if c != [] && c[0].0 != k {
      BumpSum(c[1..], k);
    }
  }

  /** Counting yields one entry per distinct key, in first-occurrence order, whose value is
      the key's number of occurrences; the counts add up to the number of keys. */
  lemma {:induction false} CountAllSpec<K>(keys: seq<K>)
    ensures Keys(CountAll(keys)) == Dedup(keys)
    ensures forall k :: Get(CountAll(keys), k, 0) == multiset(keys)[k]
    ensures SumNat(CountAll(keys)) == |keys|
  {
    if keys != [] {
      var init, last := keys[..|keys| - 1], keys[|keys| - 1];
      CountAllSpec(init);
      assert keys == init + [last];
      PutSpec(CountAll(init), last, Get(CountAll(init), last, 0) + 1);
      BumpSum(CountAll(init), last);
    }
  }

  /** Every entry of a count dictionary holds the number of occurrences of its key. */
  lemma CountAllEntries<K>(keys: seq<K>)
    ensures |CountAll(keys)| == |Dedup(keys)|
    ensures forall i :: 0 <= i < |CountAll(keys)| ==>
      CountAll(keys)[i].0 == Dedup(keys)[i] && CountAll(keys)[i].1 == multiset(keys)[Dedup(keys)[i]]
  {
    CountAllSpec(keys);
    DedupSpec(keys);
    KeysLength(CountAll(keys));
    forall i | 0 <= i < |CountAll(keys)|
      ensures CountAll(keys)[i].1 == multiset(keys)[Dedup(keys)[i]]
    {
      GetAt(CountAll(keys), i, 0);
      assert CountAll(keys)[i].0 == Keys(CountAll(keys))[i];
    }
  }

  // ---------------------------------------------------------------- grouping

  /** `groups[k].append(v)` on a `defaultdict(list)`, for each pair in turn. */
  function GroupAll<K(==), V>(kvs: seq<(K, V)>): Dict<K, seq<V>> {
    if kvs == [] then []
    else
      var g := GroupAll(kvs[..|kvs| - 1]);
      var (k, v) := kvs[|kvs| - 1];
      Put(g, k, Get(g, k, []) + [v])
  }

  /** The values paired with `k`, in order. */
  function ValuesWithKey<K(==), V>(kvs: seq<(K, V)>, k: K): seq<V> {
    if kvs == [] then []
    else ValuesWithKey(kvs[..|kvs| - 1], k) + (if kvs[|kvs| - 1].0 == k then [kvs[|kvs| - 1].1] else [])
  }

  lemma {:induction false} ValuesWithKeyMembers<K, V>(kvs: seq<(K, V)>, k: K)
    ensures forall v :: v in ValuesWithKey(kvs, k) <==> exists i :: 0 <= i < |kvs| && kvs[i] == (k, v)
  {
    if kvs != [] {
      var init := kvs[..|kvs| - 1];
      ValuesWithKeyMembers(init, k);
      forall v | (exists i :: 0 <= i < |kvs| && kvs[i] == (k, v)) ensures v in ValuesWithKey(kvs, k) {
        var i :| 0 <= i < |kvs| && kvs[i] == (k, v);
        if i < |init| {
          assert init[i] == kvs[i];
        }
      }
    }
  }

  lemma {:induction false} DedupLength<T>(xs: seq<T>)
    ensures |Dedup(xs)| <= |xs|
  {
    if xs != [] {
      DedupLength(xs[..|xs| - 1]);
    }
  }

  /** Grouping yields one group per distinct key, in first-occurrence order, holding exactly
      the values paired with that key in their original order. */
  lemma {:induction false} GroupAllSpec<K, V>(kvs: seq<(K, V)>)
    ensures Keys(GroupAll(kvs)) == Dedup(Keys(kvs))
    ensures forall k :: Get(GroupAll(kvs), k, []) == ValuesWithKey(kvs, k)
  {
    GroupAllKeys(kvs);
    GroupAllValues(kvs);
  }

  lemma {:induction false} GroupAllKeys<K, V>(kvs: seq<(K, V)>)
    ensures Keys(GroupAll(kvs)) == Dedup(Keys(kvs))
  {
    if kvs != [] {
      var init, last := kvs[..|kvs| - 1], kvs[|kvs| - 1];
      GroupAllKeys(init);
      assert kvs == init + [last];
      KeysOfConcat(init, [last]);
      assert Keys([last]) == [last.0];
      assert Keys(kvs)[..|Keys(kvs)| - 1] == Keys(init);
      var g := GroupAll(init);
      PutSpec(g, last.0, Get(g, last.0, []) + [last.1]);
    }
  }

  lemma {:induction false} GroupAllValues<K, V>(kvs: seq<(K, V)>)
    ensures forall k :: Get(GroupAll(kvs), k, []) == ValuesWithKey(kvs, k)
  {
    if kvs != [] {
      var init, last := kvs[..|kvs| - 1], kvs[|kvs| - 1];
      GroupAllValues(init);
      var g := GroupAll(init);
      PutSpec(g, last.0, Get(g, last.0, []) + [last.1]);
    }
  }

  lemma GroupAllEntries<K, V>(kvs: seq<(K, V)>)
    ensures Distinct(Keys(GroupAll(kvs)))
    ensures forall k :: k in Keys(GroupAll(kvs)) <==> k in Keys(kvs)
    ensures forall i :: 0 <= i < |GroupAll(kvs)| ==>
      GroupAll(kvs)[i].1 == ValuesWithKey(kvs, GroupAll(kvs)[i].0)
  {
    GroupAllSpec(kvs);
    DedupSpec(Keys(kvs));
    forall i | 0 <= i < |GroupAll(kvs)|
      ensures GroupAll(kvs)[i].1 == ValuesWithKey(kvs, GroupAll(kvs)[i].0)
    {
      var g := GroupAll(kvs);
      var none: seq<V> := [];
      GetAt(g, i, none);
      assert Get(g, g[i].0, none) == ValuesWithKey(kvs, g[i].0);
    }
  }

  // ---------------------------------------------------------------- shares

  function SumReal<K>(d: Dict<K, real>): real {
    if d == [] then 0.0 else d[0].1 + SumReal(d[1..])
  }

  /** `n / total`, the share of one count. */
  function Fraction(n: nat, total: nat): real
    requires total > 0
  {
    n as real / total as real
  }

  /** Shares of the same total add up like their counts. */
  lemma FractionAdd(a: nat, b: nat, total: nat)
    requires total > 0
    ensures Fraction(a, total) + Fraction(b, total) == Fraction(a + b, total)
  {
  }

  lemma FractionWhole(n: nat)
    requires n > 0
    ensures Fraction(n, n) == 1.0
  {
  }

  /** `{k: v / total for k, v in counts.items()}` */
  function Shares<K>(c: Dict<K, nat>, total: nat): Dict<K, real>
    requires total > 0
  {
    if c == [] then [] else [(c[0].0, Fraction(c[0].1, total))] + Shares(c[1..], total)
  }

  /** The shares of a count dictionary: `{}` when nothing was counted. */
  function Normalized<K>(c: Dict<K, nat>): Dict<K, real> {
    if SumNat(c) == 0 then [] else Shares(c, SumNat(c))
  }

  lemma {:induction false} SharesSpec<K>(c: Dict<K, nat>, total: nat)
    requires total > 0
    ensures Keys(Shares(c, total)) == Keys(c)
    ensures forall k :: Get(Shares(c, total), k, 0.0) == Fraction(Get(c, k, 0), total)
    ensures SumReal(Shares(c, total)) == Fraction(SumNat(c), total)
  {
    if c != [] {
      SharesSpec(c[1..], total);
      FractionAdd(c[0].1, SumNat(c[1..]), total);
    } else {
      assert Fraction(0, total) == 0.0;
    }
  }

  /** The distribution of a list of keys: one share per distinct key, in first-occurrence
      order, each the key's count over the list length, summing to 1 (or `{}` for no keys). */
  lemma ShareOfCounts<K>(keys: seq<K>)
    ensures keys == [] <==> Normalized(CountAll(keys)) == []
    ensures Keys(Normalized(CountAll(keys))) == Dedup(keys)
    ensures keys != [] ==>
      forall k :: Get(Normalized(CountAll(keys)), k, 0.0) == Fraction(multiset(keys)[k], |keys|)
    ensures keys != [] ==> SumReal(Normalized(CountAll(keys))) == 1.0
  {
    NormalizedKeys(keys);
    if keys != [] {
      NormalizedShares(keys);
    }
  }

  lemma NormalizedKeys<K>(keys: seq<K>)
    ensures keys == [] <==> Normalized(CountAll(keys)) == []
    ensures Keys(Normalized(CountAll(keys))) == Dedup(keys)
  {
    var c := CountAll(keys);
    CountAllSpec(keys);
    if keys != [] {
      assert Normalized(c) == Shares(c, |keys|);
      SharesSpec(c, |keys|);
      KeysLength(Shares(c, |keys|));
      KeysLength(c);
    }
  }

  lemma NormalizedShares<K>(keys: seq<K>)
    requires keys != []
    ensures forall k :: Get(Normalized(CountAll(keys)), k, 0.0) == Fraction(multiset(keys)[k], |keys|)
    ensures SumReal(Normalized(CountAll(keys))) == 1.0
  {
    var c := CountAll(keys);
    CountAllSpec(keys);
    assert Normalized(c) == Shares(c, |keys|);
    SharesSpec(c, |keys|);
    FractionWhole(|keys|);
  }

  // ---------------------------------------------------------------- sorted keys

  /** Python's `<` on `str`: code-point lexicographic order. */
  predicate LexLess(a: string, b: string) {
    |b| > 0 && (|a| == 0 || a[0] < b[0] || (a[0] == b[0] && LexLess(a[1..], b[1..])))
  }

  lemma {:induction false} LexIrreflexive(a: string)
    ensures !LexLess(a, a)
  {
    if |a| > 0 {
      LexIrreflexive(a[1..]);
    }
  }

  lemma {:induction false} LexTransitive(a: string, b: string, c: string)
    requires LexLess(a, b) && LexLess(b, c)
    ensures LexLess(a, c)
  {
    if |a| > 0 && a[0] == b[0] && b[0] == c[0] {
      LexTransitive(a[1..], b[1..], c[1..]);
    }
  }

  lemma {:induction false} LexTotal(a: string, b: string)
    requires a != b
    ensures LexLess(a, b) || LexLess(b, a)
  {
    if |a| > 0 && |b| > 0 && a[0] == b[0] {
      assert a == [a[0]] + a[1..] && b == [b[0]] + b[1..];
      LexTotal(a[1..], b[1..]);
    }
  }

  predicate StrictlySorted(s: seq<string>) {
    forall i, j :: 0 <= i < j < |s| ==> LexLess(s[i], s[j])
  }

  function InsertSorted(s: seq<string>, x: string): seq<string> {
    if s == [] then [x]
    else if x == s[0] then s
    else if LexLess(x, s[0]) then [x] + s
    else [s[0]] + InsertSorted(s[1..], x)
  }

  lemma {:induction false} InsertSortedSpec(s: seq<string>, x: string)
    requires StrictlySorted(s)
    ensures StrictlySorted(InsertSorted(s, x))
    ensures forall y :: y in InsertSorted(s, x) <==> y in s || y == x
  {
    if s != [] && x != s[0] {
      if LexLess(x, s[0]) {
        forall j | 0 < j < |s| ensures LexLess(x, s[j]) { LexTransitive(x, s[0], s[j]); }
      } else {
        LexTotal(x, s[0]);
        InsertSortedSpec(s[1..], x);
        var r := InsertSorted(s[1..], x);
        forall j | 0 <= j < |r| ensures LexLess(s[0], r[j]) {
          assert r[j] in s[1..] || r[j] == x;
        }
      }
    }
  }

  /** `sorted(set(xs))` */
  function SortedUnique(xs: seq<string>): seq<string> {
    if xs == [] then [] else InsertSorted(SortedUnique(xs[1..]), xs[0])
  }

  lemma {:induction false} SortedUniqueSpec(xs: seq<string>)
    ensures StrictlySorted(SortedUnique(xs))
    ensures forall y :: y in SortedUnique(xs) <==> y in xs
  {
    if xs != [] {
      SortedUniqueSpec(xs[1..]);
      InsertSortedSpec(SortedUnique(xs[1..]), xs[0]);
      assert xs == [xs[0]] + xs[1..];
    }
  }

  lemma SortedIsDistinct(s: seq<string>)
    requires StrictlySorted(s)
    ensures Distinct(s)
  {
    forall i, j | 0 <= i < j < |s| ensures s[i] != s[j] {
      if s[i] == s[j] { LexIrreflexive(s[i]); }
    }
  }

  // ---------------------------------------------------------------- descending sort

  predicate Descending<T>(s: seq<(T, real)>) {
    forall i, j :: 0 <= i < j < |s| ==> s[i].1 >= s[j].1
  }

  /** Places `x` after every element whose key is at least `x`'s, so that equal keys keep
      their original order. */
  function InsertDesc<T>(s: seq<(T, real)>, x: (T, real)): seq<(T, real)> {
    if s == [] then [x]
    else if s[0].1 < x.1 then [x] + s
    else [s[0]] + InsertDesc(s[1..], x)
  }

  /** `sorted(s, key=lambda p: p[1], reverse=True)`: stable, highest key first. */
  function SortDesc<T>(s: seq<(T, real)>): seq<(T, real)> {
    if s == [] then [] else InsertDesc(SortDesc(s[..|s| - 1]), s[|s| - 1])
  }

  lemma InsertDescSpec<T>(s: seq<(T, real)>, x: (T, real))
    requires Descending(s)
    ensures Descending(InsertDesc(s, x))
    ensures multiset(InsertDesc(s, x)) == multiset(s) + multiset{x}
  {
    InsertDescSorted(s, x);
    InsertDescPerm(s, x);
  }

  lemma {:induction false} InsertDescPerm<T>(s: seq<(T, real)>, x: (T, real))
    ensures multiset(InsertDesc(s, x)) == multiset(s) + multiset{x}
  {
    if s != [] && s[0].1 >= x.1 {
      InsertDescPerm(s[1..], x);
      assert s == [s[0]] + s[1..];
    }
  }

  lemma {:induction false} InsertDescSorted<T>(s: seq<(T, real)>, x: (T, real))
    requires Descending(s)
    ensures Descending(InsertDesc(s, x))
  {
    if s != [] && s[0].1 >= x.1 {
      InsertDescSorted(s[1..], x);
      InsertDescPerm(s[1..], x);
      var r := InsertDesc(s[1..], x);
      forall j | 0 <= j < |r| ensures s[0].1 >= r[j].1 {
        assert r[j] in multiset(r);
        assert r[j] in s[1..] || r[j] == x;
      }
    }
  }

  /** The elements of `s` whose key is exactly `k`, in their order in `s`. */
  function WithKey<T>(s: seq<(T, real)>, k: real): seq<(T, real)> {
    if s == [] then [] else (if s[0].1 == k then [s[0]] else []) + WithKey(s[1..], k)
  }

  lemma {:induction false} WithKeyConcat<T>(a: seq<(T, real)>, b: seq<(T, real)>, k: real)
    ensures WithKey(a + b, k) == WithKey(a, k) + WithKey(b, k)
  {
    if a == [] {
      assert a + b == b;
    } else {
      var head := if a[0].1 == k then [a[0]] else [];
      calc {
        WithKey(a + b, k);
        { assert (a + b)[0] == a[0] && (a + b)[1..] == a[1..] + b; }
        head + WithKey(a[1..] + b, k);
        { WithKeyConcat(a[1..], b, k); }
        head + (WithKey(a[1..], k) + WithKey(b, k));
        WithKey(a, k) + WithKey(b, k);
      }
    }
  }

  lemma {:induction false} WithKeyAbove<T>(s: seq<(T, real)>, k: real)
    requires forall i :: 0 <= i < |s| ==> s[i].1 < k
    ensures WithKey(s, k) == []
  {
    if s != [] {
      WithKeyAbove(s[1..], k);
    }
  }

  /** Inserting `x` puts it after every element already there with the same key. */
  lemma {:induction false} InsertDescStable<T>(s: seq<(T, real)>, x: (T, real), k: real)
    requires Descending(s)
    ensures WithKey(InsertDesc(s, x), k) == WithKey(s, k) + (if x.1 == k then [x] else [])
  {
    if s == [] {
    } else if s[0].1 < x.1 {
      assert ([x] + s)[1..] == s;
      if x.1 == k {
        WithKeyAbove(s, k);
      }
    } else {
      InsertDescStable(s[1..], x, k);
      assert ([s[0]] + InsertDesc(s[1..], x))[1..] == InsertDesc(s[1..], x);
    }
  }

  /** Sorting yields a permutation of its input in non-increasing key order, and it is
      stable: the elements sharing any one key come out in the order they went in. */
  lemma SortDescSpec<T>(s: seq<(T, real)>)
    ensures Descending(SortDesc(s))
    ensures multiset(SortDesc(s)) == multiset(s)
    ensures forall k :: WithKey(SortDesc(s), k) == WithKey(s, k)
  {
    SortDescOrdered(s);
    forall k ensures WithKey(SortDesc(s), k) == WithKey(s, k) {
      SortDescStable(s, k);
    }
  }

  lemma {:induction false} SortDescOrdered<T>(s: seq<(T, real)>)
    ensures Descending(SortDesc(s))
    ensures multiset(SortDesc(s)) == multiset(s)
  {
    if s != [] {
      SortDescOrdered(s[..|s| - 1]);
      InsertDescSpec(SortDesc(s[..|s| - 1]), s[|s| - 1]);
      assert s == s[..|s| - 1] + [s[|s| - 1]];
    }
  }

  lemma {:induction false} SortDescStable<T>(s: seq<(T, real)>, k: real)
    ensures WithKey(SortDesc(s), k) == WithKey(s, k)
  {
    if s != [] {
      var init, last := s[..|s| - 1], s[|s| - 1];
      var tail := if last.1 == k then [last] else [];
      calc {
        WithKey(SortDesc(s), k);
        WithKey(InsertDesc(SortDesc(init), last), k);
        { SortDescOrdered(init); InsertDescStable(SortDesc(init), last, k); }
        WithKey(SortDesc(init), k) + tail;
        { SortDescStable(init, k); }
        WithKey(init, k) + tail;
        { WithKeyConcat(init, [last], k); assert WithKey([last], k) == tail; }
        WithKey(init + [last], k);
        { assert init + [last] == s; }
        WithKey(s, k);
      }
    }
  }

  /** `s[:n]` for any integer `n`, negative ones counting from the end. */
  function PyTake<T>(s: seq<T>, n: int): (r: seq<T>)
    ensures |r| <= |s| && r == s[..|r|]
    ensures n >= 0 ==> |r| == if n < |s| then n else |s|
    ensures n < 0 ==> |r| == if |s| + n > 0 then |s| + n else 0
  {
    if n >= |s| then s
    else if n >= 0 then s[..n]
    else if |s| + n > 0 then s[..|s| + n]
    else []
  }

  /** `sorted(s, key=..., reverse=True)[:n]`: in non-increasing key order, drawn from `s`,
      as long as `n` allows, no element left out ranks above one kept, and for each key the
      elements kept are the first ones of `s` with that key. */
  lemma TopSpec<T>(s: seq<(T, real)>, n: int)
    ensures var top := PyTake(SortDesc(s), n);
      && Descending(top)
      && multiset(top) <= multiset(s)
      && (n >= 0 ==> |top| == if n < |s| then n else |s|)
      && (forall x, i :: x in multiset(s) - multiset(top) && 0 <= i < |top| ==> x.1 <= top[i].1)
      && (forall k :: WithKey(top, k) <= WithKey(s, k))
  {
    SortDescSpec(s);
    assert |SortDesc(s)| == |s| by {
      assert |multiset(SortDesc(s))| == |multiset(s)|;
    }
    DescendingPrefix(SortDesc(s), |PyTake(SortDesc(s), n)|);
    forall k ensures WithKey(PyTake(SortDesc(s), n), k) <= WithKey(s, k) {
      WithKeyPrefix(SortDesc(s), |PyTake(SortDesc(s), n)|, k);
    }
  }

  lemma WithKeyPrefix<T>(s: seq<(T, real)>, m: nat, k: real)
    requires m <= |s|
    ensures WithKey(s[..m], k) <= WithKey(s, k)
  {
    assert s == s[..m] + s[m..];
    WithKeyConcat(s[..m], s[m..], k);
  }

  /** In a descending list, whatever lies past the first `m` ranks no higher than any of them. */
  lemma DescendingPrefix<T>(sorted: seq<(T, real)>, m: nat)
    requires Descending(sorted) && m <= |sorted|
    ensures multiset(sorted[..m]) <= multiset(sorted)
    ensures forall x, i :: x in multiset(sorted) - multiset(sorted[..m]) && 0 <= i < m ==> x.1 <= sorted[i].1
  {
    var top, rest := sorted[..m], sorted[m..];
    assert sorted == top + rest;
    assert multiset(sorted) - multiset(top) == multiset(rest);
    forall x, i | x in multiset(sorted) - multiset(top) && 0 <= i < m ensures x.1 <= sorted[i].1 {
      var j :| 0 <= j < |rest| && rest[j] == x;
      assert sorted[m + j] == x;
    }
  }

  lemma {:induction false} InsertDescKeys<T>(s: seq<(T, real)>, x: (T, real))
    ensures multiset(Keys(InsertDesc(s, x))) == multiset(Keys(s)) + multiset{x.0}
  {
    if s != [] && s[0].1 >= x.1 {
      InsertDescKeys(s[1..], x);
    }
  }

  /** Sorting reorders the keys as it reorders the entries. */
  lemma {:induction false} SortDescKeys<T>(s: seq<(T, real)>)
    ensures multiset(Keys(SortDesc(s))) == multiset(Keys(s))
  {
    if s != [] {
      var init, last := s[..|s| - 1], s[|s| - 1];
      calc {
        multiset(Keys(SortDesc(s)));
        multiset(Keys(InsertDesc(SortDesc(init), last)));
        { InsertDescKeys(SortDesc(init), last); }
        multiset(Keys(SortDesc(init))) + multiset{last.0};
        { SortDescKeys(init); }
        multiset(Keys(init)) + multiset{last.0};
        { KeysOfConcat(init, [last]); assert Keys([last]) == [last.0]; }
        multiset(Keys(init + [last]));
        { assert init + [last] == s; }
        multiset(Keys(s));
      }
    }
  }

  /** The keys of the first `n` after sorting are drawn from the keys of `s`, and a key left
      out belongs to an entry left out. */
  lemma TopKeys<T>(s: seq<(T, real)>, n: int)
    ensures var top := PyTake(SortDesc(s), n);
      && multiset(Keys(top)) <= multiset(Keys(s))
      && forall x :: x in multiset(Keys(s)) - multiset(Keys(top)) ==>
           exists q :: q in multiset(s) - multiset(top) && q.0 == x
  {
    SortDescOrdered(s);
    SortDescKeys(s);
    PrefixKeys(SortDesc(s), s, |PyTake(SortDesc(s), n)|);
  }

  lemma PrefixKeys<T>(sorted: seq<(T, real)>, s: seq<(T, real)>, m: nat)
    requires m <= |sorted| && multiset(sorted) == multiset(s)
    requires multiset(Keys(sorted)) == multiset(Keys(s))
    ensures multiset(Keys(sorted[..m])) <= multiset(Keys(s))
    ensures forall x :: x in multiset(Keys(s)) - multiset(Keys(sorted[..m])) ==>
      exists q :: q in multiset(s) - multiset(sorted[..m]) && q.0 == x
  {
    var top, rest := sorted[..m], sorted[m..];
    assert sorted == top + rest;
    KeysOfConcat(top, rest);
    KeysLength(rest);
    assert multiset(s) - multiset(top) == multiset(rest);
    forall x | x in multiset(Keys(s)) - multiset(Keys(top))
      ensures exists q :: q in multiset(s) - multiset(top) && q.0 == x
    {
      assert x in Keys(rest);
      var j :| 0 <= j < |rest| && Keys(rest)[j] == x;
      assert rest[j] in multiset(rest);
    }
  }

  /** An entry whose key did not make the first `n` ranks no higher than any that did. */
  lemma TopExcluded<T>(s: seq<(T, real)>, n: int, e: (T, real))
    requires e in s && e.0 !in Keys(PyTake(SortDesc(s), n))
    ensures forall i :: 0 <= i < |PyTake(SortDesc(s), n)| ==> e.1 <= PyTake(SortDesc(s), n)[i].1
  {
    var top := PyTake(SortDesc(s), n);
    TopSpec(s, n);
    KeysLength(top);
    assert e in multiset(s) - multiset(top);
  }

  lemma KeysPrefix<K, V>(a: Dict<K, V>, b: Dict<K, V>)
    requires a <= b
    ensures Keys(a) <= Keys(b)
  {
    assert b == a + b[|a|..];
    KeysOfConcat(a, b[|a|..]);
  }

  /** A value occurring twice in `s`, or more, is counted at least twice. */
  lemma RepeatCount<T>(s: seq<T>, i: nat, j: nat)
    requires i < j < |s| && s[i] == s[j]
    ensures multiset(s)[s[i]] >= 2
  {
    assert s == s[..j] + [s[j]] + s[j + 1..];
    assert s[i] in s[..j];
  }

  lemma {:induction false} DistinctCount<T>(s: seq<T>, x: T)
    requires Distinct(s)
    ensures multiset(s)[x] <= 1
  {
    if s != [] {
      DistinctCount(s[1..], x);
      assert s == [s[0]] + s[1..];
    }
  }

  /** A reordering of a list without repeats has none. */
  lemma DistinctPerm<T>(a: seq<T>, b: seq<T>)
    requires Distinct(a) && multiset(a) == multiset(b)
    ensures Distinct(b)
  {
    forall i, j | 0 <= i < j < |b| ensures b[i] != b[j] {
      if b[i] == b[j] {
        RepeatCount(b, i, j);
        DistinctCount(a, b[i]);
      }
    }
  }
}
