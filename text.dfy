/** The few Python `str` operations the monitor's checks are built from:
    `lower`, `strip`, `split`, `" ".join`, `in` (substring) and `str(n)`. */
module Text {

  /** Python's `str.isspace`: the characters that `strip()` and `split()` treat as blanks. */
  predicate IsSpace(c: char) {
    || c == ' '
    || ('\t' <= c <= '\r')
    || ('\U{1c}' <= c <= '\U{1f}')
    || c == '\U{85}' || c == '\U{a0}' || c == '\U{1680}'
    || ('\U{2000}' <= c <= '\U{200a}')
    || c == '\U{2028}' || c == '\U{2029}' || c == '\U{202f}' || c == '\U{205f}' || c == '\U{3000}'
  }

  predicate AllSpace(s: string) {
    forall i :: 0 <= i < |s| ==> IsSpace(s[i])
  }

  function LowerChar(c: char): char {
    if 'A' <= c <= 'Z' then (c as int + 32) as char else c
  }

  /** `s.lower()`, restricted to the ASCII letters. */
  function Lower(s: string): string {
    seq(|s|, i requires 0 <= i < |s| => LowerChar(s[i]))
  }

  lemma LowerIdempotent(s: string)
    ensures Lower(Lower(s)) == Lower(s)
  {
  }

  lemma LowerKeepsSpaces(s: string)
    ensures AllSpace(Lower(s)) == AllSpace(s)
  {
    assert forall i :: 0 <= i < |s| ==> (IsSpace(Lower(s)[i]) <==> IsSpace(s[i]));
  }

  /** `s.lstrip()` */
  function TrimStart(s: string): (r: string)
    ensures |r| <= |s|
    ensures r != [] ==> !IsSpace(r[0])
  {
    if |s| > 0 && IsSpace(s[0]) then TrimStart(s[1..]) else s
  }

  /** `lstrip()` removes a blank prefix and keeps the rest. */
  lemma {:induction false} TrimStartSpec(s: string)
    ensures TrimStart(s) == s[|s| - |TrimStart(s)|..]
    ensures AllSpace(s[..|s| - |TrimStart(s)|])
  {
    if |s| > 0 && IsSpace(s[0]) {
      var r := TrimStart(s[1..]);
      TrimStartSpec(s[1..]);
      assert s[1..][..|s[1..]| - |r|] == s[1..|s| - |r|];
      assert s[1..][|s[1..]| - |r|..] == s[|s| - |r|..];
    } else {
      assert s[..0] == [];
    }
  }

  /** `s.rstrip()` */
  function TrimEnd(s: string): (r: string)
    ensures |r| <= |s|
    ensures r != [] ==> !IsSpace(r[|r| - 1])
  {
    if |s| > 0 && IsSpace(s[|s| - 1]) then TrimEnd(s[..|s| - 1]) else s
  }

  /** `rstrip()` removes a blank suffix and keeps the rest. */
  lemma {:induction false} TrimEndSpec(s: string)
    ensures TrimEnd(s) == s[..|TrimEnd(s)|]
    ensures AllSpace(s[|TrimEnd(s)|..])
  {
    if |s| > 0 && IsSpace(s[|s| - 1]) {
      var r := TrimEnd(s[..|s| - 1]);
      TrimEndSpec(s[..|s| - 1]);
      assert s[..|s| - 1][|r|..] == s[|r|..|s| - 1];
      assert s[..|s| - 1][..|r|] == s[..|r|];
    } else {
      assert s[|s|..] == [];
    }
  }

  /** `s.strip()` */
  function Strip(s: string): string {
    TrimEnd(TrimStart(s))
  }

  lemma StripBlank(s: string)
    ensures Strip(s) == [] <==> AllSpace(s)
  {
    var t := TrimStart(s);
    TrimStartSpec(s);
    TrimEndSpec(t);
    if t != [] {
      assert TrimEnd(t) != [];
      assert s[|s| - |t|] == t[0];
    } else {
      assert s[..|s|] == s;
    }
  }

  /** `span.lower().strip()`, the form in which both invariant checkers compare evidence spans. */
  function Normalize(span: string): string {
    Strip(Lower(span))
  }

  /** Length of the run of non-blank characters that starts `s`. */
  function WordLen(s: string): (n: nat)
    ensures n <= |s|
    ensures forall i :: 0 <= i < n ==> !IsSpace(s[i])
    ensures n < |s| ==> IsSpace(s[n])
  {
    if |s| == 0 || IsSpace(s[0]) then 0 else 1 + WordLen(s[1..])
  }

  /** `s.split()` with no separator: the maximal runs of non-blank characters. */
  function Split(s: string): seq<string>
    decreases |s|
  {
    var t := TrimStart(s);
    if t == [] then []
    else
      var n := WordLen(t);
      [t[..n]] + Split(t[n..])
  }

  lemma SplitSkipsBlank(s: string)
    requires |s| > 0 && IsSpace(s[0])
    ensures Split(s) == Split(s[1..])
  {
  }

  lemma SplitOfBlank(s: string)
    requires AllSpace(s)
    ensures Split(s) == []
  {
    if |s| > 0 {
      SplitSkipsBlank(s);
      SplitOfBlank(s[1..]);
    }
  }

  lemma {:induction false} TrimStartOfBlank(s: string)
    requires AllSpace(s)
    ensures TrimStart(s) == []
  {
    if |s| > 0 {
      TrimStartOfBlank(s[1..]);
    }
  }

  lemma {:induction false} TrimStartAppend(s: string, b: string)
    requires TrimStart(s) != []
    ensures TrimStart(s + b) == TrimStart(s) + b
  {
    if IsSpace(s[0]) {
      assert (s + b)[1..] == s[1..] + b;
      TrimStartAppend(s[1..], b);
    }
  }

  lemma {:induction false} WordLenAppend(t: string, b: string)
    requires AllSpace(b)
    ensures WordLen(t + b) == WordLen(t)
  {
    if |t| == 0 {
      assert t + b == b;
    } else if !IsSpace(t[0]) {
      assert (t + b)[1..] == t[1..] + b;
      WordLenAppend(t[1..], b);
    }
  }

  /** Trailing blanks do not change `split()`. */
  lemma {:induction false} SplitAppendBlank(s: string, b: string)
    requires AllSpace(b)
    ensures Split(s + b) == Split(s)
    decreases |s|
  {
    var t := TrimStart(s);
    if t == [] {
      TrimStartSpec(s);
      assert s[..|s|] == s;
      assert AllSpace(s + b);
      TrimStartOfBlank(s + b);
    } else {
      TrimStartAppend(s, b);
      var n := WordLen(t);
      WordLenAppend(t, b);
      assert (t + b)[..n] == t[..n];
      assert (t + b)[n..] == t[n..] + b;
      SplitAppendBlank(t[n..], b);
    }
  }

  /** `s.strip().split() == s.split()` */
  lemma SplitIgnoresStrip(s: string)
    ensures Split(Strip(s)) == Split(s)
  {
    var y := TrimStart(s);
    assert TrimStart(y) == y;
    assert Split(y) == Split(s);
    var r := TrimEnd(y);
    TrimEndSpec(y);
    assert y == r + y[|r|..];
    SplitAppendBlank(r, y[|r|..]);
  }

  /** `sep.join(ws)` */
  function Join(ws: seq<string>, sep: string): string {
    if |ws| == 0 then ""
    else if |ws| == 1 then ws[0]
    else ws[0] + sep + Join(ws[1..], sep)
  }

  lemma JoinCons(w: string, ws: seq<string>, sep: string)
    requires ws != []
    ensures Join([w] + ws, sep) == w + sep + Join(ws, sep)
  {
    assert ([w] + ws)[1..] == ws;
  }

  lemma PrefixOfCons<T>(x: T, xs: seq<T>, k: nat)
    requires 1 <= k <= |xs| + 1
    ensures ([x] + xs)[..k] == [x] + xs[..k - 1]
  {
  }

  /** One step of `split()`: the first word, and the text after it. */
  lemma SplitStep(s: string) returns (w: string, rest: string)
    requires TrimStart(s) != []
    ensures Split(s) == [w] + Split(rest)
    ensures |w| + |rest| <= |s|
    ensures Split(rest) != [] ==> |rest| > 0 && IsSpace(rest[0])
  {
    var t := TrimStart(s);
    var n := WordLen(t);
    w, rest := t[..n], t[n..];
    if Split(rest) != [] {
      assert rest != [];
    }
  }

  /** Any `k`-word prefix of `s.split()`, re-joined with single spaces, is no longer than `s`. */
  lemma {:induction false} SplitPrefixLength(s: string, k: nat)
    requires k <= |Split(s)|
    ensures |Join(Split(s)[..k], " ")| <= |s|
    decreases |s|
  {
    if k > 0 {
      assert TrimStart(s) != [];
      var w, rest := SplitStep(s);
      var later := Split(rest);
      if k >= 2 {
        SplitSkipsBlank(rest);
        SplitPrefixLength(rest[1..], k - 1);
        PrefixOfCons(w, later, k);
        JoinCons(w, later[..k - 1], " ");
      } else {
        assert Split(s)[..k] == [w];
      }
    }
  }

  /** `pat in text` */
  predicate Contains(text: string, pat: string) {
    pat <= text || (|text| > 0 && Contains(text[1..], pat))
  }

  lemma ContainsEmpty(text: string)
    ensures Contains(text, "")
  {
  }

  lemma {:induction false} ContainsInEmpty(pat: string)
    ensures Contains("", pat) <==> pat == ""
  {
  }

  lemma {:induction false} ContainsNoLonger(text: string, pat: string)
    requires Contains(text, pat)
    ensures |pat| <= |text|
    decreases |text|
  {
    if !(pat <= text) {
      ContainsNoLonger(text[1..], pat);
    }
  }

  /** A pattern found at some offset is contained. */
  lemma {:induction false} ContainsAt(text: string, pat: string, k: nat)
    requires k + |pat| <= |text| && text[k..k + |pat|] == pat
    ensures Contains(text, pat)
  {
    if k == 0 {
      assert pat <= text;
    } else {
      assert text[1..][k - 1..k - 1 + |pat|] == pat;
      ContainsAt(text[1..], pat, k - 1);
    }
  }

  /** Decimal digits of `n`, as `str(n)` writes them. */
  function NatToString(n: nat): string
    decreases n
  {
    var d := ['0', '1', '2', '3', '4', '5', '6', '7', '8', '9'][n % 10];
    if n < 10 then [d] else NatToString(n / 10) + [d]
  }
}
