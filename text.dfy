/** Python's string operations as the pipeline uses them: `str.strip()`,
    `str.startswith`, `str.endswith` and `sep.join(items)`. */
module Text {

  /** The characters for which Python's `str.isspace()` holds, which is the set
      `str.strip()` with no argument removes from both ends. */
  predicate IsSpace(c: char)
  {
    c == ' ' || ('\t' <= c <= '\r') || ('\U{1C}' <= c <= '\U{1F}')
    || c == '\U{85}' || c == '\U{A0}' || c == '\U{1680}'
    || ('\U{2000}' <= c <= '\U{200A}') || c == '\U{2028}' || c == '\U{2029}'
    || c == '\U{202F}' || c == '\U{205F}' || c == '\U{3000}'
  }

  predicate AllSpace(s: string)
  {
    forall i :: 0 <= i < |s| ==> IsSpace(s[i])
  }

  /** Neither end of `s` is whitespace: what a `strip()` result looks like. */
  predicate Trimmed(s: string)
  {
    s == [] || (!IsSpace(s[0]) && !IsSpace(s[|s| - 1]))
  }

  /** `s.startswith(prefix)`. */
  predicate StartsWith(s: string, prefix: string)
  {
    |prefix| <= |s| && s[..|prefix|] == prefix
  }

  /** `s.endswith(suffix)`. */
  predicate EndsWith(s: string, suffix: string)
  {
    |suffix| <= |s| && s[|s| - |suffix|..] == suffix
  }

  /** Where the run of whitespace that starts at index `i` of `s` ends: `lstrip()`
      scanning forwards. */
  function SpaceRunEnd(s: string, i: nat): (j: nat)
    requires i <= |s|
    ensures i <= j <= |s|
    decreases |s| - i
  {
    if i < |s| && IsSpace(s[i]) then SpaceRunEnd(s, i + 1) else i
  }

  /** Where the run of whitespace that ends at index `j` of `s` starts, going no lower
      than `lo`: `rstrip()` scanning backwards over what `lstrip()` left. */
  function SpaceRunStart(s: string, lo: nat, j: nat): (i: nat)
    requires lo <= j <= |s|
    ensures lo <= i <= j
    decreases j
  {
    if lo < j && IsSpace(s[j - 1]) then SpaceRunStart(s, lo, j - 1) else j
  }

  /** The forward scan passes over whitespace only and stops at text or at the end. */
  lemma {:induction false} SpaceRunEndCuts(s: string, i: nat)
    requires i <= |s|
    ensures forall k :: i <= k < SpaceRunEnd(s, i) ==> IsSpace(s[k])
    ensures SpaceRunEnd(s, i) == |s| || !IsSpace(s[SpaceRunEnd(s, i)])
    decreases |s| - i
  {
    if i < |s| && IsSpace(s[i]) {
      SpaceRunEndCuts(s, i + 1);
    }
  }

  /** The backward scan passes over whitespace only and stops at text or at `lo`. */
  lemma {:induction false} SpaceRunStartCuts(s: string, lo: nat, j: nat)
    requires lo <= j <= |s|
    ensures forall k :: SpaceRunStart(s, lo, j) <= k < j ==> IsSpace(s[k])
    ensures SpaceRunStart(s, lo, j) == lo || !IsSpace(s[SpaceRunStart(s, lo, j) - 1])
    decreases j
  {
    if lo < j && IsSpace(s[j - 1]) {
      SpaceRunStartCuts(s, lo, j - 1);
    }
  }

  /** A run of whitespace from `i` to `j` that is followed by text or the end is
      exactly where the forward scan stops. */
  lemma {:induction false} SpaceRunEndAt(s: string, i: nat, j: nat)
    requires i <= j <= |s|
    requires forall k :: i <= k < j ==> IsSpace(s[k])
    requires j == |s| || !IsSpace(s[j])
    ensures SpaceRunEnd(s, i) == j
    decreases j - i
  {
    if i < j {
      SpaceRunEndAt(s, i + 1, j);
    }
  }

  /** A run of whitespace from `i` to `j` that is preceded by text or by `lo` is
      exactly where the backward scan stops. */
  lemma {:induction false} SpaceRunStartAt(s: string, lo: nat, i: nat, j: nat)
    requires lo <= i <= j <= |s|
    requires forall k :: i <= k < j ==> IsSpace(s[k])
    requires i == lo || !IsSpace(s[i - 1])
    ensures SpaceRunStart(s, lo, j) == i
    decreases j - i
  {
    if i < j {
      SpaceRunStartAt(s, lo, i, j - 1);
    }
  }

  /** `s.strip()`: the text between the leading and the trailing whitespace. */
  function Strip(s: string): (r: string)
    ensures Trimmed(r)
    ensures |r| <= |s|
  {
    var lo := SpaceRunEnd(s, 0);
    var hi := SpaceRunStart(s, lo, |s|);
    SpaceRunEndCuts(s, 0);
    SpaceRunStartCuts(s, lo, |s|);
    s[lo..hi]
  }

  /** `sep.join(items)`. */
  function Join(items: seq<string>, sep: string): string
  {
    if |items| == 0 then ""
    else if |items| == 1 then items[0]
    else items[0] + sep + Join(items[1..], sep)
  }

  /** `strip()` cuts whitespace only: its result `r` sits at some offset `i` of `s`,
      with nothing but whitespace before and after it. */
  lemma StripDecompose(s: string, r: string) returns (i: nat)
    requires r == Strip(s)
    ensures i + |r| <= |s|
    ensures AllSpace(s[..i]) && AllSpace(s[i + |r|..])
    ensures s[i..i + |r|] == r
  {
    i := SpaceRunEnd(s, 0);
    var hi := SpaceRunStart(s, i, |s|);
    SpaceRunEndCuts(s, 0);
    SpaceRunStartCuts(s, i, |s|);
    assert r == s[i..hi];
  }

  /** `strip()` is determined by its meaning: whatever trimmed text is surrounded
      by whitespace on both sides is what comes out. */
  lemma StripUnique(a: string, m: string, b: string)
    requires AllSpace(a) && AllSpace(b) && Trimmed(m)
    ensures Strip(a + m + b) == m
  {
    var s := a + m + b;
    var j := |a| + |m|;
    forall k | 0 <= k < |a| ensures IsSpace(s[k]) {
      assert s[k] == a[k];
    }
    forall k | j <= k < |s| ensures IsSpace(s[k]) {
      assert s[k] == b[k - j];
    }
    if m == [] {
      SpaceRunEndAt(s, 0, |s|);
    } else {
      assert s[|a|] == m[0] && s[j - 1] == m[|m| - 1];
      SpaceRunEndAt(s, 0, |a|);
      SpaceRunStartAt(s, |a|, j, |s|);
      assert s[|a|..j] == m;
    }
  }

  /** A string strips to "" exactly when it holds nothing but whitespace. */
  lemma StripEmptyIffAllSpace(s: string)
    ensures Strip(s) == [] <==> AllSpace(s)
  {
    if AllSpace(s) {
      SpaceRunEndAt(s, 0, |s|);
    }
    if Strip(s) == [] {
      var i := StripDecompose(s, []);
      forall k | 0 <= k < |s| ensures IsSpace(s[k]) {
        if k < i {
          assert s[k] == s[..i][k];
        } else {
          assert s[k] == s[i..][k - i];
        }
      }
    }
  }

  /** Whitespace added at either end does not change what `strip()` returns. */
  lemma StripIgnoresSurroundingSpace(a: string, s: string, b: string)
    requires AllSpace(a) && AllSpace(b)
    ensures Strip(a + s + b) == Strip(s)
  {
    var m := Strip(s);
    var i := StripDecompose(s, m);
    var a', b' := s[..i], s[i + |m|..];
    SplitThree(s, i, i + |m|);
    Regroup(a, a', m, b', b);
    AllSpaceConcat(a, a');
    AllSpaceConcat(b', b);
    StripUnique(a + a', m, b' + b);
    StripUnique(a', m, b');
  }

  /** Cutting a sequence at two points and gluing the pieces back gives it again. */
  lemma SplitThree(s: string, i: nat, j: nat)
    requires i <= j <= |s|
    ensures s == s[..i] + s[i..j] + s[j..]
  {
  }

  /** Concatenation regrouped. */
  lemma Regroup(a: string, x: string, m: string, y: string, b: string)
    ensures a + (x + m + y) + b == (a + x) + m + (y + b)
  {
  }

  /** Whitespace joined to whitespace is whitespace. */
  lemma AllSpaceConcat(x: string, y: string)
    requires AllSpace(x) && AllSpace(y)
    ensures AllSpace(x + y)
  {
  }

  /** A trimmed text is its own strip. */
  lemma StripTrimmed(s: string)
    requires Trimmed(s)
    ensures Strip(s) == s
  {
    assert [] + s + [] == s;
    StripUnique([], s, []);
  }
}
