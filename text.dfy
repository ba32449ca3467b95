/** The string normalisation applied to request input: Python's `str.strip()`
    followed by `str.lower()`, over the ASCII range. */
module Text {

  /** Python's `str.isspace()` on ASCII characters: TAB, LF, VT, FF, CR (9..13),
      the four information separators FS, GS, RS, US (28..31) and SPACE (32). */
  predicate IsSpace(c: char) {
    9 <= c as int <= 13 || 28 <= c as int <= 32
  }

  predicate AllSpace(s: string) {
    forall i :: 0 <= i < |s| ==> IsSpace(s[i])
  }

  /** Neither the first nor the last character of `s` is whitespace. */
  predicate Trimmed(s: string) {
    s == [] || (!IsSpace(s[0]) && !IsSpace(s[|s| - 1]))
  }

  predicate IsUpper(c: char) {
    'A' <= c <= 'Z'
  }

  predicate NoUpper(s: string) {
    forall i :: 0 <= i < |s| ==> !IsUpper(s[i])
  }

  /** Lower-cases one ASCII letter; every other character is kept. */
  function LowerChar(c: char): (d: char)
    ensures !IsUpper(d)
    ensures d == c || IsUpper(c)
    ensures IsSpace(d) <==> IsSpace(c)
  {
    if IsUpper(c) then (c as int + ('a' as int - 'A' as int)) as char else c
  }

  /** The first index at or after `i` that does not hold whitespace (`|s|`
      when there is none): the scan `str.strip()` makes from the left. */
  function SkipSpace(s: string, i: nat): (k: nat)
    requires i <= |s|
    ensures i <= k <= |s|
    ensures forall j :: i <= j < k ==> IsSpace(s[j])
    ensures k == |s| || !IsSpace(s[k])
    decreases |s| - i
  {
    if i < |s| && IsSpace(s[i]) then SkipSpace(s, i + 1) else i
  }

  /** The end of `s[lo..j]` once its trailing whitespace is dropped: the scan
      `str.strip()` makes from the right, which stops at `lo`. */
  function SkipSpaceBack(s: string, lo: nat, j: nat): (k: nat)
    requires lo <= j <= |s|
    ensures lo <= k <= j
    ensures forall m :: k <= m < j ==> IsSpace(s[m])
    ensures k == lo || !IsSpace(s[k - 1])
    decreases j - lo
  {
    if lo < j && IsSpace(s[j - 1]) then SkipSpaceBack(s, lo, j - 1) else j
  }

  /** Python's `str.strip()` with no argument: `s` without its leading and
      trailing whitespace (StripSplit shows that what is cut off is whitespace). */
  function Strip(s: string): (r: string)
    ensures |r| <= |s| && Trimmed(r)
  {
    var i := SkipSpace(s, 0);
    s[i..SkipSpaceBack(s, i, |s|)]
  }

  /** `s` is its stripped form with a run of whitespace on either side. */
  lemma {:induction false} StripSplit(s: string) returns (pre: string, post: string)
    ensures AllSpace(pre) && AllSpace(post)
    ensures s == pre + Strip(s) + post
  {
    var i := SkipSpace(s, 0);
    var j := SkipSpaceBack(s, i, |s|);
    pre, post := s[..i], s[j..];
    assert s == s[..i] + s[i..j] + s[j..];
  }

  /** The left scan stops exactly at the first non-whitespace index. */
  lemma {:induction false} SkipSpaceAt(s: string, i: nat, m: nat)
    requires i <= m <= |s|
    requires forall j :: i <= j < m ==> IsSpace(s[j])
    requires m == |s| || !IsSpace(s[m])
    ensures SkipSpace(s, i) == m
  {
  }

  /** The right scan stops exactly after the last non-whitespace index. */
  lemma {:induction false} SkipSpaceBackAt(s: string, lo: nat, j: nat, m: nat)
    requires lo <= m <= j <= |s|
    requires forall n :: m <= n < j ==> IsSpace(s[n])
    requires m == lo || !IsSpace(s[m - 1])
    ensures SkipSpaceBack(s, lo, j) == m
  {
  }

  /** Python's `str.lower()` on ASCII: every upper-case letter becomes its
      lower-case letter, every other character is kept, the length is kept. */
  function Lower(s: string): (r: string)
    ensures |r| == |s|
    ensures forall i :: 0 <= i < |s| ==> r[i] == LowerChar(s[i])
    ensures NoUpper(r)
  {
    if s == [] then [] else [LowerChar(s[0])] + Lower(s[1..])
  }

  /** `s.strip().lower()`: the form in which names and actions are compared. */
  function Normalize(s: string): (r: string)
    ensures |r| <= |s|
    ensures Trimmed(r) && NoUpper(r)
  {
    LowerCommutesWithEdges(Strip(s));
    Lower(Strip(s))
  }

  /** Lower-casing keeps every whitespace character where it was. */
  lemma {:induction false} LowerCommutesWithEdges(s: string)
    ensures Trimmed(s) ==> Trimmed(Lower(s))
    ensures AllSpace(s) ==> AllSpace(Lower(s))
  {
  }

  lemma {:induction false} LowerAppend(a: string, b: string)
    ensures Lower(a + b) == Lower(a) + Lower(b)
  {
    var l, r := Lower(a + b), Lower(a) + Lower(b);
    assert |l| == |r|;
    forall i | 0 <= i < |l| ensures l[i] == r[i] {
      if i < |a| { assert (a + b)[i] == a[i]; } else { assert (a + b)[i] == b[i - |a|]; }
    }
  }

  lemma {:induction false} AllSpaceAppend(a: string, b: string)
    requires AllSpace(a) && AllSpace(b)
    ensures AllSpace(a + b)
  {
    forall i | 0 <= i < |a + b| ensures IsSpace((a + b)[i]) {
      if i < |a| { assert (a + b)[i] == a[i]; } else { assert (a + b)[i] == b[i - |a|]; }
    }
  }

  /** Stripping removes exactly the whitespace padding around a trimmed core:
      whatever whitespace surrounds `t`, `strip()` gives back `t`. */
  lemma {:induction false} StripOf(pre: string, t: string, post: string)
    requires AllSpace(pre) && AllSpace(post) && Trimmed(t)
    ensures Strip(pre + t + post) == t
  {
    var u := pre + t + post;
    var i, j := |pre|, |pre| + |t|;
    forall n | 0 <= n < i ensures IsSpace(u[n]) {
      assert u[n] == pre[n];
    }
    forall n | j <= n < |u| ensures IsSpace(u[n]) {
      assert u[n] == post[n - j];
    }
    if t == [] {
      SkipSpaceAt(u, 0, |u|);
      SkipSpaceBackAt(u, |u|, |u|, |u|);
    } else {
      assert u[i] == t[0] && u[j - 1] == t[|t| - 1];
      SkipSpaceAt(u, 0, i);
      SkipSpaceBackAt(u, i, |u|, j);
      assert u[i..j] == t;
    }
  }

  /** A string with no edge whitespace is left alone by `strip()`. */
  lemma {:induction false} StripTrimmed(t: string)
    requires Trimmed(t)
    ensures Strip(t) == t
  {
    StripOf([], t, []);
    assert [] + t + [] == t;
  }

  /** Extra whitespace around a string does not change what `strip()` gives. */
  lemma {:induction false} StripIgnoresPadding(pre: string, s: string, post: string)
    requires AllSpace(pre) && AllSpace(post)
    ensures Strip(pre + s + post) == Strip(s)
  {
    var t := Strip(s);
    var a, b := StripSplit(s);
    AllSpaceAppend(pre, a);
    AllSpaceAppend(b, post);
    assert pre + s + post == (pre + a) + t + (b + post) by {
      assert s == a + t + b;
    }
    StripOf(pre + a, t, b + post);
  }

  /** `strip()` and `lower()` may be applied in either order. */
  lemma {:induction false} StripLowerCommute(s: string)
    ensures Strip(Lower(s)) == Lower(Strip(s))
  {
    var t := Strip(s);
    var a, b := StripSplit(s);
    LowerAppend(a, t);
    LowerAppend(a + t, b);
    LowerCommutesWithEdges(a);
    LowerCommutesWithEdges(t);
    LowerCommutesWithEdges(b);
    StripOf(Lower(a), Lower(t), Lower(b));
  }

  lemma {:induction false} LowerIdempotent(s: string)
    ensures Lower(Lower(s)) == Lower(s)
  {
  }

  /** Normalising twice is normalising once. */
  lemma {:induction false} NormalizeIdempotent(s: string)
    ensures Normalize(Normalize(s)) == Normalize(s)
  {
    var n := Normalize(s);
    StripTrimmed(n);
    LowerIdempotent(Strip(s));
  }

  /** Normalisation ignores surrounding whitespace. */
  lemma {:induction false} NormalizeIgnoresPadding(pre: string, s: string, post: string)
    requires AllSpace(pre) && AllSpace(post)
    ensures Normalize(pre + s + post) == Normalize(s)
  {
    StripIgnoresPadding(pre, s, post);
  }

  /** Normalisation ignores the case of ASCII letters. */
  lemma {:induction false} NormalizeIgnoresCase(s: string)
    ensures Normalize(Lower(s)) == Normalize(s)
  {
    StripLowerCommute(s);
    LowerIdempotent(Strip(s));
  }

  /** A string that is already trimmed and lower-case is its own normal form. */
  lemma {:induction false} NormalizeFixed(s: string)
    requires Trimmed(s) && NoUpper(s)
    ensures Normalize(s) == s
  {
    StripTrimmed(s);
  }
}
