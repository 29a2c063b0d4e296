/**
 The few Python `str` operations the heading classifier relies on:
 `strip()`, `startswith`, the substring test `in`, and `"".join`.
 Strings are sequences of Unicode scalar values, close to Python 3's
 sequences of code points (a lone surrogate has no Dafny `char`).
 Scans are written over indices rather than over suffixes `s[1..]`.
 */
module PyStr {

  /** Python's `str.isspace()`: the characters `strip()` removes and the
      regex class `\s` matches. */
  predicate IsSpace(c: char) {
    || ('\t' <= c <= '\r')              // \t \n \v \f \r
    || ('\U{1C}' <= c <= '\U{1F}')      // file, group, record, unit separators
    || c == ' '
    || c == '\U{85}' || c == '\U{A0}' || c == '\U{1680}'
    || ('\U{2000}' <= c <= '\U{200A}')
    || c == '\U{2028}' || c == '\U{2029}'
    || c == '\U{202F}' || c == '\U{205F}' || c == '\U{3000}'
  }

  predicate AllSpace(s: string) {
    forall i :: 0 <= i < |s| ==> IsSpace(s[i])
  }

  /** Neither end of `s` is whitespace. */
  predicate IsTrimmed(s: string) {
    s == [] || (!IsSpace(s[0]) && !IsSpace(s[|s| - 1]))
  }

  /** The first index at or after `i` that does not hold whitespace, or `|s|`. */
  function SkipSpace(s: string, i: nat): (j: nat)
    requires i <= |s|
    ensures i <= j <= |s|
    ensures forall k :: i <= k < j ==> IsSpace(s[k])
    ensures j < |s| ==> !IsSpace(s[j])
    decreases |s| - i
  {
    if i < |s| && IsSpace(s[i]) then SkipSpace(s, i + 1) else i
  }

  /** Scanning back from `j` but not below `lo`: the end of the last
      character that is not whitespace, or `lo`. */
  function SkipSpaceBack(s: string, lo: nat, j: nat): (e: nat)
    requires lo <= j <= |s|
    ensures lo <= e <= j
    ensures forall k :: e <= k < j ==> IsSpace(s[k])
    ensures lo < e ==> !IsSpace(s[e - 1])
    decreases j
  {
    if lo < j && IsSpace(s[j - 1]) then SkipSpaceBack(s, lo, j - 1) else j
  }

  /** `str.strip()` with no argument: the middle of `s` once the whitespace
      on both ends is gone; `StripIsMiddle` says which middle. */
  function Strip(s: string): (r: string)
    ensures |r| <= |s| && IsTrimmed(r)
  {
    var a := SkipSpace(s, 0);
    s[a..SkipSpaceBack(s, a, |s|)]
  }

  /** What `Strip` removes is whitespace on either side of its result. */
  lemma StripIsMiddle(s: string)
    ensures var r := Strip(s);
      exists k :: 0 <= k <= |s| - |r| && r == s[k..k + |r|]
                  && AllSpace(s[..k]) && AllSpace(s[k + |r|..])
  {
    var a := SkipSpace(s, 0);
    var b := SkipSpaceBack(s, a, |s|);
    assert forall k :: 0 <= k < a ==> IsSpace(s[..a][k]);
    assert forall k :: 0 <= k < |s| - b ==> IsSpace(s[b..][k]);
  }

  /** `SkipSpace` stops at the first non-whitespace index and nowhere else. */
  lemma {:induction false} SkipSpaceIs(s: string, i: nat, j: nat)
    requires i <= j <= |s| && (forall k :: i <= k < j ==> IsSpace(s[k]))
    requires j < |s| ==> !IsSpace(s[j])
    ensures SkipSpace(s, i) == j
    decreases j - i
  {
    if i < j {
      assert IsSpace(s[i]);
      SkipSpaceIs(s, i + 1, j);
    }
  }

  lemma {:induction false} SkipSpaceBackIs(s: string, lo: nat, e: nat, j: nat)
    requires lo <= e <= j <= |s| && (forall k :: e <= k < j ==> IsSpace(s[k]))
    requires lo < e ==> !IsSpace(s[e - 1])
    ensures SkipSpaceBack(s, lo, j) == e
    decreases j - e
  {
    if e < j {
      assert IsSpace(s[j - 1]);
      SkipSpaceBackIs(s, lo, e, j - 1);
    }
  }

  /** Stripping is exact: whatever trimmed text sits between two runs of
      whitespace is what `Strip` returns. */
  lemma StripBetweenSpace(a: string, t: string, b: string)
    requires AllSpace(a) && AllSpace(b) && IsTrimmed(t)
    ensures Strip(a + t + b) == t
  {
    var s := a + t + b;
    var e := |a| + |t|;
    assert forall k :: 0 <= k < |a| ==> s[k] == a[k];
    assert forall k :: e <= k < |s| ==> s[k] == b[k - e];
    if t == [] {
      SkipSpaceIs(s, 0, |s|);
      SkipSpaceBackIs(s, |s|, |s|, |s|);
    } else {
      assert s[|a|] == t[0] && s[e - 1] == t[|t| - 1];
      SkipSpaceIs(s, 0, |a|);
      SkipSpaceBackIs(s, |a|, e, |s|);
      assert s[|a|..e] == t;
    }
  }

  /** `strip()` is idempotent. */
  lemma StripIdempotent(s: string)
    ensures Strip(Strip(s)) == Strip(s)
  {
    var t := Strip(s);
    StripBetweenSpace([], t, []);
    assert [] + t + [] == t;
  }

  /** `s.startswith(p)` */
  predicate StartsWith(s: string, p: string) {
    |p| <= |s| && s[..|p|] == p
  }

  /** `sub` occurs in `s` at some position at or after `i`. */
  predicate ContainsFrom(s: string, sub: string, i: nat)
    requires i <= |s|
    decreases |s| - i
  {
    (i + |sub| <= |s| && s[i..i + |sub|] == sub) || (i < |s| && ContainsFrom(s, sub, i + 1))
  }

  /** `sub in s` for strings. */
  predicate Contains(s: string, sub: string) {
    ContainsFrom(s, sub, 0)
  }

  /** `sub` occurs in `s` starting at index `j`. */
  predicate OccursAt(s: string, sub: string, j: nat) {
    j + |sub| <= |s| && s[j..j + |sub|] == sub
  }

  /** `sub in s` holds exactly when `sub` occurs in `s` at some index. */
  lemma ContainsIff(s: string, sub: string)
    ensures Contains(s, sub) <==> exists j :: OccursAt(s, sub, j)
  {
    ContainsFromIff(s, sub, 0);
  }

  lemma {:induction false} ContainsFromIff(s: string, sub: string, i: nat)
    requires i <= |s|
    ensures ContainsFrom(s, sub, i) <==> exists j :: i <= j && OccursAt(s, sub, j)
    decreases |s| - i
  {
    if OccursAt(s, sub, i) {
      assert i <= i && OccursAt(s, sub, i);
    }
    if i < |s| {
      ContainsFromIff(s, sub, i + 1);
      if j :| i <= j && OccursAt(s, sub, j) {
        if j > i {
          assert i + 1 <= j;
        }
      }
    } else if j :| i <= j && OccursAt(s, sub, j) {
      assert j == i;
    }
  }

  /** `"".join(parts)` */
  function Concat(parts: seq<string>): string {
    if parts == [] then "" else Concat(parts[..|parts| - 1]) + parts[|parts| - 1]
  }

  /** Joining is compatible with concatenating the parts. */
  lemma {:induction false} ConcatAppend(a: seq<string>, b: seq<string>)
    ensures Concat(a + b) == Concat(a) + Concat(b)
    decreases |b|
  {
    if b == [] {
      assert a + b == a;
    } else {
      var init, last := b[..|b| - 1], b[|b| - 1];
      assert (a + b)[..|a + b| - 1] == a + init;
      assert (a + b)[|a + b| - 1] == last;
      assert Concat(a + b) == Concat(a + init) + last;
      ConcatAppend(a, init);
      assert Concat(b) == Concat(init) + last;
    }
  }

  /** A substring test can only succeed if every character of the
      searched-for text occurs in the string. */
  lemma ContainsCharOf(s: string, sub: string, k: nat)
    requires k < |sub| && Contains(s, sub)
    ensures |sub| <= |s| && sub[k] in s
  {
    ContainsFromCharOf(s, sub, k, 0);
  }

  lemma {:induction false} ContainsFromCharOf(s: string, sub: string, k: nat, i: nat)
    requires k < |sub| && i <= |s| && ContainsFrom(s, sub, i)
    ensures |sub| <= |s| && sub[k] in s
    decreases |s| - i
  {
    if i + |sub| <= |s| && s[i..i + |sub|] == sub {
      assert s[i + k] == sub[k];
    } else {
      ContainsFromCharOf(s, sub, k, i + 1);
    }
  }
}
