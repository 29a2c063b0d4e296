/**
 The regular expressions of the heading classifier
 (Adobe/extract_outline.py lines 15-18 and 51). The four heading regexes
 (lines 15-18) are each given twice: as a computable predicate built on the
 length of the leading digit run, and as a ghost predicate shaped like the
 regex itself (one existential per point where the regex engine may choose
 where a `\d+` ends). Lemmas show the two agree, so the classifier can use
 the computable form. The `\d+` fullmatch of line 51 is `Digits`, which is
 already in the regex's own shape.

 `\d` is taken to be the ASCII digits '0'..'9'; `\s` is `PyStr.IsSpace`;
 `.` is any character but '\n'. All four heading regexes are used with
 `re.match`, so they are anchored at the start only.
 */
module Patterns {
  import opened PyStr

  predicate IsDigit(c: char) {
    '0' <= c <= '9'
  }

  /** `re.fullmatch(r'\d+', s)` */
  predicate Digits(s: string) {
    |s| > 0 && forall i :: 0 <= i < |s| ==> IsDigit(s[i])
  }

  /** The first index at or after `i` that does not hold a digit, or `|s|`:
      where a greedy `\d+` starting at `i` stops. */
  function DigitEnd(s: string, i: nat): (j: nat)
    requires i <= |s|
    ensures i <= j <= |s|
    ensures forall k :: i <= k < j ==> IsDigit(s[k])
    ensures j < |s| ==> !IsDigit(s[j])
    decreases |s| - i
  {
    if i < |s| && IsDigit(s[i]) then DigitEnd(s, i + 1) else i
  }

  /** A run of digits from `i` that is followed by a non-digit (or the end)
      is where `DigitEnd` stops. */
  lemma {:induction false} DigitEndIs(s: string, i: nat, j: nat)
    requires i <= j <= |s| && (forall k :: i <= k < j ==> IsDigit(s[k]))
    requires j < |s| ==> !IsDigit(s[j])
    ensures DigitEnd(s, i) == j
    decreases j - i
  {
    if i < j {
      assert IsDigit(s[i]);
      DigitEndIs(s, i + 1, j);
    }
  }

  // ----- computable forms -----

  /** `^\d+\.$` (line 15). `$` also matches just before a final newline. */
  predicate NumberDot(s: string) {
    var n := DigitEnd(s, 0);
    0 < n < |s| && s[n] == '.' && (|s| == n + 1 || (|s| == n + 2 && s[n + 1] == '\n'))
  }

  /** `^\d+\.\s?.+` (line 16): a number, a dot, an optional whitespace
      character, and at least one more character that is not a newline. */
  predicate NumberThenText(s: string) {
    var n := DigitEnd(s, 0);
    0 < n && n + 1 < |s| && s[n] == '.'
    && (s[n + 1] != '\n' || (n + 2 < |s| && s[n + 2] != '\n'))
  }

  /** `^\d+\.\d+\s?` (line 17); the trailing `\s?` never affects a match. */
  predicate TwoLevelNumber(s: string) {
    var n := DigitEnd(s, 0);
    0 < n < |s| && s[n] == '.' && DigitEnd(s, n + 1) > n + 1
  }

  /** `^\d+\.\d+\.\d+\s?` (line 18). */
  predicate ThreeLevelNumber(s: string) {
    var n := DigitEnd(s, 0);
    0 < n < |s| && s[n] == '.' &&
    var m := DigitEnd(s, n + 1);
    n + 1 < m < |s| && s[m] == '.' && DigitEnd(s, m + 1) > m + 1
  }

  // ----- regex-shaped reference forms -----

  /** `\.\d+`: a dot followed by at least one digit. */
  predicate DotDigits(t: string) {
    |t| >= 2 && t[0] == '.' && Digits(t[1..])
  }

  /** `\.\s?`: a dot, optionally followed by one whitespace character. */
  predicate DotOptSpace(t: string) {
    1 <= |t| <= 2 && t[0] == '.' && AllSpace(t[1..])
  }

  ghost predicate RegexNumberDot(s: string) {
    exists i :: 0 < i < |s| && Digits(s[..i]) && s[i..] in {".", ".\n"}
  }

  ghost predicate RegexNumberThenText(s: string) {
    exists i, j :: 0 < i < j < |s| && Digits(s[..i]) && DotOptSpace(s[i..j]) && s[j] != '\n'
  }

  ghost predicate RegexTwoLevel(s: string) {
    exists i, j :: 0 < i < j <= |s| && Digits(s[..i]) && DotDigits(s[i..j])
  }

  ghost predicate RegexThreeLevel(s: string) {
    exists i, j, k :: 0 < i < j < k <= |s| && Digits(s[..i]) && DotDigits(s[i..j]) && DotDigits(s[j..k])
  }

  // ----- agreement -----

  /** A digit run from `i` up to a dot at `j` is exactly where `DigitEnd` stops. */
  lemma DigitsThenDot(s: string, i: nat, j: nat)
    requires i < j < |s| && Digits(s[i..j]) && s[j] == '.'
    ensures DigitEnd(s, i) == j
  {
    forall k | i <= k < j
      ensures IsDigit(s[k])
    {
      assert s[k] == s[i..j][k - i];
    }
    DigitEndIs(s, i, j);
  }

  /** The digits `DigitEnd` scans over, as a slice. */
  lemma DigitRunSlice(s: string, i: nat)
    requires i <= |s| && i < DigitEnd(s, i)
    ensures Digits(s[i..DigitEnd(s, i)])
  {
    var j := DigitEnd(s, i);
    assert forall k :: 0 <= k < j - i ==> s[i..j][k] == s[i + k];
  }

  lemma NumberDotAgrees(s: string)
    ensures NumberDot(s) <==> RegexNumberDot(s)
  {
    var n := DigitEnd(s, 0);
    if NumberDot(s) {
      DigitRunSlice(s, 0);
      assert s[0..n] == s[..n];
      if |s| == n + 2 {
        assert s[n..] == ".\n";
      } else {
        assert s[n..] == ".";
      }
    }
    if RegexNumberDot(s) {
      var i :| 0 < i < |s| && Digits(s[..i]) && s[i..] in {".", ".\n"};
      assert s[i] == s[i..][0];
      assert s[0..i] == s[..i];
      DigitsThenDot(s, 0, i);
      assert |s| == i + 1 || s[i + 1] == s[i..][1];
    }
  }

  lemma NumberThenTextAgrees(s: string)
    ensures NumberThenText(s) <==> RegexNumberThenText(s)
  {
    var n := DigitEnd(s, 0);
    if NumberThenText(s) {
      DigitRunSlice(s, 0);
      assert s[0..n] == s[..n];
      if s[n + 1] != '\n' {
        assert DotOptSpace(s[n..n + 1]);
      } else {
        assert DotOptSpace(s[n..n + 2]);
      }
    }
    if RegexNumberThenText(s) {
      var i, j :| 0 < i < j < |s| && Digits(s[..i]) && DotOptSpace(s[i..j]) && s[j] != '\n';
      assert s[i] == s[i..j][0];
      assert s[0..i] == s[..i];
      DigitsThenDot(s, 0, i);
      if j == i + 2 {
        assert s[i + 1] == s[i..j][1];
      }
    }
  }

  /** `\.\d+` at `i`, with the digits running up to `j`. */
  lemma DotDigitsAt(s: string, i: nat, j: nat)
    requires i + 1 < j <= |s| && s[i] == '.' && Digits(s[i + 1..j])
    ensures DotDigits(s[i..j])
  {
    assert s[i..j][1..] == s[i + 1..j];
  }

  lemma TwoLevelAgrees(s: string)
    ensures TwoLevelNumber(s) <==> RegexTwoLevel(s)
  {
    var n := DigitEnd(s, 0);
    if TwoLevelNumber(s) {
      var m := DigitEnd(s, n + 1);
      DigitRunSlice(s, 0);
      assert s[0..n] == s[..n];
      DigitRunSlice(s, n + 1);
      DotDigitsAt(s, n, m);
    }
    if RegexTwoLevel(s) {
      var i, j :| 0 < i < j <= |s| && Digits(s[..i]) && DotDigits(s[i..j]);
      assert s[i] == s[i..j][0];
      assert s[0..i] == s[..i];
      DigitsThenDot(s, 0, i);
      assert s[i + 1] == s[i..j][1..][0];
    }
  }

  lemma ThreeLevelAgrees(s: string)
    ensures ThreeLevelNumber(s) <==> RegexThreeLevel(s)
  {
    if ThreeLevelNumber(s) {
      ThreeLevelHasSplit(s);
    }
    if RegexThreeLevel(s) {
      var i, j, k :| 0 < i < j < k <= |s| && Digits(s[..i]) && DotDigits(s[i..j]) && DotDigits(s[j..k]);
      SplitIsThreeLevel(s, i, j, k);
    }
  }

  lemma ThreeLevelHasSplit(s: string)
    requires ThreeLevelNumber(s)
    ensures RegexThreeLevel(s)
  {
    var n := DigitEnd(s, 0);
    var m := DigitEnd(s, n + 1);
    var p := DigitEnd(s, m + 1);
    DigitRunSlice(s, 0);
    assert s[0..n] == s[..n];
    DigitRunSlice(s, n + 1);
    DotDigitsAt(s, n, m);
    DigitRunSlice(s, m + 1);
    DotDigitsAt(s, m, p);
  }

  lemma SplitIsThreeLevel(s: string, i: nat, j: nat, k: nat)
    requires 0 < i < j < k <= |s| && Digits(s[..i]) && DotDigits(s[i..j]) && DotDigits(s[j..k])
    ensures ThreeLevelNumber(s)
  {
    assert s[i] == s[i..j][0];
    assert s[0..i] == s[..i];
    DigitsThenDot(s, 0, i);
    assert s[i + 1..j] == s[i..j][1..];
    assert s[j] == s[j..k][0];
    DigitsThenDot(s, i + 1, j);
    assert s[j + 1] == s[j..k][1..][0];
  }

  /** Every text the H3 regex matches is matched by the H2 regex too. */
  lemma ThreeLevelIsTwoLevel(s: string)
    requires RegexThreeLevel(s)
    ensures RegexTwoLevel(s)
  {
    var i, j, k :| 0 < i < j < k <= |s| && Digits(s[..i]) && DotDigits(s[i..j]) && DotDigits(s[j..k]);
  }

  /** Every text the H2 regex matches is matched by the numbered-H1 regex. */
  lemma TwoLevelIsNumberThenText(s: string)
    requires RegexTwoLevel(s)
    ensures RegexNumberThenText(s)
  {
    var i, j :| 0 < i < j <= |s| && Digits(s[..i]) && DotDigits(s[i..j]);
    assert s[i + 1] == s[i..j][1..][0];
    assert DotOptSpace(s[i..i + 1]);
  }

  /** The bare-number regex and the numbered-text regex never both match. */
  lemma NumberThenTextNotNumberDot(s: string)
    requires NumberThenText(s)
    ensures !NumberDot(s)
  {
  }

  /** A bare `N.` never starts like a two-level number. */
  lemma NumberDotIsNotTwoLevel(s: string)
    requires NumberDot(s)
    ensures !TwoLevelNumber(s) && !ThreeLevelNumber(s)
  {
    var n := DigitEnd(s, 0);
    assert n + 1 < |s| ==> s[n + 1] == '\n';
  }
}
