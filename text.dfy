/** Option and Result, as the Ruby code's `nil` and raised errors. */
module Outcomes {
  datatype Option<+T> = None | Some(value: T)

  datatype Result<+T, +E> = Ok(value: T) | Err(error: E)
}

/** Character classes and string helpers shared by the patch engine and the report. */
module Text {

  /** `\s` in a Ruby regular expression: space, tab, CR, LF, form feed, vertical tab. */
  predicate IsRegexSpace(c: char) {
    c == ' ' || c == '\t' || c == '\r' || c == '\n' || c == '\U{000C}' || c == '\U{000B}'
  }

  /** What Ruby's `String#strip` removes from either end: `\s` and the NUL character. */
  predicate IsStripSpace(c: char) {
    IsRegexSpace(c) || c == '\0'
  }

  /** `\d` in a Ruby regular expression. */
  predicate IsDigit(c: char) {
    '0' <= c <= '9'
  }

  /** `p` occurs in `t` starting at index `i`. */
  predicate StartsAt(t: seq<char>, i: nat, p: seq<char>) {
    i + |p| <= |t| && t[i..i + |p|] == p
  }

  /**
   * `p` occurs in `t` starting at index `i`, stated character by character: the form
   * the report's pattern matchers use to compare against literal words.
   */
  predicate LiteralAt(t: seq<char>, i: nat, p: seq<char>) {
    i + |p| <= |t| && forall k :: 0 <= k < |p| ==> t[i + k] == p[k]
  }

  /** `p` occurs somewhere in `t`: a regular expression that is a plain literal. */
  predicate Contains(t: seq<char>, p: seq<char>) {
    exists i: nat | i <= |t| :: StartsAt(t, i, p)
  }

  predicate EndsWith(t: seq<char>, p: seq<char>) {
    |p| <= |t| && t[|t| - |p|..] == p
  }

  predicate AllStripSpace(s: seq<char>) {
    forall i :: 0 <= i < |s| ==> IsStripSpace(s[i])
  }

  /** Number of strippable characters at the front of `s`. */
  function LeadingSpace(s: seq<char>): (k: nat)
    ensures k <= |s| && AllStripSpace(s[..k])
    ensures k < |s| ==> !IsStripSpace(s[k])
  {
    if s == [] || !IsStripSpace(s[0]) then 0
    else
      var k := 1 + LeadingSpace(s[1..]);
      assert s[..k] == [s[0]] + s[1..][..k - 1];
      k
  }

  /** Number of strippable characters at the back of `s`. */
  function TrailingSpace(s: seq<char>): (k: nat)
    ensures k <= |s| && AllStripSpace(s[|s| - k..])
    ensures k < |s| ==> !IsStripSpace(s[|s| - k - 1])
  {
    if s == [] || !IsStripSpace(s[|s| - 1]) then 0
    else
      var front := s[..|s| - 1];
      var k := 1 + TrailingSpace(front);
      assert s[|s| - k..] == front[|front| - (k - 1)..] + [s[|s| - 1]];
      k
  }

  /**
   * Ruby's `String#strip`: the longest slice of `s` that neither starts nor
   * ends with a strippable character, everything cut off being strippable.
   */
  function Strip(s: seq<char>): (r: seq<char>)
    ensures exists a, b :: 0 <= a <= b <= |s| && r == s[a..b] && AllStripSpace(s[..a]) && AllStripSpace(s[b..])
    ensures r != [] ==> !IsStripSpace(r[0]) && !IsStripSpace(r[|r| - 1])
  {
    var a := LeadingSpace(s);
    var rest := s[a..];
    var t := TrailingSpace(rest);
    var b := |s| - t;
    assert rest[|rest| - t..] == s[b..];
    assert a < b ==> s[a..b][0] == s[a] && s[a..b][b - a - 1] == rest[|rest| - t - 1];
    s[a..b]
  }
  /** The cut-off front of a stripped string is strippable character by character. */
  lemma FrontSpace(s: seq<char>, k: nat)
    requires k <= |s| && AllStripSpace(s[..k])
    ensures forall q :: 0 <= q < k ==> IsStripSpace(s[q])
  {
    forall q | 0 <= q < k
      ensures IsStripSpace(s[q])
    {
      assert s[..k][q] == s[q];
    }
  }

  /** The cut-off back of a stripped string is strippable character by character. */
  lemma BackSpace(s: seq<char>, k: nat)
    requires k <= |s| && AllStripSpace(s[k..])
    ensures forall q :: k <= q < |s| ==> IsStripSpace(s[q])
  {
    forall q | k <= q < |s|
      ensures IsStripSpace(s[q])
    {
      assert s[k..][q - k] == s[q];
    }
  }

  /**
   * Stripping keeps everything between two non-strippable characters at `lo` and
   * `hi - 1`, and starts exactly at `lo` when everything before `lo` is strippable.
   */
  lemma StripBounds(s: seq<char>, lo: nat, hi: nat) returns (a: nat, b: nat)
    requires lo < hi <= |s| && !IsStripSpace(s[lo]) && !IsStripSpace(s[hi - 1])
    ensures a <= lo && hi <= b <= |s| && Strip(s) == s[a..b]
    ensures (forall q :: 0 <= q < lo ==> IsStripSpace(s[q])) ==> a == lo
  {
    a, b :| 0 <= a <= b <= |s| && Strip(s) == s[a..b] && AllStripSpace(s[..a]) && AllStripSpace(s[b..]);
    FrontSpace(s, a);
    BackSpace(s, b);
    assert Strip(s)[0] == s[a];
  }
  /** The two ways of saying that `p` occurs at `i` agree. */
  lemma LiteralIsStartsAt(t: seq<char>, i: nat, p: seq<char>)
    requires LiteralAt(t, i, p)
    ensures StartsAt(t, i, p)
  {
    forall k | 0 <= k < |p|
      ensures t[i..i + |p|][k] == p[k]
    {
      assert t[i..i + |p|][k] == t[i + k];
    }
  }

  /** Two occurrences side by side are an occurrence of the concatenation. */
  lemma LiteralConcat(t: seq<char>, m: nat, p: seq<char>, q: seq<char>)
    requires LiteralAt(t, m, p) && LiteralAt(t, m + |p|, q)
    ensures LiteralAt(t, m, p + q)
  {
    forall k | 0 <= k < |p + q|
      ensures t[m + k] == (p + q)[k]
    {
      if k >= |p| {
        assert t[m + |p| + (k - |p|)] == q[k - |p|];
      }
    }
  }

  lemma CharOf(t: seq<char>, k: nat, p: seq<char>, m: nat)
    requires LiteralAt(t, k, p) && m < |p|
    ensures t[k + m] == p[m]
  {
  }

  /** An occurrence inside a slice is an occurrence in the slice, shifted. */
  lemma LiteralShift(t: seq<char>, j: nat, e: nat, k: nat, p: seq<char>)
    requires j <= k && k + |p| <= e <= |t| && LiteralAt(t, k, p)
    ensures LiteralAt(t[j..e], k - j, p)
  {
    forall m | 0 <= m < |p|
      ensures t[j..e][k - j + m] == p[m]
    {
      assert t[j..e][k - j + m] == t[k + m];
    }
  }

  /**
   * Stripping keeps an occurrence of a word that neither starts nor ends with a
   * strippable character, and the result starts with it when only strippable
   * characters come before it.
   */
  lemma StripKeeps(s: seq<char>, k: nat, p: seq<char>)
    requires LiteralAt(s, k, p) && p != [] && !IsStripSpace(p[0]) && !IsStripSpace(p[|p| - 1])
    ensures Contains(Strip(s), p)
    ensures (forall q :: 0 <= q < k ==> IsStripSpace(s[q])) ==> LiteralAt(Strip(s), 0, p)
  {
    CharOf(s, k, p, 0);
    CharOf(s, k, p, |p| - 1);
    var a, b := StripBounds(s, k, k + |p|);
    LiteralShift(s, a, b, k, p);
    LiteralIsStartsAt(Strip(s), k - a, p);
  }


  /** White space before `j` is strippable space at the front of a slice from `i`. */
  lemma SpaceShift(t: seq<char>, i: nat, e: nat, j: nat)
    requires i <= j <= e <= |t| && forall q :: i <= q < j ==> IsRegexSpace(t[q])
    ensures forall q :: 0 <= q < j - i ==> IsStripSpace(t[i..e][q])
  {
    forall q | 0 <= q < j - i
      ensures IsStripSpace(t[i..e][q])
    {
      assert t[i..e][q] == t[i + q];
    }
  }
}
