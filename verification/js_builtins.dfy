/**
 * The few JavaScript built-ins the modelled code relies on, written out with
 * their ECMAScript meaning: `Array.prototype.find`/`some`, `String.prototype.trim`,
 * the first piece of `String.prototype.split`, the regular expression
 * `/^\d+-\d+$/` and `Number` applied to a string of decimal digits.
 */
module JsBuiltins {
  import opened Options

  // ---------------------------------------------------------------------------
  // Arrays
  // ---------------------------------------------------------------------------

  /** No element of `s` before position `i` satisfies `p`. */
  ghost predicate NoneBefore<T>(s: seq<T>, p: T -> bool, i: int)
    requires 0 <= i <= |s|
  {
    forall j :: 0 <= j < i ==> !p(s[j])
  }

  /** `Array.prototype.find`: the first element satisfying `p`, if any. */
  function Find<T>(s: seq<T>, p: T -> bool): (r: Option<T>)
    ensures r.None? <==> forall i :: 0 <= i < |s| ==> !p(s[i])
    ensures r.Some? ==> exists i :: 0 <= i < |s| && s[i] == r.value && p(s[i]) && NoneBefore(s, p, i)
  {
    if s == [] then None
    else if p(s[0]) then
      assert NoneBefore(s, p, 0);
      Some(s[0])
    else
      var r := Find(s[1..], p);
      if r.Some? then
        assert exists i :: 0 <= i < |s| && s[i] == r.value && p(s[i]) && NoneBefore(s, p, i) by {
          var i :| 0 <= i < |s[1..]| && s[1..][i] == r.value && p(s[1..][i]) && NoneBefore(s[1..], p, i);
          assert s[i + 1] == r.value && NoneBefore(s, p, i + 1);
        }
        r
      else
        assert forall i :: 1 <= i < |s| ==> s[i] == s[1..][i - 1];
        r
  }

  // ---------------------------------------------------------------------------
  // Strings
  // ---------------------------------------------------------------------------

  /** ECMAScript WhiteSpace and LineTerminator code points, which `trim` removes. */
  predicate IsSpace(c: char)
  {
    || c in {'\t', '\n', '\r', ' ', '\U{000B}', '\U{000C}', '\U{00A0}', '\U{1680}'}
    || c in {'\U{2028}', '\U{2029}', '\U{202F}', '\U{205F}', '\U{3000}', '\U{FEFF}'}
    || '\U{2000}' <= c <= '\U{200A}'
  }

  predicate IsBlank(s: string)
  {
    forall i :: 0 <= i < |s| ==> IsSpace(s[i])
  }

  /** Number of white-space characters at the start of `s`. */
  function LeadingSpaces(s: string): (k: nat)
    ensures k <= |s| && IsBlank(s[..k])
    ensures k < |s| ==> !IsSpace(s[k])
  {
    if s != [] && IsSpace(s[0]) then
      var k := 1 + LeadingSpaces(s[1..]);
      assert forall i :: 1 <= i < k ==> s[..k][i] == s[1..][..k - 1][i - 1];
      k
    else 0
  }

  /** Length of `s` once its trailing white space is dropped. */
  function TrailingStart(s: string): (k: nat)
    ensures k <= |s| && IsBlank(s[k..])
    ensures 0 < k ==> !IsSpace(s[k - 1])
  {
    if s != [] && IsSpace(s[|s| - 1]) then
      var k := TrailingStart(s[..|s| - 1]);
      assert forall i :: k <= i < |s| - 1 ==> s[i] == s[..|s| - 1][i];
      k
    else |s|
  }

  /** A sequence made of two parts whose elements all satisfy `p` has only such elements. */
  lemma AllOfConcat<T>(p: T -> bool, a: seq<T>, b: seq<T>)
    requires forall k :: 0 <= k < |a| ==> p(a[k])
    requires forall k :: 0 <= k < |b| ==> p(b[k])
    ensures forall k :: 0 <= k < |a + b| ==> p((a + b)[k])
  {
  }

  /** The text `trim` keeps lies between blank margins. */
  lemma TrimMargins(s: string, i: nat, j: nat)
    requires i <= |s| && j <= |s| - i
    requires IsBlank(s[i..][j..])
    ensures s[i..i + j] == s[i..][..j] && IsBlank(s[i + j..])
  {
    assert s[i + j..] == s[i..][j..];
  }

  /** `trim` keeps nothing exactly when the text is blank. */
  lemma TrimEmptyIffBlank(s: string, i: nat, j: nat)
    requires i <= |s| && j <= |s| - i
    requires IsBlank(s[..i]) && IsBlank(s[i..][j..])
    requires 0 < j ==> !IsSpace(s[i..][j - 1])
    ensures j == 0 <==> IsBlank(s)
  {
    if j == 0 {
      AllOfConcat(IsSpace, s[..i], s[i..]);
      assert s[..i] + s[i..] == s;
    } else {
      assert s[i + j - 1] == s[i..][j - 1];
    }
  }

  /** What `trim` keeps starts and ends with a non-blank character. */
  lemma TrimEnds(s: string, i: nat, j: nat)
    requires i <= |s| && j <= |s| - i
    requires i < |s| ==> !IsSpace(s[i])
    requires 0 < j ==> !IsSpace(s[i..][j - 1])
    ensures 0 < j ==> !IsSpace(s[i..][..j][0]) && !IsSpace(s[i..][..j][j - 1])
  {
    if 0 < j {
      assert s[i..][..j][0] == s[i];
    }
  }

  /** The slice between a blank head of length `i` and a blank tail from `j` on has the properties of `trim`. */
  lemma TrimSlice(s: string, i: nat, j: nat)
    requires i <= |s| && j <= |s| - i
    requires IsBlank(s[..i]) && (i < |s| ==> !IsSpace(s[i]))
    requires IsBlank(s[i..][j..]) && (0 < j ==> !IsSpace(s[i..][j - 1]))
    ensures var r := s[i..][..j];
            && (r == [] <==> IsBlank(s))
            && (r != [] ==> !IsSpace(r[0]) && !IsSpace(r[|r| - 1]))
            && s[i..i + |r|] == r && IsBlank(s[i + |r|..])
  {
    TrimMargins(s, i, j);
    TrimEmptyIffBlank(s, i, j);
    TrimEnds(s, i, j);
  }

  /** `String.prototype.trim`. */
  function Trim(s: string): (r: string)
    ensures r == [] <==> IsBlank(s)
    ensures r != [] ==> !IsSpace(r[0]) && !IsSpace(r[|r| - 1])
    ensures exists i :: 0 <= i <= |s| - |r| && s[i..i + |r|] == r && IsBlank(s[..i]) && IsBlank(s[i + |r|..])
  {
    var i := LeadingSpaces(s);
    var j := TrailingStart(s[i..]);
    TrimSlice(s, i, j);
    s[i..][..j]
  }

  /** The first occurrence of `c` in `s`. */
  function IndexOf(s: string, c: char): (r: Option<nat>)
    ensures r.None? <==> c !in s
    ensures r.Some? ==> r.value < |s| && s[r.value] == c && c !in s[..r.value]
  {
    if s == [] then None
    else if s[0] == c then Some(0)
    else
      var r := IndexOf(s[1..], c);
      if r.Some? then
        assert s[..r.value + 1] == [s[0]] + s[1..][..r.value];
        Some(r.value + 1)
      else r
  }

  /** `s.split(c)[0]`: the part of `s` before the first `c`, or all of `s`. */
  function PrefixBefore(s: string, c: char): (r: string)
    ensures r <= s && c !in r
    ensures |r| < |s| ==> s[|r|] == c
  {
    match IndexOf(s, c)
    case Some(i) => s[..i]
    case None => s
  }

  // ---------------------------------------------------------------------------
  // The score pattern /^\d+-\d+$/ and Number
  // ---------------------------------------------------------------------------

  /** `\d` without the `u` flag: an ASCII decimal digit. */
  predicate IsDigit(c: char)
  {
    '0' <= c <= '9'
  }

  /** `\d+` matching the whole of `s`. */
  predicate IsDigits(s: string)
  {
    |s| > 0 && forall i :: 0 <= i < |s| ==> IsDigit(s[i])
  }

  /** The regular expression `/^\d+-\d+$/` matches `s` (`$` without the `m` flag: end of input). */
  predicate MatchesScore(s: string)
  {
    exists i :: 0 <= i < |s| && s[i] == '-' && IsDigits(s[..i]) && IsDigits(s[i + 1..])
  }

  /** `Number(s)` for a string of decimal digits. */
  function DigitsValue(s: string): nat
    requires forall i :: 0 <= i < |s| ==> IsDigit(s[i])
  {
    if s == [] then 0
    else
      assert IsDigit(s[|s| - 1]);
      DigitsValue(s[..|s| - 1]) * 10 + (s[|s| - 1] as int - '0' as int)
  }

  /** A hyphen with only digits before it is the first hyphen. */
  lemma ScoreSplitsAtFirstHyphen(s: string, k: int)
    requires 0 <= k < |s| && s[k] == '-' && IsDigits(s[..k])
    ensures IndexOf(s, '-') == Some(k)
  {
    assert s[k] in s;
    var i := IndexOf(s, '-').value;
    assert forall j :: 0 <= j < k ==> s[..k][j] == s[j];
    assert forall j :: 0 <= j < i ==> s[..i][j] == s[j];
  }

  /**
   * The regular-expression test followed by `s.split('-').map(Number)`: the two
   * numbers of an "n-m" score, or None when `s` does not have that form.
   */
  function ParseScore(s: string): (r: Option<(nat, nat)>)
    ensures r.Some? <==> MatchesScore(s)
    ensures r.Some? ==> exists i :: 0 <= i < |s| && s[i] == '-' && IsDigits(s[..i]) && IsDigits(s[i + 1..])
                          && r.value == (DigitsValue(s[..i]), DigitsValue(s[i + 1..]))
  {
    match IndexOf(s, '-')
    case None => None
    case Some(i) =>
      if IsDigits(s[..i]) && IsDigits(s[i + 1..]) then
        Some((DigitsValue(s[..i]), DigitsValue(s[i + 1..])))
      else
        assert !MatchesScore(s) by {
          forall k | 0 <= k < |s| && s[k] == '-' && IsDigits(s[..k])
            ensures !IsDigits(s[k + 1..])
          {
            ScoreSplitsAtFirstHyphen(s, k);
          }
        }
        None
  }
}
