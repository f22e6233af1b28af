/** The handful of JavaScript string built-ins the dashboard relies on:
    `trim`, `toUpperCase`, `toLowerCase`, `endsWith`, `includes`,
    `replace` with a global literal pattern, `substring(0, n)`, and the
    decimal rendering of an integer inside a template literal. */
module JsString {

  /** The characters `String.prototype.trim` removes: ECMAScript's
      WhiteSpace and LineTerminator code points. */
  predicate IsWhitespace(c: char) {
    || c == ' ' || c == '\t' || c == '\n' || c == '\r'
    || c == '\U{B}' || c == '\U{C}' || c == '\U{A0}' || c == '\U{1680}'
    || ('\U{2000}' <= c <= '\U{200A}')
    || c == '\U{2028}' || c == '\U{2029}' || c == '\U{202F}' || c == '\U{205F}'
    || c == '\U{3000}' || c == '\U{FEFF}'
  }

  predicate IsLowerLetter(c: char) { 'a' <= c <= 'z' }

  predicate IsUpperLetter(c: char) { 'A' <= c <= 'Z' }

  /** Upper-casing of one character; only the ASCII letters are mapped. */
  function UpperChar(c: char): char {
    if IsLowerLetter(c) then (c as int - 32) as char else c
  }

  /** Lower-casing of one character; only the ASCII letters are mapped. */
  function LowerChar(c: char): char {
    if IsUpperLetter(c) then (c as int + 32) as char else c
  }

  /** `toUpperCase`: same length, and no lower-case letter is left. */
  function ToUpper(s: string): (r: string)
    ensures |r| == |s|
    ensures IsUpperCase(r)
  {
    seq(|s|, i requires 0 <= i < |s| => UpperChar(s[i]))
  }

  /** `toLowerCase`: same length, and no upper-case letter is left. */
  function ToLower(s: string): (r: string)
    ensures |r| == |s|
    ensures forall i :: 0 <= i < |r| ==> !IsUpperLetter(r[i])
  {
    seq(|s|, i requires 0 <= i < |s| => LowerChar(s[i]))
  }

  /** `s` has no lower-case ASCII letter. */
  predicate IsUpperCase(s: string) {
    forall i :: 0 <= i < |s| ==> !IsLowerLetter(s[i])
  }

  /** `s` neither starts nor ends with whitespace. */
  predicate IsTrimmed(s: string) {
    s == [] || (!IsWhitespace(s[0]) && !IsWhitespace(s[|s| - 1]))
  }

  /** Drops the leading whitespace: the result is a suffix of `s`, every
      dropped character is whitespace, and the result does not start with
      whitespace. */
  function TrimStart(s: string): (r: string)
    ensures |r| <= |s| && r == s[|s| - |r|..]
    ensures forall k :: 0 <= k < |s| - |r| ==> IsWhitespace(s[k])
    ensures r == [] || !IsWhitespace(r[0])
  {
    if |s| > 0 && IsWhitespace(s[0]) then
      var r := TrimStart(s[1..]);
      assert forall k :: 1 <= k < |s| - |r| ==> s[k] == s[1..][k - 1];
      r
    else s
  }

  /** Drops the trailing whitespace: the result is a prefix of `s`, every
      dropped character is whitespace, and the result does not end with
      whitespace. */
  function TrimEnd(s: string): (r: string)
    ensures |r| <= |s| && r == s[..|r|]
    ensures forall k :: |r| <= k < |s| ==> IsWhitespace(s[k])
    ensures r == [] || !IsWhitespace(r[|r| - 1])
  {
    if |s| > 0 && IsWhitespace(s[|s| - 1]) then
      var r := TrimEnd(s[..|s| - 1]);
      assert forall k :: |r| <= k < |s| - 1 ==> s[k] == s[..|s| - 1][k];
      r
    else s
  }

  /** `String.prototype.trim`. */
  function Trim(s: string): (r: string)
    ensures IsTrimmed(r)
    ensures |r| <= |s|
  {
    var u := TrimStart(s);
    var t := TrimEnd(u);
    assert t != [] ==> t[0] == u[..|t|][0] == u[0];
    t
  }

  /** Every character of `s` outside `s[i..j]` is whitespace. */
  predicate WhitespaceOutside(s: string, i: int, j: int) {
    forall k :: 0 <= k < |s| && (k < i || j <= k) ==> IsWhitespace(s[k])
  }

  /** `trim` keeps the middle of the string: its result is a slice `s[i..j]`
      outside of which every character is whitespace. With `IsTrimmed` this
      fixes the result: only the leading and trailing runs are dropped. */
  lemma TrimKeepsMiddle(s: string)
    ensures exists i, j :: 0 <= i <= j <= |s| && Trim(s) == s[i..j] && WhitespaceOutside(s, i, j)
  {
    var i, j := TrimBounds(s);
  }

  /** The bounds of the slice `Trim` keeps. */
  lemma TrimBounds(s: string) returns (i: int, j: int)
    ensures 0 <= i <= j <= |s| && Trim(s) == s[i..j] && WhitespaceOutside(s, i, j)
  {
    var u := TrimStart(s);
    var t := TrimEnd(u);
    assert Trim(s) == t;
    i, j := WhitespaceAround(s, u, t);
  }

  /** Dropping a whitespace run from the front of `s`, which leaves `u`, and
      then one from the back of `u`, which leaves `t`, keeps the slice `t` of
      `s` and drops only whitespace. */
  lemma WhitespaceAround(s: string, u: string, t: string) returns (i: int, j: int)
    requires |u| <= |s| && u == s[|s| - |u|..]
    requires forall k :: 0 <= k < |s| - |u| ==> IsWhitespace(s[k])
    requires |t| <= |u| && t == u[..|t|]
    requires forall k :: |t| <= k < |u| ==> IsWhitespace(u[k])
    ensures 0 <= i <= j <= |s| && t == s[i..j] && WhitespaceOutside(s, i, j)
  {
    i := |s| - |u|;
    j := i + |t|;
    forall k | j <= k < |s|
      ensures IsWhitespace(s[k])
    {
      assert s[k] == u[k - i];
    }
  }

  /** `String.prototype.endsWith`. */
  predicate EndsWith(s: string, suffix: string) {
    |suffix| <= |s| && s[|s| - |suffix|..] == suffix
  }

  /** `t` occurs in `s` starting at index `i`. */
  predicate OccursAt(s: string, t: string, i: int) {
    0 <= i && i + |t| <= |s| && s[i..i + |t|] == t
  }

  /** `String.prototype.includes`, written as the left-to-right search it
      performs; its contract relates it to the occurrence positions. */
  function Includes(s: string, t: string): (r: bool)
    ensures r <==> exists i :: OccursAt(s, t, i)
    decreases |s|
  {
    if |t| > |s| then
      assert forall i :: !OccursAt(s, t, i);
      false
    else if s[..|t|] == t then
      assert OccursAt(s, t, 0);
      true
    else
      var r := Includes(s[1..], t);
      assert r ==> exists i :: OccursAt(s, t, i) by {
        if r {
          var i :| OccursAt(s[1..], t, i);
          assert s[1..][i..i + |t|] == s[i + 1..i + 1 + |t|];
          assert OccursAt(s, t, i + 1);
        }
      }
      assert (exists i :: OccursAt(s, t, i)) ==> r by {
        if exists i :: OccursAt(s, t, i) {
          var i :| OccursAt(s, t, i);
          assert i != 0;
          assert s[1..][i - 1..i - 1 + |t|] == s[i..i + |t|];
          assert OccursAt(s[1..], t, i - 1);
        }
      }
      r
  }

  /** `s.replace(/pat/g, '')` for a literal pattern: the leftmost match is
      removed, scanning resumes right after it, and a position that does not
      start a match keeps its character. */
  function RemoveAll(s: string, pat: string): (r: string)
    requires pat != []
    ensures |r| <= |s|
    decreases |s|
  {
    if s == [] then []
    else if |pat| <= |s| && s[..|pat|] == pat then RemoveAll(s[|pat|..], pat)
    else [s[0]] + RemoveAll(s[1..], pat)
  }

  /** A global removal leaves the text unchanged exactly when the pattern
      does not occur in it, and otherwise makes it strictly shorter. */
  lemma {:induction false} RemoveAllChangesIffIncludes(s: string, pat: string)
    requires pat != []
    ensures RemoveAll(s, pat) == s <==> !Includes(s, pat)
    ensures Includes(s, pat) ==> |RemoveAll(s, pat)| < |s|
    decreases |s|
  {
    if s != [] && !(|pat| <= |s| && s[..|pat|] == pat) {
      RemoveAllChangesIffIncludes(s[1..], pat);
      assert Includes(s, pat) == Includes(s[1..], pat);
      assert !Includes(s, pat) ==> [s[0]] + RemoveAll(s[1..], pat) == s;
    }
  }

  /** `s.substring(0, n)` for `n >= 0`. */
  function Prefix(s: string, n: nat): (r: string)
    ensures r <= s
    ensures |r| == if |s| < n then |s| else n
  {
    if |s| <= n then s else s[..n]
  }

  predicate IsDigit(c: char) { '0' <= c <= '9' }

  predicate AllDigits(s: string) {
    forall i :: 0 <= i < |s| ==> IsDigit(s[i])
  }

  function DigitChar(d: nat): (c: char)
    requires d < 10
    ensures IsDigit(c) && c as int - '0' as int == d
  {
    (d + '0' as int) as char
  }

  /** The decimal digits JavaScript prints for a non-negative integer below
      10^21 (larger ones are printed in exponent notation): never empty,
      digits only, and no leading zero unless the number is 0. */
  function Decimal(n: nat): (r: string)
    ensures r != [] && AllDigits(r)
    ensures r[0] == '0' ==> n == 0
    decreases n
  {
    if n < 10 then [DigitChar(n)] else Decimal(n / 10) + [DigitChar(n % 10)]
  }

  /** The number a string of decimal digits denotes (the reading direction
      of `Decimal`). */
  function DigitsValue(s: string): nat
    requires AllDigits(s)
  {
    if s == [] then 0
    else DigitsValue(s[..|s| - 1]) * 10 + (s[|s| - 1] as int - '0' as int)
  }

  /** `${i}` for an integer `i`: a minus sign exactly for a negative
      number, followed by the decimal digits of its magnitude. */
  function IntToString(i: int): (r: string)
    ensures r != []
    ensures r[0] == '-' <==> i < 0
  {
    if i < 0 then "-" + Decimal(-i) else Decimal(i)
  }

  // ---------------------------------------------------------------------
  // Lemmas

  /** The printed integer reads back, sign included. */
  lemma IntToStringRoundTrip(i: int)
    ensures i >= 0 ==> AllDigits(IntToString(i)) && DigitsValue(IntToString(i)) == i
    ensures i < 0 ==> AllDigits(IntToString(i)[1..]) && DigitsValue(IntToString(i)[1..]) == -i
  {
    if i >= 0 {
      DecimalRoundTrip(i);
    } else {
      assert IntToString(i)[1..] == Decimal(-i);
      DecimalRoundTrip(-i);
    }
  }

  /** Reading back the digits `Decimal` prints gives the number again. */
  lemma {:induction false} DecimalRoundTrip(n: nat)
    ensures DigitsValue(Decimal(n)) == n
    decreases n
  {
    if n >= 10 {
      var d := Decimal(n / 10);
      DecimalRoundTrip(n / 10);
      assert (d + [DigitChar(n % 10)])[..|d|] == d;
    }
  }

  lemma UpperCharWhitespace(c: char)
    ensures IsWhitespace(UpperChar(c)) == IsWhitespace(c)
  {
  }

  /** Upper-casing commutes with dropping leading whitespace. */
  lemma {:induction false} TrimStartUpper(s: string)
    ensures TrimStart(ToUpper(s)) == ToUpper(TrimStart(s))
    decreases |s|
  {
    if |s| > 0 {
      UpperCharWhitespace(s[0]);
      if IsWhitespace(s[0]) {
        assert ToUpper(s)[1..] == ToUpper(s[1..]);
        TrimStartUpper(s[1..]);
      }
    }
  }

  /** Upper-casing commutes with dropping trailing whitespace. */
  lemma {:induction false} TrimEndUpper(s: string)
    ensures TrimEnd(ToUpper(s)) == ToUpper(TrimEnd(s))
    decreases |s|
  {
    if |s| > 0 {
      UpperCharWhitespace(s[|s| - 1]);
      if IsWhitespace(s[|s| - 1]) {
        assert ToUpper(s)[..|s| - 1] == ToUpper(s[..|s| - 1]);
        TrimEndUpper(s[..|s| - 1]);
      }
    }
  }

  /** Upper-casing commutes with `trim`. */
  lemma TrimUpper(s: string)
    ensures Trim(ToUpper(s)) == ToUpper(Trim(s))
  {
    TrimStartUpper(s);
    TrimEndUpper(TrimStart(s));
  }

  /** A string that neither starts nor ends with whitespace is left alone by
      `trim`. */
  lemma TrimOfTrimmed(s: string)
    requires IsTrimmed(s)
    ensures Trim(s) == s
  {
  }

  lemma ToUpperIdempotent(s: string)
    ensures ToUpper(ToUpper(s)) == ToUpper(s)
  {
  }

  /** Upper-casing after lower-casing equals upper-casing alone. */
  lemma UpperOfLower(s: string)
    ensures ToUpper(ToLower(s)) == ToUpper(s)
  {
  }

  /** Lower-casing after upper-casing equals lower-casing alone. */
  lemma LowerOfUpper(s: string)
    ensures ToLower(ToUpper(s)) == ToLower(s)
  {
  }

  lemma ToLowerIdempotent(s: string)
    ensures ToLower(ToLower(s)) == ToLower(s)
  {
  }

  /** A leading occurrence of the pattern is dropped. */
  lemma RemoveAllLeading(pat: string, rest: string)
    requires pat != []
    ensures RemoveAll(pat + rest, pat) == RemoveAll(rest, pat)
  {
    assert (pat + rest)[..|pat|] == pat;
    assert (pat + rest)[|pat|..] == rest;
  }

  /** A prefix that cannot start a match (it lacks the pattern's first
      character) survives a global removal untouched. */
  lemma {:induction false} RemoveAllAppend(a: string, b: string, pat: string)
    requires pat != []
    requires forall i :: 0 <= i < |a| ==> a[i] != pat[0]
    ensures RemoveAll(a + b, pat) == a + RemoveAll(b, pat)
    decreases |a|
  {
    if a != [] {
      assert (a + b)[0] == a[0] != pat[0];
      assert (a + b)[1..] == a[1..] + b;
      RemoveAllAppend(a[1..], b, pat);
    } else {
      assert a + b == b;
    }
  }

  /** A string without the pattern's first character is unchanged by a
      global removal. */
  lemma RemoveAllUntouched(s: string, pat: string)
    requires pat != []
    requires forall i :: 0 <= i < |s| ==> s[i] != pat[0]
    ensures RemoveAll(s, pat) == s
  {
    RemoveAllAppend(s, [], pat);
    assert s + [] == s;
  }

  /** A string that lacks the first character of `t` contains no
      occurrence of `t`. */
  lemma NoOccurrenceWithoutFirstChar(s: string, t: string)
    requires t != []
    requires forall i :: 0 <= i < |s| ==> s[i] != t[0]
    ensures !Includes(s, t)
  {
    forall i | 0 <= i && i + |t| <= |s|
      ensures !OccursAt(s, t, i)
    {
      assert s[i..i + |t|][0] == s[i];
    }
  }
}
