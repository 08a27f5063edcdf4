/**
 * The JavaScript string built-ins the script relies on: `trim`,
 * `toLowerCase`, `includes`, the relational string operators and
 * `Number(string)`, each on `string` (a sequence of Unicode scalar values).
 */
module Text {
  import opened Util

  /** The characters `String.prototype.trim` strips: WhiteSpace and LineTerminator of ECMA-262. */
  predicate IsSpace(c: char)
  {
    || c == ' ' || c == '\t' || c == '\n' || c == '\r'
    || c == '\U{000B}' || c == '\U{000C}' || c == '\U{00A0}' || c == '\U{1680}'
    || ('\U{2000}' <= c <= '\U{200A}')
    || c == '\U{2028}' || c == '\U{2029}' || c == '\U{202F}' || c == '\U{205F}'
    || c == '\U{3000}' || c == '\U{FEFF}'
  }

  ghost predicate AllSpace(s: string)
  {
    forall i :: 0 <= i < |s| ==> IsSpace(s[i])
  }

  /** The first position at or after `i` that does not hold white space (`|s|` if none does). */
  function SkipSpace(s: string, i: nat): (j: nat)
    requires i <= |s|
    ensures i <= j <= |s|
    ensures forall m :: i <= m < j ==> IsSpace(s[m])
    ensures j == |s| || !IsSpace(s[j])
    decreases |s| - i
  {
    if i < |s| && IsSpace(s[i]) then SkipSpace(s, i + 1) else i
  }

  /** The end of `s[lo..j]` once its trailing white space is dropped. */
  function SkipSpaceBack(s: string, lo: nat, j: nat): (e: nat)
    requires lo <= j <= |s|
    ensures lo <= e <= j
    ensures forall m :: e <= m < j ==> IsSpace(s[m])
    ensures e == lo || !IsSpace(s[e - 1])
    decreases j
  {
    if lo < j && IsSpace(s[j - 1]) then SkipSpaceBack(s, lo, j - 1) else j
  }

  /** Where the trimmed text starts: the number of leading white-space characters. */
  function TrimOffset(s: string): (k: nat)
    ensures k <= |s|
  {
    SkipSpace(s, 0)
  }

  /** `String.prototype.trim`: the input without its leading and trailing white space. */
  function Trim(s: string): (r: string)
    ensures r == [] <==> AllSpace(s)
    ensures r == [] || (!IsSpace(r[0]) && !IsSpace(r[|r| - 1]))
  {
    var k := SkipSpace(s, 0);
    var e := SkipSpaceBack(s, k, |s|);
    assert e > k ==> !AllSpace(s) by {
      if e > k {
        assert !IsSpace(s[k]);
      }
    }
    s[k..e]
  }

  /**
   * What trimming keeps is a slice of the input, preceded and followed only by white space
   * (with `Trim`'s own contract: the longest slice that neither starts nor ends with it).
   */
  lemma TrimSlice(s: string)
    ensures var r := Trim(s); var k := TrimOffset(s);
      k + |r| <= |s| && r == s[k..k + |r|] && AllSpace(s[..k]) && AllSpace(s[k + |r|..])
  {
    var k := SkipSpace(s, 0);
    var e := SkipSpaceBack(s, k, |s|);
    assert Trim(s) == s[k..e];
    assert forall m :: 0 <= m < |s[e..]| ==> s[e..][m] == s[e + m];
  }

  /** A string that neither starts nor ends with white space is its own trim. */
  lemma TrimKeepsUnpadded(s: string)
    requires s == [] || (!IsSpace(s[0]) && !IsSpace(s[|s| - 1]))
    ensures Trim(s) == s
  {
    assert SkipSpace(s, 0) == 0;
    assert SkipSpaceBack(s, 0, |s|) == |s|;
  }

  /** Upper-case letters of Basic Latin and Latin-1 (A-Z, À-Þ without ×). */
  predicate IsUpper(c: char)
  {
    ('A' <= c <= 'Z') || ('\U{00C0}' <= c <= '\U{00DE}' && c != '\U{00D7}')
  }

  function LowerChar(c: char): (r: char)
    ensures !IsUpper(r)
    ensures !IsUpper(c) ==> r == c
    ensures IsUpper(c) ==> r as int == c as int + 32
  {
    if IsUpper(c) then (c as int + 32) as char else c
  }

  /** `String.prototype.toLowerCase`, restricted to Basic Latin and Latin-1 letters. */
  function Lower(s: string): (r: string)
    ensures |r| == |s|
    ensures forall i :: 0 <= i < |r| ==> !IsUpper(r[i])
    ensures forall i :: 0 <= i < |r| ==> if IsUpper(s[i]) then r[i] as int == s[i] as int + 32 else r[i] == s[i]
  {
    seq(|s|, i requires 0 <= i < |s| => LowerChar(s[i]))
  }

  /** `String.prototype.includes`: `t` occurs somewhere in `s` (the empty string occurs everywhere). */
  function Includes(s: string, t: string): (r: bool)
    ensures r <==> exists i :: 0 <= i <= |s| && t <= s[i..]
  {
    if t <= s then
      assert t <= s[0..];
      true
    else if s == [] then false
    else
      var r := Includes(s[1..], t);
      assert r ==> exists i :: 0 <= i <= |s| && t <= s[i..] by {
        if r {
          var i :| 0 <= i <= |s[1..]| && t <= s[1..][i..];
          assert s[1..][i..] == s[i + 1..];
        }
      }
      assert (exists i :: 0 <= i <= |s| && t <= s[i..]) ==> r by {
        if exists i :: 0 <= i <= |s| && t <= s[i..] {
          var i :| 0 <= i <= |s| && t <= s[i..];
          assert i != 0;
          assert s[1..][i - 1..] == s[i..];
        }
      }
      r
  }

  /** The order of JavaScript's `<` on strings: lexicographic by character. */
  predicate LexLess(a: string, b: string)
  {
    if a == [] then b != []
    else if b == [] then false
    else if a[0] != b[0] then a[0] < b[0]
    else LexLess(a[1..], b[1..])
  }

  lemma {:induction false} LexLessTrichotomy(a: string, b: string)
    ensures !(LexLess(a, b) && LexLess(b, a))
    ensures a == b || LexLess(a, b) || LexLess(b, a)
    ensures a == b ==> !LexLess(a, b)
  {
    if a != [] && b != [] && a[0] == b[0] {
      LexLessTrichotomy(a[1..], b[1..]);
      assert a == [a[0]] + a[1..] && b == [b[0]] + b[1..];
    }
  }

  lemma {:induction false} LexLessTransitive(a: string, b: string, c: string)
    requires LexLess(a, b) && LexLess(b, c)
    ensures LexLess(a, c)
  {
    if a != [] && a[0] == b[0] && b[0] == c[0] {
      LexLessTransitive(a[1..], b[1..], c[1..]);
    }
  }

  /** `va > vb ? 1 : va < vb ? -1 : 0` on strings. */
  function StrOrder(a: string, b: string): (r: int)
    ensures -1 <= r <= 1
    ensures r == 0 <==> a == b
    ensures r < 0 <==> LexLess(a, b)
  {
    LexLessTrichotomy(a, b);
    if LexLess(b, a) then 1 else if LexLess(a, b) then -1 else 0
  }

  predicate IsDigit(c: char) { '0' <= c <= '9' }

  predicate AllDigits(s: string) { forall i :: 0 <= i < |s| ==> IsDigit(s[i]) }

  /** The value of a string of decimal digits. */
  function DigitsValue(s: string): (n: nat)
    requires AllDigits(s)
  {
    if s == [] then 0 else DigitsValue(s[..|s| - 1]) * 10 + (s[|s| - 1] as int - '0' as int)
  }

  /**
   * `Number(s)` when the result is finite, for the forms modelled here:
   * surrounding white space, then nothing (which is 0) or an optional sign and decimal digits.
   */
  function NumberValue(s: string): Option<int>
  {
    var t := Trim(s);
    if t == [] then Some(0)
    else if AllDigits(t) then Some(DigitsValue(t))
    else if |t| > 1 && t[0] == '+' && AllDigits(t[1..]) then Some(DigitsValue(t[1..]))
    else if |t| > 1 && t[0] == '-' && AllDigits(t[1..]) then Some(-(DigitsValue(t[1..]) as int))
    else None
  }

  /** Blank text is the number 0. */
  lemma NumberValueOfBlank(s: string)
    requires AllSpace(s)
    ensures NumberValue(s) == Some(0)
  {
  }

  /** A run of decimal digits is the number they spell. */
  lemma NumberValueOfDigits(s: string)
    requires AllDigits(s) && s != []
    ensures NumberValue(s) == Some(DigitsValue(s))
  {
    TrimKeepsUnpadded(s);
  }

  /** A trimmed text that is neither signed nor all digits has no finite value. */
  lemma NumberValueOfWord(s: string)
    requires Trim(s) == s && s != [] && !AllDigits(s) && s[0] != '+' && s[0] != '-'
    ensures NumberValue(s) == None
  {
  }
}
