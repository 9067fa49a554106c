/**
 * The few Python string operations the pipeline relies on, over `seq<char>`.
 * Case mapping and digit tests are ASCII only.
 */
module Strings {
  import opened Wrappers

  /** `c.lower()` for ASCII letters. */
  function LowerChar(c: char): char {
    if 'A' <= c <= 'Z' then (c as int + 32) as char else c
  }

  /** `s.lower()`. */
  function Lower(s: string): (r: string)
    ensures |r| == |s|
    ensures forall i :: 0 <= i < |s| ==> r[i] == LowerChar(s[i])
  {
    if s == [] then [] else [LowerChar(s[0])] + Lower(s[1..])
  }

  predicate IsDigit(c: char) {
    '0' <= c <= '9'
  }

  /** `s.startswith(p)`. */
  predicate StartsWith(s: string, p: string) {
    |p| <= |s| && s[..|p|] == p
  }

  /** `s.endswith(p)`. */
  predicate EndsWith(s: string, p: string) {
    |p| <= |s| && s[|s| - |p|..] == p
  }

  /** `sub in s`. */
  predicate Contains(s: string, sub: string)
    decreases |s|
  {
    StartsWith(s, sub) || (|s| > 0 && Contains(s[1..], sub))
  }

  /** `s.replace(pat, "")`: leftmost, non-overlapping occurrences of `pat` are removed. */
  function RemoveAll(s: string, pat: string): (r: string)
    requires |pat| > 0
    ensures |r| <= |s|
    decreases |s|
  {
    if |s| < |pat| then s
    else if StartsWith(s, pat) then RemoveAll(s[|pat|..], pat)
    else [s[0]] + RemoveAll(s[1..], pat)
  }

  /** `s.replace(a, b)` for single characters. */
  function ReplaceChar(s: string, a: char, b: char): (r: string)
    ensures |r| == |s|
    ensures forall i :: 0 <= i < |s| ==> r[i] == (if s[i] == a then b else s[i])
  {
    if s == [] then [] else [if s[0] == a then b else s[0]] + ReplaceChar(s[1..], a, b)
  }

  /** `''.join(c for c in s if not c.isdigit())`. */
  function DropDigits(s: string): (r: string)
    ensures |r| <= |s|
    ensures forall i :: 0 <= i < |r| ==> !IsDigit(r[i])
  {
    if s == [] then [] else (if IsDigit(s[0]) then [] else [s[0]]) + DropDigits(s[1..])
  }

  /** `s.split(sep)[0]`: everything before the first occurrence of `sep`. */
  function BeforeFirst(s: string, sep: string): (r: string)
    requires |sep| > 0
    ensures StartsWith(s, r)
    decreases |s|
  {
    if s == [] || StartsWith(s, sep) then [] else [s[0]] + BeforeFirst(s[1..], sep)
  }

  /** Index of the first character of `s` that is in `stops`, or `|s|` when there is none. */
  function FirstOf(s: string, stops: set<char>): (k: nat)
    ensures k <= |s|
    ensures forall i :: 0 <= i < k ==> s[i] !in stops
    ensures k < |s| ==> s[k] in stops
  {
    if s == [] || s[0] in stops then 0 else 1 + FirstOf(s[1..], stops)
  }

  /** `s.rstrip(c)`. */
  function RStrip(s: string, c: char): (r: string)
    ensures StartsWith(s, r)
    ensures r == [] || r[|r| - 1] != c
    ensures forall i :: |r| <= i < |s| ==> s[i] == c
  {
    if s == [] then [] else if s[|s| - 1] == c then RStrip(s[..|s| - 1], c) else s
  }

  /** `c.isspace()`: the characters `str.strip()` removes. */
  predicate IsSpace(c: char) {
    || c == ' ' || ('\t' <= c <= '\r') || ('\U{1C}' <= c <= '\U{1F}')
    || c == '\U{85}' || c == '\U{A0}' || c == '\U{1680}' || ('\U{2000}' <= c <= '\U{200A}')
    || c == '\U{2028}' || c == '\U{2029}' || c == '\U{202F}' || c == '\U{205F}' || c == '\U{3000}'
  }

  function LStripSpace(s: string): (r: string)
    ensures |r| <= |s|
    ensures r == [] || !IsSpace(r[0])
  {
    if s != [] && IsSpace(s[0]) then LStripSpace(s[1..]) else s
  }

  function RStripSpace(s: string): (r: string)
    ensures |r| <= |s|
    ensures r == [] || !IsSpace(r[|r| - 1])
  {
    if s != [] && IsSpace(s[|s| - 1]) then RStripSpace(s[..|s| - 1]) else s
  }

  /** `s.strip()`. */
  function Strip(s: string): string {
    RStripSpace(LStripSpace(s))
  }

  /** `s` without the characters of `drop`, as the URL splitter discards tabs and line breaks. */
  function Without(s: string, drop: set<char>): (r: string)
    ensures |r| <= |s|
    ensures forall i :: 0 <= i < |r| ==> r[i] !in drop
  {
    if s == [] then [] else (if s[0] in drop then [] else [s[0]]) + Without(s[1..], drop)
  }

  /** Python truthiness of an optional string: present and non-empty. */
  predicate Truthy(s: Option<string>) {
    s.Some? && s.value != ""
  }

  /** The decimal digit for `d`. */
  function DigitChar(d: nat): char
    requires d < 10
  {
    ('0' as int + d) as char
  }

  /** `str(n)`: the decimal numeral of `n`. */
  function NatToString(n: nat): (s: string)
    ensures |s| > 0
    ensures forall i :: 0 <= i < |s| ==> IsDigit(s[i])
  {
    if n < 10 then [DigitChar(n)] else NatToString(n / 10) + [DigitChar(n % 10)]
  }

  /** The number a string of decimal digits denotes. */
  function DigitsValue(s: string): nat
    requires forall i :: 0 <= i < |s| ==> IsDigit(s[i])
  {
    if s == [] then 0
    else
      assert IsDigit(s[|s| - 1]);
      DigitsValue(s[..|s| - 1]) * 10 + (s[|s| - 1] as int - '0' as int)
  }

  // ---------------------------------------------------------------------------
  // Facts used by the models

  /** Reading back the numeral of `n` gives `n`. */
  lemma {:induction false} NatToStringValue(n: nat)
    ensures DigitsValue(NatToString(n)) == n
  {
    var s := NatToString(n);
    if n >= 10 {
      NatToStringValue(n / 10);
      assert s[..|s| - 1] == NatToString(n / 10);
    }
  }

  lemma ContainsShift(s: string, sub: string, k: nat)
    requires k <= |s|
    requires Contains(s[k..], sub)
    ensures Contains(s, sub)
    decreases k
  {
    if k > 0 {
      assert s[1..][k - 1..] == s[k..];
      ContainsShift(s[1..], sub, k - 1);
    }
  }

  /** A string that contains `sub` contains it at some index. */
  lemma ContainsAt(s: string, sub: string) returns (i: nat)
    requires Contains(s, sub)
    ensures i + |sub| <= |s| && s[i..i + |sub|] == sub
    decreases |s|
  {
    if StartsWith(s, sub) {
      i := 0;
    } else {
      var j := ContainsAt(s[1..], sub);
      i := j + 1;
      assert s[i..i + |sub|] == s[1..][j..j + |sub|];
    }
  }

  /** An occurrence at index `i` makes `s` contain `sub`. */
  lemma ContainsFromAt(s: string, sub: string, i: nat)
    requires i + |sub| <= |s| && s[i..i + |sub|] == sub
    ensures Contains(s, sub)
  {
    assert StartsWith(s[i..], sub) by {
      assert s[i..][..|sub|] == s[i..i + |sub|];
    }
    ContainsShift(s, sub, i);
  }

  /** A prefix of a string that does not contain `sub` does not contain it either. */
  lemma PrefixKeepsAbsence(s: string, p: string, sub: string)
    requires StartsWith(s, p)
    requires !Contains(s, sub)
    ensures !Contains(p, sub)
  {
    if Contains(p, sub) {
      var i := ContainsAt(p, sub);
      assert s[i..i + |sub|] == p[i..i + |sub|];
      ContainsFromAt(s, sub, i);
    }
  }

  /** The part before the first `sep` never contains `sep`. */
  lemma {:induction false} BeforeFirstAbsent(s: string, sep: string)
    requires |sep| > 0
    ensures !Contains(BeforeFirst(s, sep), sep)
    decreases |s|
  {
    if s == [] || StartsWith(s, sep) {
    } else {
      var t := BeforeFirst(s[1..], sep);
      BeforeFirstAbsent(s[1..], sep);
      var r := [s[0]] + t;
      assert r[1..] == t;
    }
  }

  /** A string without `sep` is its own part before `sep`. */
  lemma {:induction false} BeforeFirstNoOp(s: string, sep: string)
    requires |sep| > 0
    requires !Contains(s, sep)
    ensures BeforeFirst(s, sep) == s
    decreases |s|
  {
    if s != [] {
      BeforeFirstNoOp(s[1..], sep);
    }
  }

  /** `s.replace(pat, "")` on a string with no occurrence of `pat` changes nothing. */
  lemma {:induction false} RemoveAllNoOp(s: string, pat: string)
    requires |pat| > 0
    requires !Contains(s, pat)
    ensures RemoveAll(s, pat) == s
    decreases |s|
  {
    if |s| >= |pat| {
      RemoveAllNoOp(s[1..], pat);
      assert [s[0]] + s[1..] == s;
    }
  }

  lemma LowerOfLower(s: string)
    ensures Lower(Lower(s)) == Lower(s)
  {
    // pointwise: LowerChar is idempotent
    assert forall i :: 0 <= i < |s| ==> LowerChar(LowerChar(s[i])) == LowerChar(s[i]);
  }

  lemma LowerConcat(a: string, b: string)
    ensures Lower(a + b) == Lower(a) + Lower(b)
  {
    assert forall i :: 0 <= i < |a + b| ==> Lower(a + b)[i] == (Lower(a) + Lower(b))[i];
  }

  /** Removing a one-character pattern drops that character wherever it occurs. */
  lemma {:induction false} RemoveCharIsWithout(s: string, c: char)
    ensures RemoveAll(s, [c]) == Without(s, {c})
    decreases |s|
  {
    if s != [] {
      RemoveCharIsWithout(s[1..], c);
      if s[0] == c {
        assert StartsWith(s, [c]);
      } else {
        assert !StartsWith(s, [c]);
      }
    }
  }

  lemma {:induction false} WithoutTwice(s: string, a: set<char>, b: set<char>)
    ensures Without(Without(s, a), b) == Without(s, a + b)
  {
    if s != [] {
      WithoutTwice(s[1..], a, b);
      var head := if s[0] in a then [] else [s[0]];
      assert Without(s, a) == head + Without(s[1..], a);
      WithoutConcat(head, Without(s[1..], a), b);
      if s[0] !in a {
        assert head[1..] == [];
      }
    }
  }

  lemma {:induction false} WithoutConcat(x: string, y: string, drop: set<char>)
    ensures Without(x + y, drop) == Without(x, drop) + Without(y, drop)
  {
    if x != [] {
      assert (x + y)[1..] == x[1..] + y;
      WithoutConcat(x[1..], y, drop);
    } else {
      assert x + y == y;
    }
  }

  /** What `Without` keeps are characters of its input. */
  lemma {:induction false} WithoutFrom(s: string, drop: set<char>)
    ensures forall i :: 0 <= i < |Without(s, drop)| ==> Without(s, drop)[i] in s
  {
    if s != [] {
      WithoutFrom(s[1..], drop);
      var head := if s[0] in drop then [] else [s[0]];
      var r := Without(s[1..], drop);
      forall i | 0 <= i < |head + r|
        ensures (head + r)[i] in s
      {
        if i >= |head| {
          assert (head + r)[i] == r[i - |head|];
        }
      }
    }
  }

  /** Lower-cased text holds no upper-case ASCII letter. */
  lemma LowerHasNoUpper(s: string)
    ensures forall c :: c in Lower(s) ==> !('A' <= c <= 'Z')
  {
  }
}
