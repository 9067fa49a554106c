/**
 * The part of the standard URL splitter (`urllib.parse.urlsplit`) the pipeline relies on:
 * the network location and the path of a URL. The query, fragment and scheme are split off
 * and not kept.
 */
module Urls {
  import opened Strings

  /** The characters the splitter discards anywhere in a URL. */
  const UnsafeUrlChars: set<char> := {'\t', '\r', '\n'}

  predicate IsAsciiLetter(c: char) {
    ('a' <= c <= 'z') || ('A' <= c <= 'Z')
  }

  predicate IsSchemeChar(c: char) {
    IsAsciiLetter(c) || IsDigit(c) || c == '+' || c == '-' || c == '.'
  }

  /** C0 control characters and the space, which the splitter strips from the front. */
  predicate IsControlOrSpace(c: char) {
    c <= ' '
  }

  function LStripControl(s: string): (r: string)
    ensures |r| <= |s|
  {
    if s != [] && IsControlOrSpace(s[0]) then LStripControl(s[1..]) else s
  }

  /** The network location and path of a URL. */
  datatype UrlParts = UrlParts(netloc: string, path: string)

  /** What follows the scheme and its ':' (the whole URL when it has no valid scheme). */
  function AfterScheme(u: string): (rest: string)
    ensures |rest| <= |u|
  {
    var i := FirstOf(u, {':'});
    if 0 < i < |u| && IsAsciiLetter(u[0]) && (forall k :: 0 <= k < i ==> IsSchemeChar(u[k]))
    then u[i + 1..]
    else u
  }

  /** The path: what remains once the fragment ('#...') and then the query ('?...') are cut off. */
  function PathOf(s: string): string {
    BeforeFirst(BeforeFirst(s, "#"), "?")
  }

  /** Splits what follows the scheme: an authority introduced by "//" runs up to the first '/', '?' or '#'. */
  function SplitRest(rest: string): UrlParts {
    if StartsWith(rest, "//") then
      var body := rest[2..];
      var d := FirstOf(body, {'/', '?', '#'});
      UrlParts(body[..d], PathOf(body[d..]))
    else
      UrlParts("", PathOf(rest))
  }

  /** `urlsplit(u)`, as far as its network location and path go. */
  function SplitUrl(u: string): UrlParts {
    SplitRest(AfterScheme(Without(LStripControl(u), UnsafeUrlChars)))
  }

  // ---------------------------------------------------------------------------
  // Well-formed URLs

  predicate Avoids(s: string, stops: set<char>) {
    forall i :: 0 <= i < |s| ==> s[i] !in stops
  }

  /** A valid scheme: a letter, then letters, digits, '+', '-' or '.'. */
  predicate IsScheme(s: string) {
    |s| > 0 && IsAsciiLetter(s[0]) && forall k :: 0 <= k < |s| ==> IsSchemeChar(s[k])
  }

  /** A query or fragment part: empty, or introduced by '?' or '#'. */
  predicate IsTail(q: string) {
    q == [] || q[0] == '?' || q[0] == '#'
  }

  /** A string with no control characters, blanks or upper-case letters. */
  predicate Plain(s: string) {
    forall i :: 0 <= i < |s| ==> s[i] > ' ' && !('A' <= s[i] <= 'Z') && !IsSpace(s[i])
  }

  lemma PlainConcat(a: string, b: string)
    requires Plain(a) && Plain(b)
    ensures Plain(a + b)
  {
    forall i | 0 <= i < |a + b|
      ensures (a + b)[i] > ' ' && !('A' <= (a + b)[i] <= 'Z') && !IsSpace((a + b)[i])
    {
      if i >= |a| {
        assert (a + b)[i] == b[i - |a|];
      }
    }
  }

  lemma AvoidsConcat(a: string, b: string, stops: set<char>)
    requires Avoids(a, stops) && Avoids(b, stops)
    ensures Avoids(a + b, stops)
  {
    forall i | 0 <= i < |a + b|
      ensures (a + b)[i] !in stops
    {
      if i >= |a| {
        assert (a + b)[i] == b[i - |a|];
      }
    }
  }

  lemma PlainLower(s: string)
    requires Plain(s)
    ensures Lower(s) == s
  {
  }

  /** Lower-casing, stripping and the splitter's clean-up leave a plain string as it is. */
  lemma PlainIsFixed(s: string)
    requires Plain(s)
    ensures Strip(Lower(s)) == s
    ensures Without(LStripControl(s), UnsafeUrlChars) == s
  {
    assert Lower(s) == s;
    assert LStripSpace(s) == s;
    assert RStripSpace(s) == s;
    assert LStripControl(s) == s;
    WithoutNoOp(s, UnsafeUrlChars);
  }

  lemma {:induction false} WithoutNoOp(s: string, drop: set<char>)
    requires Avoids(s, drop)
    ensures Without(s, drop) == s
  {
    if s != [] {
      WithoutNoOp(s[1..], drop);
      assert [s[0]] + s[1..] == s;
    }
  }

  lemma {:induction false} BeforeFirstCharConcat(a: string, b: string, c: char)
    requires Avoids(a, {c})
    ensures BeforeFirst(a + b, [c]) == a + BeforeFirst(b, [c])
  {
    if a == [] {
      assert a + b == b;
    } else {
      assert (a + b)[1..] == a[1..] + b;
      BeforeFirstCharConcat(a[1..], b, c);
      assert [a[0]] + (a[1..] + BeforeFirst(b, [c])) == a + BeforeFirst(b, [c]);
    }
  }

  lemma {:induction false} FirstOfConcat(a: string, b: string, stops: set<char>)
    requires Avoids(a, stops)
    requires b == [] || b[0] in stops
    ensures FirstOf(a + b, stops) == |a|
  {
    if a == [] {
      assert a + b == b;
    } else {
      assert (a + b)[1..] == a[1..] + b;
      FirstOfConcat(a[1..], b, stops);
    }
  }

  /** The path part of `p + q` is `p` when `p` has no '?' or '#' and `q` is a query or fragment. */
  lemma PathOfConcat(p: string, q: string)
    requires Avoids(p, {'?', '#'})
    requires IsTail(q)
    ensures PathOf(p + q) == p
  {
    BeforeFirstCharConcat(p, q, '#');
    var q' := BeforeFirst(q, "#");
    if q != [] && q[0] == '#' {
      assert StartsWith(q, "#");
      assert q' == [];
    } else if q != [] {
      assert q' == [q[0]] + BeforeFirst(q[1..], "#");
    }
    BeforeFirstCharConcat(p, q', '?');
    assert q' == [] || StartsWith(q', "?");
    assert BeforeFirst(q', "?") == [];
    assert p + [] == p;
  }

  /** A valid scheme followed by ':' is cut off together with the ':'. */
  lemma AfterSchemeOf(scheme: string, rest: string)
    requires IsScheme(scheme)
    requires rest != [] && rest[0] == ':'
    ensures AfterScheme(scheme + rest) == rest[1..]
  {
    var u := scheme + rest;
    assert Avoids(scheme, {':'});
    FirstOfConcat(scheme, rest, {':'});
    assert forall k :: 0 <= k < |scheme| ==> u[k] == scheme[k];
    assert u[|scheme| + 1..] == rest[1..];
  }

  /** After "//", the host runs up to the path, and the query or fragment is dropped. */
  lemma SplitRestOf(host: string, path: string, tail: string)
    requires Avoids(host, {'/', '?', '#'})
    requires path == [] || path[0] == '/'
    requires Avoids(path, {'?', '#'})
    requires IsTail(tail)
    ensures SplitRest("//" + host + path + tail) == UrlParts(host, path)
  {
    var rest := "//" + host + path + tail;
    assert StartsWith(rest, "//");
    var body := rest[2..];
    var pt := path + tail;
    assert body == host + pt;
    assert pt == [] || pt[0] in {'/', '?', '#'};
    FirstOfConcat(host, pt, {'/', '?', '#'});
    assert body[..|host|] == host;
    assert body[|host|..] == pt;
    PathOfConcat(path, tail);
  }

  lemma UrlShape(scheme: string, host: string, path: string, tail: string)
    ensures scheme + "://" + host + path + tail == scheme + ("://" + host + path + tail)
    ensures ("://" + host + path + tail)[1..] == "//" + host + path + tail
  {
  }

  /** A plain, well-formed "scheme://host/path?query" splits into its host and path. */
  lemma SplitUrlOf(scheme: string, host: string, path: string, tail: string)
    requires IsScheme(scheme) && Plain(scheme) && Plain(host) && Plain(path) && Plain(tail)
    requires Avoids(host, {'/', '?', '#'})
    requires path == [] || path[0] == '/'
    requires Avoids(path, {'?', '#'})
    requires IsTail(tail)
    ensures Plain(scheme + "://" + host + path + tail)
    ensures SplitUrl(scheme + "://" + host + path + tail) == UrlParts(host, path)
  {
    var rest := "://" + host + path + tail;
    var url := scheme + rest;
    UrlShape(scheme, host, path, tail);
    assert Plain("://");
    PlainConcat("://", host);
    PlainConcat("://" + host, path);
    PlainConcat("://" + host + path, tail);
    PlainConcat(scheme, rest);
    PlainIsFixed(url);
    AfterSchemeOf(scheme, rest);
    SplitRestOf(host, path, tail);
  }
}
