/** The id slug `s.replace(/\s/g, '_')`: every character of the JavaScript
    whitespace class `\s` becomes an underscore, everything else stays. */
module Slugs {

  /** JavaScript's `\s`: the ECMAScript WhiteSpace and LineTerminator code points. */
  predicate IsWhitespace(c: char) {
    c == '\t' || c == '\n' || c == '\U{000B}' || c == '\U{000C}' || c == '\r' || c == ' '
    || c == '\U{00A0}' || c == '\U{1680}' || ('\U{2000}' <= c <= '\U{200A}')
    || c == '\U{2028}' || c == '\U{2029}' || c == '\U{202F}' || c == '\U{205F}'
    || c == '\U{3000}' || c == '\U{FEFF}'
  }

  predicate NoWhitespace(s: string) {
    forall i :: 0 <= i < |s| ==> !IsWhitespace(s[i])
  }

  /** `s.replace(/\s/g, '_')`. */
  function Slug(s: string): (r: string)
    ensures |r| == |s|
    ensures forall i :: 0 <= i < |s| ==> r[i] == (if IsWhitespace(s[i]) then '_' else s[i])
  {
    if s == [] then []
    else [if IsWhitespace(s[0]) then '_' else s[0]] + Slug(s[1..])
  }

  /** The slug contains no whitespace, and every non-whitespace character is kept in place. */
  lemma SlugShape(s: string)
    ensures NoWhitespace(Slug(s))
    ensures forall i :: 0 <= i < |s| && !IsWhitespace(s[i]) ==> Slug(s)[i] == s[i]
    ensures forall i :: 0 <= i < |s| && IsWhitespace(s[i]) ==> Slug(s)[i] == '_'
  {
  }

  /** Slugging works character by character, so it distributes over concatenation. */
  lemma {:induction false} SlugAppend(a: string, b: string)
    ensures Slug(a + b) == Slug(a) + Slug(b)
  {
    if a != [] {
      calc {
        Slug(a + b);
        [if IsWhitespace(a[0]) then '_' else a[0]] + Slug((a + b)[1..]);
        { assert (a + b)[1..] == a[1..] + b; SlugAppend(a[1..], b); }
        [if IsWhitespace(a[0]) then '_' else a[0]] + (Slug(a[1..]) + Slug(b));
      }
    } else {
      assert a + b == b;
    }
  }

  /** A string without whitespace is its own slug. */
  lemma {:induction false} SlugOfClean(s: string)
    requires NoWhitespace(s)
    ensures Slug(s) == s
  {
    if s != [] {
      SlugOfClean(s[1..]);
    }
  }

  /** Different tails after a common prefix give different strings. */
  lemma PrefixDistinct(p: string, a: string, b: string)
    requires a != b
    ensures p + a != p + b
  {
    if |a| == |b| {
      var k :| 0 <= k < |a| && a[k] != b[k];
      assert (p + a)[|p| + k] == a[k];
      assert (p + b)[|p| + k] == b[k];
    }
  }

  /** Slugging a template slugs only the interpolated name: the literal parts
      have no whitespace. */
  lemma SlugTemplate(prefix: string, name: string, suffix: string)
    requires NoWhitespace(prefix) && NoWhitespace(suffix)
    ensures Slug(prefix + name + suffix) == prefix + Slug(name) + suffix
  {
    SlugAppend(prefix + name, suffix);
    SlugAppend(prefix, name);
    SlugOfClean(prefix);
    SlugOfClean(suffix);
  }

  /** Slugging loses the difference between a whitespace character and an
      underscore, so two different names can share an id. */
  lemma SlugNotInjective()
    ensures "a b" != "a_b" && Slug("a b") == Slug("a_b")
  {
    assert "a b"[1] != "a_b"[1];
    assert IsWhitespace("a b"[1]);
    assert Slug("a b") == "a_b";
    SlugOfClean("a_b");
  }
}
