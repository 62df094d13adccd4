/** Character classes, case mapping and substring tests on `string` (a `seq<char>`),
    written out by hand so that the regular-expression predicates of module Patterns
    and the plain substring tests of the analyzer can be stated and reasoned about. */
module Strings {

  datatype Option<+T> = None | Some(value: T)

  /** Python truthiness of an optional string: `None` and `""` are both false. */
  predicate Truthy(o: Option<string>) {
    o.Some? && o.value != ""
  }

  predicate IsDigit(c: char) { '0' <= c <= '9' }

  predicate IsAsciiLetter(c: char) { 'a' <= c <= 'z' || 'A' <= c <= 'Z' }

  /** The regular-expression class `\w`, restricted to ASCII. */
  predicate IsWordChar(c: char) { IsDigit(c) || IsAsciiLetter(c) || c == '_' }

  /** The regular-expression class `\s` on the ASCII range: space, tab, line feed,
      vertical tab, form feed, carriage return and the four separators U+001C to U+001F. */
  predicate IsSpace(c: char) { c == ' ' || '\t' <= c <= '\r' || '\U{1C}' <= c <= '\U{1F}' }

  predicate IsQuote(c: char) { c == '"' || c == '\'' }

  predicate AllDigits(s: string) { forall i :: 0 <= i < |s| ==> IsDigit(s[i]) }

  predicate AllSpace(s: string) { forall i :: 0 <= i < |s| ==> IsSpace(s[i]) }

  function LowerChar(c: char): (r: char)
    ensures !('A' <= r <= 'Z')
    ensures !('A' <= c <= 'Z') ==> r == c
  {
    if 'A' <= c <= 'Z' then (c as int + 32) as char else c
  }

  function UpperChar(c: char): (r: char)
    ensures !('a' <= r <= 'z')
    ensures !('a' <= c <= 'z') ==> r == c
  {
    if 'a' <= c <= 'z' then (c as int - 32) as char else c
  }

  /** `str.lower()`, restricted to ASCII letters. */
  function Lower(s: string): (r: string)
    ensures |r| == |s|
    ensures forall i :: 0 <= i < |s| ==> r[i] == LowerChar(s[i])
  {
    seq(|s|, i requires 0 <= i < |s| => LowerChar(s[i]))
  }

  /** `str.upper()`, restricted to ASCII letters. */
  function Upper(s: string): (r: string)
    ensures |r| == |s|
    ensures forall i :: 0 <= i < |s| ==> r[i] == UpperChar(s[i])
  {
    seq(|s|, i requires 0 <= i < |s| => UpperChar(s[i]))
  }

  /** `sub` occurs in `s` starting at index `k`. */
  predicate OccursAt(s: string, sub: string, k: int) {
    0 <= k && k + |sub| <= |s| && s[k..k + |sub|] == sub
  }

  /** Python's `sub in s` on strings. */
  predicate Contains(s: string, sub: string) {
    exists k :: 0 <= k <= |s| - |sub| && OccursAt(s, sub, k)
  }

  predicate StartsWith(s: string, prefix: string) {
    |prefix| <= |s| && s[..|prefix|] == prefix
  }

  predicate EndsWith(s: string, suffix: string) {
    |suffix| <= |s| && s[|s| - |suffix|..] == suffix
  }

  /** Python's `sep.join(xs)`. */
  function Join(xs: seq<string>, sep: string): string
  {
    if |xs| == 0 then ""
    else if |xs| == 1 then xs[0]
    else xs[0] + sep + Join(xs[1..], sep)
  }

  function DigitChar(d: nat): char
    requires d < 10
  {
    ('0' as int + d) as char
  }

  /** `str(n)` for a natural number. */
  function NatToString(n: nat): (r: string)
    ensures |r| > 0 && AllDigits(r)
  {
    if n < 10 then [DigitChar(n)] else NatToString(n / 10) + [DigitChar(n % 10)]
  }

  /** Different numbers have different decimal forms. */
  lemma {:induction false} NatToStringInjective(n: nat, m: nat)
    requires NatToString(n) == NatToString(m)
    ensures n == m
  {
    if n >= 10 && m >= 10 {
      var a, b := NatToString(n), NatToString(m);
      assert a[..|a| - 1] == NatToString(n / 10) && b[..|b| - 1] == NatToString(m / 10);
      NatToStringInjective(n / 10, m / 10);
      assert DigitChar(n % 10) == a[|a| - 1] == b[|b| - 1] == DigitChar(m % 10);
    }
  }

  lemma ContainsAt(s: string, sub: string, k: int)
    requires OccursAt(s, sub, k)
    ensures Contains(s, sub)
  {
  }

  /** An occurrence in a part is an occurrence in the whole. */
  lemma ContainsInMiddle(a: string, b: string, c: string, sub: string)
    requires Contains(b, sub)
    ensures Contains(a + b + c, sub)
  {
    var k :| 0 <= k <= |b| - |sub| && OccursAt(b, sub, k);
    assert (a + b + c)[|a| + k..|a| + k + |sub|] == b[k..k + |sub|];
    assert OccursAt(a + b + c, sub, |a| + k);
  }

  /** A string appended lies at the end of what came before. */
  lemma OccursAtEnd(a: string, sub: string)
    ensures OccursAt(a + sub, sub, |a|)
  {
    assert (a + sub)[|a|..|a| + |sub|] == sub;
  }

  /** Appending keeps an occurrence where it was. */
  lemma OccursInPrefix(a: string, b: string, sub: string, k: int)
    requires OccursAt(a, sub, k)
    ensures OccursAt(a + b, sub, k)
  {
    assert (a + b)[k..k + |sub|] == a[k..k + |sub|];
  }

  /** Prepending moves an occurrence along by the length of what is prepended. */
  lemma OccursShift(pre: string, s: string, sub: string, k: int)
    requires OccursAt(s, sub, k)
    ensures OccursAt(pre + s, sub, |pre| + k)
  {
    assert (pre + s)[|pre| + k..|pre| + k + |sub|] == s[k..k + |sub|];
  }

  /** The texts `f` gives for the elements of `xs`, one after another. */
  function ConcatMap<X>(xs: seq<X>, f: X -> string): string
  {
    if xs == [] then "" else ConcatMap(xs[..|xs| - 1], f) + f(xs[|xs| - 1])
  }

  lemma ConcatMapSnoc<X>(xs: seq<X>, i: nat, f: X -> string)
    requires i < |xs|
    ensures ConcatMap(xs[..i + 1], f) == ConcatMap(xs[..i], f) + f(xs[i])
  {
    assert xs[..i + 1][..i] == xs[..i];
  }

  /** The texts of a concatenation are the texts of its parts. */
  lemma {:induction false} ConcatMapAppend<X>(a: seq<X>, b: seq<X>, f: X -> string)
    ensures ConcatMap(a + b, f) == ConcatMap(a, f) + ConcatMap(b, f)
  {
    if b == [] {
      assert a + b == a;
    } else {
      var init := b[..|b| - 1];
      ConcatMapAppend(a, init, f);
      assert (a + b)[..|a + b| - 1] == a + init;
      assert (a + b)[|a + b| - 1] == b[|b| - 1];
      var x, y, z := ConcatMap(a, f), ConcatMap(init, f), f(b[|b| - 1]);
      assert (x + y) + z == x + (y + z);
    }
  }

  /** The text of the `k`-th element starts where the texts before it end. */
  lemma ConcatMapAt<X>(xs: seq<X>, k: nat, f: X -> string)
    requires k < |xs|
    ensures OccursAt(ConcatMap(xs, f), f(xs[k]), |ConcatMap(xs[..k], f)|)
  {
    var before := ConcatMap(xs[..k], f);
    assert xs[..k + 1] + xs[k + 1..] == xs;
    ConcatMapAppend(xs[..k + 1], xs[k + 1..], f);
    ConcatMapSnoc(xs, k, f);
    OccursAtEnd(before, f(xs[k]));
    OccursInPrefix(before + f(xs[k]), ConcatMap(xs[k + 1..], f), f(xs[k]), |before|);
  }

  lemma EndsWithConcat(a: string, b: string)
    ensures EndsWith(a + b, b)
  {
    assert (a + b)[|a + b| - |b|..] == b;
  }

  lemma StartsWithConcat(a: string, b: string)
    ensures StartsWith(a + b, a)
  {
    assert (a + b)[..|a|] == a;
  }

  lemma LowerConcat(a: string, b: string)
    ensures Lower(a + b) == Lower(a) + Lower(b)
  {
  }

  /** No upper-case ASCII letter occurs in `s`. */
  predicate NoUpper(s: string) {
    forall i :: 0 <= i < |s| ==> !('A' <= s[i] <= 'Z')
  }

  /** A string with no upper-case ASCII letter is its own lower-case form. */
  lemma LowerOfLower(s: string)
    requires NoUpper(s)
    ensures Lower(s) == s
  {
  }

  /** Lower-casing keeps an occurrence of a lower-case word. */
  lemma ContainsLowered(s: string, sub: string, k: int)
    requires OccursAt(s, sub, k)
    requires NoUpper(sub)
    ensures Contains(Lower(s), sub)
  {
    assert Lower(s)[k..k + |sub|] == Lower(s[k..k + |sub|]);
    LowerOfLower(sub);
    assert OccursAt(Lower(s), sub, k);
  }

  /** Lower-casing keeps any occurrence of a lower-case word. */
  lemma ContainsLower(s: string, sub: string)
    requires Contains(s, sub)
    requires NoUpper(sub)
    ensures Contains(Lower(s), sub)
  {
    var k :| 0 <= k <= |s| - |sub| && OccursAt(s, sub, k);
    ContainsLowered(s, sub, k);
  }

  /** Each joined item occurs in the joined string. */
  lemma {:induction false} JoinContains(xs: seq<string>, sep: string, x: string)
    requires x in xs
    ensures Contains(Join(xs, sep), x)
  {
    if |xs| == 1 {
      assert OccursAt(Join(xs, sep), x, 0);
    } else if x == xs[0] {
      assert Join(xs, sep) == xs[0] + (sep + Join(xs[1..], sep));
      assert OccursAt(Join(xs, sep), x, 0);
    } else {
      JoinContains(xs[1..], sep, x);
      ContainsInMiddle(xs[0] + sep, Join(xs[1..], sep), "", x);
      assert xs[0] + sep + Join(xs[1..], sep) + "" == Join(xs, sep);
    }
  }

  /** A string free of the character `c` contains no word that has `c` in it. */
  lemma NotContainsWithout(s: string, sub: string, at: nat, c: char)
    requires at < |sub| && sub[at] == c
    requires c !in s
    ensures !Contains(s, sub)
  {
  }

  lemma SliceAt(s: string, i: int, j: int, k: int)
    ensures 0 <= i <= j <= |s| && 0 <= k < j - i ==> s[i..j][k] == s[i + k]
  {
  }
}
