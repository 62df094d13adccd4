/** The regular expressions of scripts/repo_analyzer.py, each written out as a predicate
    saying when `re.search` finds a match (or, for the URL pattern, what `re.findall`
    returns). Character classes are the ASCII ones of module Strings. */
module Patterns {
  import opened Strings

  /** `re.search(r'#+\s*' + name, content, re.IGNORECASE)`: some `#` is followed, after
      optional white space, by `name` in any letter case. */
  predicate HasHeading(content: string, name: string) {
    exists j, k :: 0 <= j < k <= |content| - |name| && HeadingAt(content, name, j, k)
  }

  predicate HeadingAt(content: string, name: string, j: int, k: int) {
    0 <= j < k && k + |name| <= |content| &&
    content[j] == '#' && AllSpace(content[j + 1..k]) &&
    Lower(content[k..k + |name|]) == Lower(name)
  }

  /** `n` dot-separated groups of one to three digits, and nothing else. */
  predicate DigitGroups(t: string, n: nat)
    decreases n
  {
    n >= 1 &&
    exists len :: 1 <= len <= 3 && GroupAt(t, len) &&
      (if n == 1 then len == |t| else len < |t| && t[len] == '.' && DigitGroups(t[len + 1..], n - 1))
  }

  predicate GroupAt(t: string, len: int) {
    0 < len <= |t| && AllDigits(t[..len])
  }

  /** A word boundary `\b` before index `i`, when `s[i]` is a word character. */
  predicate BoundaryBefore(s: string, i: int)
    requires 0 <= i <= |s|
  {
    i == 0 || !IsWordChar(s[i - 1])
  }

  /** A word boundary `\b` at index `j`, when `s[j - 1]` is a word character. */
  predicate BoundaryAt(s: string, j: int)
    requires 0 <= j <= |s|
  {
    j == |s| || !IsWordChar(s[j])
  }

  /** `\b(?:\d{1,3}\.){3}\d{1,3}\b` matches `s[i..j]`. */
  predicate DottedQuadAt(s: string, i: int, j: int) {
    0 <= i < j <= |s| && BoundaryBefore(s, i) && BoundaryAt(s, j) && DigitGroups(s[i..j], 4)
  }

  /** `re.search(r'\b(?:\d{1,3}\.){3}\d{1,3}\b', content)`. */
  predicate HasIpAddress(content: string) {
    exists i, j :: 0 <= i < j <= |content| && DottedQuadAt(content, i, j)
  }

  /** `:\d{2,5}\b` matches at index `i` with `n` digits. */
  predicate PortAt(s: string, i: int, n: int) {
    0 <= i && 2 <= n <= 5 && i + 1 + n <= |s| && s[i] == ':' &&
    AllDigits(s[i + 1..i + 1 + n]) && BoundaryAt(s, i + 1 + n)
  }

  /** `re.search(r':\d{2,5}\b', content)`. */
  predicate HasPort(content: string) {
    exists i, n :: 0 <= i < |content| && 2 <= n <= 5 && PortAt(content, i, n)
  }

  /** `:\{\{.*\}\}` matches from index `i` to the `}}` at index `j`; `.` does not match a line feed. */
  predicate TemplatedColonAt(s: string, i: int, j: int) {
    0 <= i && i + 3 <= j && j + 2 <= |s| &&
    s[i..i + 3] == ":{{" && s[j..j + 2] == "}}" && '\n' !in s[i + 3..j]
  }

  /** `re.search(r':\{\{.*\}\}', content)`: the port already sits in a template expression. */
  predicate HasTemplatedColon(content: string) {
    exists i, j :: 0 <= i <= j <= |content| && TemplatedColonAt(content, i, j)
  }

  /** `key\s*:\s*["'](?!\{\{)[^"']` matches, ignoring case, with the key at `i`, the colon at
      `colon` and the opening quote at `q`. `key` is given in lower case. */
  predicate AssignmentAt(s: string, key: string, i: int, colon: int, q: int) {
    0 <= i && i + |key| <= colon < q && q + 1 < |s| &&
    Lower(s[i..i + |key|]) == key &&
    AllSpace(s[i + |key|..colon]) && s[colon] == ':' && AllSpace(s[colon + 1..q]) &&
    IsQuote(s[q]) && !IsQuote(s[q + 1]) &&
    !(q + 2 < |s| && s[q + 1] == '{' && s[q + 2] == '{')
  }

  /** `re.search(key + r'\s*:\s*["\'](?!\{\{)[^"\']', content, re.IGNORECASE)`: a quoted
      literal, not a template placeholder, is assigned to `key`. */
  predicate HasSensitiveAssignment(content: string, key: string) {
    exists i, colon, q :: 0 <= i <= colon < q < |content| && AssignmentAt(content, key, i, colon, q)
  }

  /** The keys of the four sensitive-assignment patterns, in the order they are tried. */
  const SensitiveKeys: seq<string> := ["password", "secret", "token", "key"]

  /** `version:\s*["\'][^"\']` matches with the quote at `q`. */
  predicate QuotedVersionAt(s: string, i: int, q: int) {
    0 <= i && i + 8 <= q && q + 1 < |s| &&
    s[i..i + 8] == "version:" && AllSpace(s[i + 8..q]) && IsQuote(s[q]) && !IsQuote(s[q + 1])
  }

  /** `re.search(r'version:\s*["\'][^"\']', content)`: some dependency is pinned. */
  predicate HasQuotedVersion(content: string) {
    exists i, q :: 0 <= i < q < |content| && QuotedVersionAt(content, i, q)
  }

  /** A character of the class `[^\s"')]`. */
  predicate UrlChar(c: char) { !IsSpace(c) && c != '"' && c != '\'' && c != ')' }

  /** The length of the scheme `https?://` that starts at `i`, or 0. */
  function SchemeLength(s: string, i: nat): (n: nat)
    ensures n == 0 || n == 7 || n == 8
    ensures n > 0 ==> i + n <= |s|
  {
    if i + 8 <= |s| && s[i..i + 8] == "https://" then 8
    else if i + 7 <= |s| && s[i..i + 7] == "http://" then 7
    else 0
  }

  /** The end of the longest run of URL characters that starts at `j`. */
  function RunEnd(s: string, j: nat): (e: nat)
    requires j <= |s|
    ensures j <= e <= |s|
    ensures forall m :: j <= m < e ==> UrlChar(s[m])
    ensures e == |s| || !UrlChar(s[e])
    decreases |s| - j
  {
    if j < |s| && UrlChar(s[j]) then RunEnd(s, j + 1) else j
  }

  /** `re.findall(r'https?://[^\s"\')]+', s[i..])`: the non-overlapping matches, left to right. */
  function UrlsFrom(s: string, i: nat): (urls: seq<string>)
    requires i <= |s|
    ensures forall u :: u in urls ==> IsUrl(u)
    decreases |s| - i
  {
    if i == |s| then []
    else
      var n := SchemeLength(s, i);
      if n > 0 && i + n < |s| && UrlChar(s[i + n]) then
        var e := RunEnd(s, i + n);
        assert IsUrl(s[i..e]) by {
          var u := s[i..e];
          assert e != i + n;
          assert forall m :: 0 <= m < n ==> u[..n][m] == s[i..i + n][m];
          assert u[..n] == s[i..i + n];
          assert forall m :: n <= m < |u| ==> u[m] == s[i + m];
        }
        [s[i..e]] + UrlsFrom(s, e)
      else UrlsFrom(s, i + 1)
  }

  /** Each string `re.findall` returns for the URL pattern is a scheme followed by at
      least one URL character and nothing else. */
  predicate IsUrl(u: string) {
    exists n :: 7 <= n <= 8 && n < |u| &&
      (u[..n] == "http://" || u[..n] == "https://") &&
      forall m :: n <= m < |u| ==> UrlChar(u[m])
  }

  function Urls(content: string): seq<string> { UrlsFrom(content, 0) }
}
