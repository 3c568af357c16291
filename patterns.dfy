/**
 * The fixed, built-in regular expressions of the splitter, written as scanners.
 * For each pattern, `XAt(s, i)` says that the regex matches when the search
 * tries position `i`, and `FindX(s)` is the leftmost such position, the one
 * `re.search` reports. Each of these patterns can match in at most one way at a
 * given position (every repeated class is followed by a character outside it),
 * so the match at `i` is the maximal run the predicates describe.
 * `\b`, `\d` and `\w` are read with ASCII classes.
 */
module Patterns {
  import opened Wrappers
  import opened Text

  /** `\b` at position `i`: a word character on exactly one side. */
  predicate WordBoundary(s: string, i: nat) {
    i <= |s| && ((i > 0 && IsWordChar(s[i - 1])) != (i < |s| && IsWordChar(s[i])))
  }

  predicate HasDigit(t: string) {
    exists k :: 0 <= k < |t| && IsDigit(t[k])
  }

  // ---------------------------------------------------------------------------
  // `\b([A-Z]{2}\d{4})\b` (rewrite.py RE_COURSE_KTH_STYLE)

  predicate KthCodeAt(s: string, i: nat) {
    i + 6 <= |s| && WordBoundary(s, i) && IsUpper(s[i]) && IsUpper(s[i + 1])
    && AllDigits(s[i + 2..i + 6]) && WordBoundary(s, i + 6)
  }

  function FindKthCode(s: string): (r: Option<nat>)
    ensures r.Some? ==> KthCodeAt(s, r.value) && forall k :: 0 <= k < r.value ==> !KthCodeAt(s, k)
    ensures r.None? ==> forall k :: 0 <= k < |s| ==> !KthCodeAt(s, k)
  {
    var p := (k: nat) => KthCodeAt(s, k);
    assert forall k: nat :: p(k) == KthCodeAt(s, k);
    FirstFrom(|s|, p, 0)
  }

  // ---------------------------------------------------------------------------
  // `\(([A-Z]{2,}[A-Z0-9]*\d[A-Z0-9]*)\)` (rewrite.py RE_COURSE_PARENS)

  /** The class `[A-Z0-9]`. */
  predicate IsCodeChar(c: char) { IsUpper(c) || IsDigit(c) }

  /** End of the `[A-Z0-9]` run after an opening parenthesis at `i`. */
  function ParenRunEnd(s: string, i: nat): nat
    requires i < |s|
  {
    RunEnd(s, i + 1, IsCodeChar)
  }

  /**
   * The group is the whole `[A-Z0-9]` run after `(`: it must be closed by `)`,
   * start with two capital letters and contain a digit.
   */
  predicate ParenCodeAt(s: string, i: nat) {
    i < |s| && s[i] == '(' &&
    var e := ParenRunEnd(s, i);
    e < |s| && s[e] == ')' && i + 3 <= e && IsUpper(s[i + 1]) && IsUpper(s[i + 2])
    && HasDigit(s[i + 1..e])
  }

  function FindParenCode(s: string): (r: Option<nat>)
    ensures r.Some? ==> ParenCodeAt(s, r.value) && forall k :: 0 <= k < r.value ==> !ParenCodeAt(s, k)
    ensures r.None? ==> forall k :: 0 <= k < |s| ==> !ParenCodeAt(s, k)
  {
    var p := (k: nat) => ParenCodeAt(s, k);
    assert forall k: nat :: p(k) == ParenCodeAt(s, k);
    FirstFrom(|s|, p, 0)
  }

  // ---------------------------------------------------------------------------
  // `\(([A-Z0-9\-]{4,})\)` (split-ics.py RE_COURSE_IN_SUMMARY)
  // and `/course/([A-Z0-9\-]{4,})/` (RE_KTH_COURSE_URL in both scripts)

  /** The class `[A-Z0-9\-]`. */
  predicate IsDashedCodeChar(c: char) { IsUpper(c) || IsDigit(c) || c == '-' }

  /** `open` at `i`, then a run of at least four `[A-Z0-9\-]`, then `close`. */
  predicate DelimitedCodeAt(s: string, i: nat, open: string, close: char) {
    OccursAt(open, s, i) &&
    var e := RunEnd(s, i + |open|, IsDashedCodeChar);
    e < |s| && s[e] == close && i + |open| + 4 <= e
  }

  /** The code matched at `i`: the run between the delimiters. */
  function DelimitedCode(s: string, i: nat, open: string, close: char): (code: string)
    requires DelimitedCodeAt(s, i, open, close)
    ensures |code| >= 4 && forall k :: 0 <= k < |code| ==> IsDashedCodeChar(code[k])
  {
    s[i + |open|..RunEnd(s, i + |open|, IsDashedCodeChar)]
  }

  function FindDelimitedCode(s: string, open: string, close: char): (r: Option<nat>)
    ensures r.Some? ==> DelimitedCodeAt(s, r.value, open, close)
    ensures r.Some? ==> forall k :: 0 <= k < r.value ==> !DelimitedCodeAt(s, k, open, close)
    ensures r.None? ==> forall k :: 0 <= k < |s| ==> !DelimitedCodeAt(s, k, open, close)
  {
    var p := (k: nat) => DelimitedCodeAt(s, k, open, close);
    assert forall k: nat :: p(k) == DelimitedCodeAt(s, k, open, close);
    FirstFrom(|s|, p, 0)
  }

  const CoursePathOpen: string := "/course/"

  // ---------------------------------------------------------------------------
  // `\b<Keyword>\s*(\d+)\b` and `\b<Keyword>\s+(\d+)\b`, case-insensitive
  // (DEFAULT_SUMMARY_RE, RE_LECTURE, RE_LAB, RE_EXERCISE)

  /**
   * `kw` (lower case) at `i` ignoring case, at a word start, then at least
   * `minSpaces` whitespace characters, then digits ending at a word boundary.
   */
  predicate KeywordNumberAt(s: string, i: nat, kw: string, minSpaces: nat) {
    i + |kw| <= |s| && WordBoundary(s, i) && Lower(s[i..i + |kw|]) == kw &&
    var w := RunEnd(s, i + |kw|, IsSpace);
    i + |kw| + minSpaces <= w &&
    var d := RunEnd(s, w, IsDigit);
    w < d && WordBoundary(s, d)
  }

  /** `int(m.group(1))` for the match at `i`. */
  function KeywordNumber(s: string, i: nat, kw: string, minSpaces: nat): nat
    requires KeywordNumberAt(s, i, kw, minSpaces)
  {
    var w := RunEnd(s, i + |kw|, IsSpace);
    DigitsValue(s[w..RunEnd(s, w, IsDigit)])
  }

  /** The number captured by the leftmost match, or `None` when the pattern does not occur. */
  function SearchKeywordNumber(s: string, kw: string, minSpaces: nat): (r: Option<nat>)
    ensures r.Some? <==> exists i: nat :: KeywordNumberAt(s, i, kw, minSpaces)
    ensures r.Some? ==> exists i: nat ::
      && KeywordNumberAt(s, i, kw, minSpaces)
      && r.value == KeywordNumber(s, i, kw, minSpaces)
      && (forall k :: 0 <= k < i ==> !KeywordNumberAt(s, k, kw, minSpaces))
  {
    var p := (k: nat) => KeywordNumberAt(s, k, kw, minSpaces);
    assert forall k: nat :: p(k) == KeywordNumberAt(s, k, kw, minSpaces);
    match FirstFrom(|s|, p, 0)
    case Some(i) => Some(KeywordNumber(s, i, kw, minSpaces))
    case None => None
  }

  /** `\bLecture\s*(\d+)\b` with IGNORECASE (DEFAULT_SUMMARY_RE). */
  function SearchDefaultLecture(s: string): Option<nat> {
    SearchKeywordNumber(s, "lecture", 0)
  }
}
