/**
 * `detect_course_code` of rewrite.py: which course an event belongs to, from
 * three fixed patterns tried in order of specificity.
 */
module CourseDetect {
  import opened Wrappers
  import opened Text
  import opened Patterns

  /** What any detected code looks like: at least three characters from `[A-Z0-9-]` (`CS1` is the shortest parenthesised code). */
  predicate CodeShaped(code: string) {
    |code| >= 3 && forall k :: 0 <= k < |code| ==> IsDashedCodeChar(code[k])
  }

  /** Two capital letters followed by four digits. */
  predicate KthShaped(code: string) {
    |code| == 6 && IsUpper(code[0]) && IsUpper(code[1]) && AllDigits(code[2..])
  }

  predicate NoKthCode(s: string) { forall i :: 0 <= i < |s| ==> !KthCodeAt(s, i) }
  predicate NoParenCode(s: string) { forall i :: 0 <= i < |s| ==> !ParenCodeAt(s, i) }
  predicate NoCourseUrl(s: string) { forall i :: 0 <= i < |s| ==> !DelimitedCodeAt(s, i, CoursePathOpen, '/') }

  /** The leftmost whole-word KTH code of `s` (`RE_COURSE_KTH_STYLE.search`). */
  function KthCodeIn(s: string): (r: Option<string>)
    ensures r.None? <==> NoKthCode(s)
    ensures r.Some? ==> KthShaped(r.value) && CodeShaped(r.value)
    ensures r.Some? ==> exists i ::
      && 0 <= i < |s| && KthCodeAt(s, i) && OccursAt(r.value, s, i)
      && (forall k :: 0 <= k < i ==> !KthCodeAt(s, k))
  {
    match FindKthCode(s)
    case Some(i) =>
      var code := s[i..i + 6];
      assert code[2..] == s[i + 2..i + 6];
      assert forall k :: 2 <= k < 6 ==> code[k] == code[2..][k - 2];
      Some(code)
    case None => None
  }

  /** The group of the leftmost parenthesised code of `s` (`RE_COURSE_PARENS.search`). */
  function ParenCodeIn(s: string): (r: Option<string>)
    ensures r.None? <==> NoParenCode(s)
    ensures r.Some? ==> CodeShaped(r.value)
    ensures r.Some? ==> exists i ::
      && 0 <= i < |s| && ParenCodeAt(s, i) && OccursAt("(" + r.value + ")", s, i)
      && (forall k :: 0 <= k < i ==> !ParenCodeAt(s, k))
  {
    match FindParenCode(s)
    case Some(i) =>
      var e := ParenRunEnd(s, i);
      var code := s[i + 1..e];
      assert s[i..e + 1] == "(" + code + ")";
      Some(code)
    case None => None
  }

  /** The code of the leftmost `/course/<code>/` path in `s` (`RE_KTH_COURSE_URL.search`). */
  function CourseUrlCodeIn(s: string): (r: Option<string>)
    ensures r.None? <==> NoCourseUrl(s)
    ensures r.Some? ==> |r.value| >= 4 && CodeShaped(r.value)
    ensures r.Some? ==> exists i ::
      && 0 <= i < |s| && DelimitedCodeAt(s, i, CoursePathOpen, '/')
      && OccursAt(CoursePathOpen + r.value + "/", s, i)
      && (forall k :: 0 <= k < i ==> !DelimitedCodeAt(s, k, CoursePathOpen, '/'))
  {
    match FindDelimitedCode(s, CoursePathOpen, '/')
    case Some(i) =>
      var code := DelimitedCode(s, i, CoursePathOpen, '/');
      var e := i + |CoursePathOpen| + |code|;
      assert s[i..e + 1] == CoursePathOpen + code + "/";
      Some(code)
    case None => None
  }

  /**
   * The course code of an event: a whole-word KTH code in the summary, else a
   * parenthesised code in the summary, else the code of a `/course/<code>/`
   * path in the description, else none.
   */
  function DetectCourseCode(summary: string, description: string): (r: Option<string>)
    ensures r.Some? ==> CodeShaped(r.value)
    ensures KthCodeIn(summary).Some? ==> r == KthCodeIn(summary)
    ensures NoKthCode(summary) && ParenCodeIn(summary).Some? ==> r == ParenCodeIn(summary)
    ensures NoKthCode(summary) && NoParenCode(summary) ==> r == CourseUrlCodeIn(description)
    ensures r.None? <==> NoKthCode(summary) && NoParenCode(summary) && NoCourseUrl(description)
  {
    match KthCodeIn(summary)
    case Some(code) => Some(code)
    case None =>
      match ParenCodeIn(summary)
      case Some(code) => Some(code)
      case None => CourseUrlCodeIn(description)
  }

  lemma ParenCodeHasDigit(s: string, i: nat)
    ensures ParenCodeAt(s, i) ==> exists k :: 0 <= k < |s| && IsDigit(s[k])
  {
    if ParenCodeAt(s, i) {
      var t := s[i + 1..ParenRunEnd(s, i)];
      var k :| 0 <= k < |t| && IsDigit(t[k]);
      assert t[k] == s[i + 1 + k];
    }
  }

  /** A summary without digits holds no code of either summary pattern (`(PDF)`, `(HTML)`), so only the description can give one. */
  lemma NoDigitsNoSummaryCode(summary: string, description: string)
    requires forall k :: 0 <= k < |summary| ==> !IsDigit(summary[k])
    ensures NoKthCode(summary) && NoParenCode(summary)
    ensures DetectCourseCode(summary, description).None? <==> NoCourseUrl(description)
  {
    forall i | 0 <= i < |summary|
      ensures !ParenCodeAt(summary, i)
    {
      ParenCodeHasDigit(summary, i);
    }
  }

  /** Without two adjacent capital letters the summary holds no code of either pattern (`(2024)`, `is1200`, `Is1200`). */
  lemma NoCapitalPairNoSummaryCode(summary: string, description: string)
    requires forall k :: 0 <= k < |summary| - 1 ==> !(IsUpper(summary[k]) && IsUpper(summary[k + 1]))
    ensures NoKthCode(summary) && NoParenCode(summary)
    ensures DetectCourseCode(summary, description).None? <==> NoCourseUrl(description)
  {
  }

  /** A KTH code anywhere in the summary beats any parenthesised code and any course path: `"IS1200 Lecture (OTHER1)"` gives `IS1200`. */
  lemma KthCodeWins(summary: string, description: string, i: nat)
    requires KthCodeAt(summary, i)
    ensures DetectCourseCode(summary, description).Some?
    ensures KthShaped(DetectCourseCode(summary, description).value)
    ensures OccursAt(DetectCourseCode(summary, description).value, summary, i)
      || exists j :: 0 <= j < i && OccursAt(DetectCourseCode(summary, description).value, summary, j)
  {
    assert !NoKthCode(summary) by { assert i < |summary|; }
  }

  /**
   * A summary that is one word of other than six characters holds no
   * whole-word KTH code (the word boundaries are only at its two ends) and no
   * parenthesis, so with an empty description no course is detected.
   */
  lemma EmbeddedCodeIsNotDetected(summary: string)
    requires |summary| != 6
    requires forall k :: 0 <= k < |summary| ==> IsWordChar(summary[k])
    ensures NoKthCode(summary) && NoParenCode(summary)
    ensures DetectCourseCode(summary, "") == None
  {
    forall i | 0 <= i < |summary|
      ensures !KthCodeAt(summary, i) && !ParenCodeAt(summary, i)
    {
      assert summary[i] != '(';
      assert i > 0 ==> !WordBoundary(summary, i);
      assert i + 6 < |summary| ==> !WordBoundary(summary, i + 6);
    }
  }

  /** `XIS1200X` gives no course: the KTH code in it is not a whole word. */
  lemma EmbeddedCodeExample()
    ensures DetectCourseCode("XIS1200X", "") == None
  {
    var s := "XIS1200X";
    assert forall k :: 0 <= k < |s| ==> IsWordChar(s[k]);
    EmbeddedCodeIsNotDetected(s);
  }
}
