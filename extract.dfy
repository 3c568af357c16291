/**
 * `extract_number_and_kind` of rewrite.py: the occurrence number and the event
 * kind named by a summary. The configurable event types are searched first,
 * type by type and pattern by pattern in declared order; if none decides, the
 * course's `summary_regex` and then the built-in Lecture, Lab and Exercise
 * patterns are tried.
 */
module Extraction {
  import opened Wrappers
  import opened Text
  import opened Regex
  import opened EventTypes
  import opened Patterns
  import opened Rules

  /** The `(n, kind)` pair; `None` stands for Python's `None`. */
  datatype NumKind = NumKind(n: Option<int>, kind: Option<string>)

  const LegacyKinds: set<string> := {"lecture", "lab", "exercise"}

  /**
   * What a match of `pattern` decides for type `et`, or `None` to go on with
   * the next pattern: no match, or a first group that `int` rejects.
   */
  function PatternDecision(e: Engine, et: EventType, pattern: string, s: string): (r: Option<NumKind>)
    ensures r.Some? ==> Search(e, pattern, s) && r.value.kind == Some(et.kind)
    ensures et.unnumbered ==> (r.Some? <==> Search(e, pattern, s)) && (r.Some? ==> r.value.n.None?)
    ensures r.Some? && r.value.n.Some? ==>
      !et.unnumbered && e.search(pattern, s).value != [] && PyInt(e.search(pattern, s).value[0]) == r.value.n
  {
    match e.search(pattern, s)
    case None => None
    case Some(groups) =>
      if et.unnumbered then Some(NumKind(None, Some(et.kind)))
      else if groups == [] then Some(NumKind(None, Some(et.kind)))
      else
        match PyInt(groups[0])
        case Some(n) => Some(NumKind(Some(n), Some(et.kind)))
        case None => None
  }

  /**
   * On a numbered type, a match without groups decides `(None, kind)`, and a
   * match with groups decides `(int(group 1), kind)` exactly when `int`
   * accepts group 1; otherwise the next pattern is tried.
   */
  lemma PatternDecisionCases(e: Engine, et: EventType, pattern: string, s: string)
    requires !et.unnumbered && e.search(pattern, s).Some?
    ensures e.search(pattern, s).value == [] ==> PatternDecision(e, et, pattern, s) == Some(NumKind(None, Some(et.kind)))
    ensures e.search(pattern, s).value != [] ==>
      var n := PyInt(e.search(pattern, s).value[0]);
      PatternDecision(e, et, pattern, s) == if n.Some? then Some(NumKind(n, Some(et.kind))) else None
  {
  }

  /** No pattern of `ps` before index `j` decides. */
  predicate NoPatternBefore(e: Engine, et: EventType, ps: seq<string>, j: int, s: string) {
    forall k :: 0 <= k < j && k < |ps| ==> PatternDecision(e, et, ps[k], s).None?
  }

  /** Prepending a pattern that does not decide shifts the undecided prefix by one. */
  lemma NoPatternBeforeShift(e: Engine, et: EventType, ps: seq<string>, j: nat, s: string)
    requires |ps| > 0 && PatternDecision(e, et, ps[0], s).None?
    requires NoPatternBefore(e, et, ps[1..], j, s)
    ensures NoPatternBefore(e, et, ps, j + 1, s)
  {
    forall k | 0 < k < j + 1 && k < |ps|
      ensures PatternDecision(e, et, ps[k], s).None?
    {
      assert ps[k] == ps[1..][k - 1];
    }
  }

  /** The decision of the first pattern of `ps` that decides. */
  function PatternsDecision(e: Engine, et: EventType, ps: seq<string>, s: string): (r: Option<NumKind>)
    decreases |ps|
    ensures r.None? <==> forall j :: 0 <= j < |ps| ==> PatternDecision(e, et, ps[j], s).None?
    ensures r.Some? ==> exists j ::
      0 <= j < |ps| && r == PatternDecision(e, et, ps[j], s) && NoPatternBefore(e, et, ps, j, s)
  {
    if ps == [] then None
    else
      match PatternDecision(e, et, ps[0], s)
      case Some(d) => Some(d)
      case None =>
        var r := PatternsDecision(e, et, ps[1..], s);
        if r.None? then
          assert forall j :: 1 <= j < |ps| ==> ps[1..][j - 1] == ps[j];
          r
        else
          var j :| 0 <= j < |ps[1..]| && r == PatternDecision(e, et, ps[1..][j], s)
            && NoPatternBefore(e, et, ps[1..], j, s);
          NoPatternBeforeShift(e, et, ps, j, s);
          assert r == PatternDecision(e, et, ps[j + 1], s);
          r
  }

  /** No event type of `types` before index `j` decides. */
  predicate NoTypeBefore(e: Engine, types: seq<EventType>, j: int, s: string) {
    forall k :: 0 <= k < j && k < |types| ==> PatternsDecision(e, types[k], types[k].patterns, s).None?
  }

  /** Prepending an event type that does not decide shifts the undecided prefix by one. */
  lemma NoTypeBeforeShift(e: Engine, types: seq<EventType>, j: nat, s: string)
    requires |types| > 0 && PatternsDecision(e, types[0], types[0].patterns, s).None?
    requires NoTypeBefore(e, types[1..], j, s)
    ensures NoTypeBefore(e, types, j + 1, s)
  {
    forall k | 0 < k < j + 1 && k < |types|
      ensures PatternsDecision(e, types[k], types[k].patterns, s).None?
    {
      assert types[k] == types[1..][k - 1];
    }
  }

  /** The decision of the first event type, in declared order, one of whose patterns decides. */
  function TypesDecision(e: Engine, types: seq<EventType>, s: string): (r: Option<NumKind>)
    decreases |types|
    ensures r.None? <==> forall j :: 0 <= j < |types| ==> PatternsDecision(e, types[j], types[j].patterns, s).None?
    ensures r.Some? ==> exists j ::
      0 <= j < |types| && r == PatternsDecision(e, types[j], types[j].patterns, s) && NoTypeBefore(e, types, j, s)
  {
    if types == [] then None
    else
      match PatternsDecision(e, types[0], types[0].patterns, s)
      case Some(d) => Some(d)
      case None =>
        var r := TypesDecision(e, types[1..], s);
        if r.None? then
          assert forall j :: 1 <= j < |types| ==> types[1..][j - 1] == types[j];
          r
        else
          var j :| 0 <= j < |types[1..]| && r == PatternsDecision(e, types[1..][j], types[1..][j].patterns, s)
            && NoTypeBefore(e, types[1..], j, s);
          NoTypeBeforeShift(e, types, j, s);
          assert r == PatternsDecision(e, types[j + 1], types[j + 1].patterns, s);
          r
  }

  /** The number the compiled `summary_regex` yields: `int(m.group(1))`, or nothing when it fails. */
  function SummaryRegexNumber(e: Engine, srx: Option<SummaryRegex>, s: string): Option<int> {
    match srx
    case None => None
    case Some(UserRegex(p)) =>
      (match e.search(p, s)
       case None => None
       case Some(groups) => if groups == [] then None else PyInt(groups[0]))
    case Some(DefaultLectureRegex) =>
      (match SearchDefaultLecture(s) case None => None case Some(n) => Some(n as int))
  }

  /** `Some(n as int)` for a found number. */
  function AsInt(n: Option<nat>): (r: Option<int>)
    ensures r.Some? <==> n.Some?
    ensures r.Some? ==> r.value == n.value as int && r.value >= 0
  {
    match n case None => None case Some(k) => Some(k as int)
  }

  /** The legacy chain: `summary_regex` (labelled lecture), then Lecture, Lab and Exercise. */
  function LegacyExtract(e: Engine, srx: Option<SummaryRegex>, s: string): (r: NumKind)
    ensures r.kind.None? <==> r.n.None?
    ensures r.kind.Some? ==> r.kind.value in LegacyKinds
    ensures SummaryRegexNumber(e, srx, s).Some? ==> r == NumKind(SummaryRegexNumber(e, srx, s), Some("lecture"))
    ensures r.kind.None? <==>
      && SummaryRegexNumber(e, srx, s).None?
      && SearchKeywordNumber(s, "lecture", 0).None?
      && SearchKeywordNumber(s, "lab", 1).None?
      && SearchKeywordNumber(s, "exercise", 1).None?
  {
    var fromRegex := SummaryRegexNumber(e, srx, s);
    if fromRegex.Some? then NumKind(fromRegex, Some("lecture"))
    else
      var lecture := SearchKeywordNumber(s, "lecture", 0);
      var lab := SearchKeywordNumber(s, "lab", 1);
      var exercise := SearchKeywordNumber(s, "exercise", 1);
      if lecture.Some? then NumKind(AsInt(lecture), Some("lecture"))
      else if lab.Some? then NumKind(AsInt(lab), Some("lab"))
      else if exercise.Some? then NumKind(AsInt(exercise), Some("exercise"))
      else NumKind(None, None)
  }

  /** `extract_number_and_kind(summary, cr)`, with `None` for missing rules. */
  function Extract(e: Engine, cr: Option<CourseRules>, s: string): (r: NumKind)
    ensures r.kind.None? ==> r.n.None?
    ensures r.kind.Some? ==>
      r.kind.value in LegacyKinds || (cr.Some? && exists k :: 0 <= k < |cr.value.eventTypes| && cr.value.eventTypes[k].kind == r.kind.value)
  {
    var modern := if cr.Some? && cr.value.eventTypes != [] then TypesDecision(e, cr.value.eventTypes, s) else None;
    if modern.Some? then
      var j :| 0 <= j < |cr.value.eventTypes|
        && modern == PatternsDecision(e, cr.value.eventTypes[j], cr.value.eventTypes[j].patterns, s);
      modern.value
    else LegacyExtract(e, if cr.Some? then cr.value.summaryRegex else None, s)
  }

  /** The loop over one type's patterns (lines 72-90), with its early returns and `continue`. */
  method ScanPatterns(e: Engine, et: EventType, s: string) returns (r: Option<NumKind>)
    ensures r == PatternsDecision(e, et, et.patterns, s)
  {
    var j := 0;
    while j < |et.patterns|
      invariant 0 <= j <= |et.patterns|
      invariant PatternsDecision(e, et, et.patterns, s) == PatternsDecision(e, et, et.patterns[j..], s)
    {
      var m := e.search(et.patterns[j], s);
      if m.Some? {
        if et.unnumbered {
          return Some(NumKind(None, Some(et.kind)));
        }
        if m.value == [] {
          return Some(NumKind(None, Some(et.kind)));
        }
        var n := PyInt(m.value[0]);
        if n.Some? {
          return Some(NumKind(n, Some(et.kind)));
        }
      }
      assert et.patterns[j..][1..] == et.patterns[j + 1..];
      j := j + 1;
    }
    return None;
  }

  /** The loop over the event types (lines 71-90): the first type whose patterns decide. */
  method ScanTypes(e: Engine, types: seq<EventType>, s: string) returns (r: Option<NumKind>)
    ensures r == TypesDecision(e, types, s)
  {
    var i := 0;
    while i < |types|
      invariant 0 <= i <= |types|
      invariant TypesDecision(e, types, s) == TypesDecision(e, types[i..], s)
    {
      r := ScanPatterns(e, types[i], s);
      if r.Some? {
        return;
      }
      assert types[i..][1..] == types[i + 1..];
      i := i + 1;
    }
    return None;
  }

  /** The legacy chain of lines 92-118: `summary_regex`, then Lecture, Lab and Exercise. */
  method LegacyChain(e: Engine, srx: Option<SummaryRegex>, s: string) returns (r: NumKind)
    ensures r == LegacyExtract(e, srx, s)
  {
    var fromRegex := SummaryRegexNumber(e, srx, s);
    if fromRegex.Some? {
      return NumKind(fromRegex, Some("lecture"));
    }
    var m := SearchKeywordNumber(s, "lecture", 0);
    if m.Some? {
      return NumKind(Some(m.value), Some("lecture"));
    }
    m := SearchKeywordNumber(s, "lab", 1);
    if m.Some? {
      return NumKind(Some(m.value), Some("lab"));
    }
    m := SearchKeywordNumber(s, "exercise", 1);
    if m.Some? {
      return NumKind(Some(m.value), Some("exercise"));
    }
    return NumKind(None, None);
  }

  /** `extract_number_and_kind`: the event types first, then the legacy chain. */
  method ExtractNumberAndKind(e: Engine, cr: Option<CourseRules>, s: string) returns (r: NumKind)
    ensures r == Extract(e, cr, s)
  {
    if cr.Some? && cr.value.eventTypes != [] {
      var modern := ScanTypes(e, cr.value.eventTypes, s);
      if modern.Some? {
        return modern.value;
      }
    }
    r := LegacyChain(e, if cr.Some? then cr.value.summaryRegex else None, s);
  }

  // ---------------------------------------------------------------------------
  // Properties

  /**
   * The event types are searched before any legacy pattern: once a pattern of
   * a type decides, neither `summary_regex` nor the built-in patterns are
   * looked at, and the result is that of the first deciding pattern of the
   * first deciding type.
   */
  lemma EventTypesFirst(e: Engine, cr: CourseRules, s: string)
    requires TypesDecision(e, cr.eventTypes, s).Some?
    ensures Extract(e, Some(cr), s) == TypesDecision(e, cr.eventTypes, s).value
    ensures exists j, p ::
      && 0 <= j < |cr.eventTypes| && 0 <= p < |cr.eventTypes[j].patterns|
      && Extract(e, Some(cr), s).kind == Some(cr.eventTypes[j].kind)
      && Search(e, cr.eventTypes[j].patterns[p], s)
  {
    var types := cr.eventTypes;
    var j :| 0 <= j < |types| && TypesDecision(e, types, s) == PatternsDecision(e, types[j], types[j].patterns, s);
    var ps := types[j].patterns;
    var p :| 0 <= p < |ps| && PatternsDecision(e, types[j], ps, s) == PatternDecision(e, types[j], ps[p], s);
  }

  /** The first pattern that decides is the one the pattern loop returns. */
  lemma {:induction false} PatternsDecisionAt(e: Engine, et: EventType, ps: seq<string>, p: nat, s: string)
    requires p < |ps| && NoPatternBefore(e, et, ps, p, s) && PatternDecision(e, et, ps[p], s).Some?
    ensures PatternsDecision(e, et, ps, s) == PatternDecision(e, et, ps[p], s)
    decreases p
  {
    if p > 0 {
      assert PatternDecision(e, et, ps[0], s).None?;
      forall k | 0 <= k < p - 1 && k < |ps[1..]|
        ensures PatternDecision(e, et, ps[1..][k], s).None?
      {
        assert ps[1..][k] == ps[k + 1];
      }
      assert ps[1..][p - 1] == ps[p];
      assert PatternsDecision(e, et, ps, s) == PatternsDecision(e, et, ps[1..], s);
      PatternsDecisionAt(e, et, ps[1..], p - 1, s);
    }
  }

  /** The first event type that decides is the one the type loop returns. */
  lemma {:induction false} TypesDecisionAt(e: Engine, types: seq<EventType>, j: nat, s: string)
    requires j < |types| && NoTypeBefore(e, types, j, s) && PatternsDecision(e, types[j], types[j].patterns, s).Some?
    ensures TypesDecision(e, types, s) == PatternsDecision(e, types[j], types[j].patterns, s)
    decreases j
  {
    if j > 0 {
      NoTypeBeforeTail(e, types, j, s);
      assert types[1..][j - 1] == types[j];
      TypesDecisionAt(e, types[1..], j - 1, s);
    }
  }

  lemma NoTypeBeforeTail(e: Engine, types: seq<EventType>, j: nat, s: string)
    requires 0 < j < |types| && NoTypeBefore(e, types, j, s)
    ensures PatternsDecision(e, types[0], types[0].patterns, s).None?
    ensures NoTypeBefore(e, types[1..], j - 1, s)
  {
    forall k | 0 <= k < j - 1 && k < |types[1..]|
      ensures PatternsDecision(e, types[1..][k], types[1..][k].patterns, s).None?
    {
      assert types[1..][k] == types[k + 1];
    }
  }

  /**
   * When pattern `p` of type `j` is the first one, in declared order, whose
   * match decides, `extract_number_and_kind` returns what that match decides.
   */
  lemma FirstDecidingPattern(e: Engine, cr: CourseRules, j: nat, p: nat, s: string)
    requires j < |cr.eventTypes| && p < |cr.eventTypes[j].patterns|
    requires NoTypeBefore(e, cr.eventTypes, j, s)
    requires NoPatternBefore(e, cr.eventTypes[j], cr.eventTypes[j].patterns, p, s)
    requires PatternDecision(e, cr.eventTypes[j], cr.eventTypes[j].patterns[p], s).Some?
    ensures Extract(e, Some(cr), s) == PatternDecision(e, cr.eventTypes[j], cr.eventTypes[j].patterns[p], s).value
  {
    PatternsDecisionAt(e, cr.eventTypes[j], cr.eventTypes[j].patterns, p, s);
    TypesDecisionAt(e, cr.eventTypes, j, s);
  }

  /**
   * The first matching pattern of the first type whose patterns decide yields
   * no number when its type is unnumbered or the pattern has no group.
   */
  lemma NoNumberWithoutGroup(e: Engine, cr: CourseRules, j: nat, p: nat, s: string)
    requires j < |cr.eventTypes| && p < |cr.eventTypes[j].patterns|
    requires NoTypeBefore(e, cr.eventTypes, j, s)
    requires NoPatternBefore(e, cr.eventTypes[j], cr.eventTypes[j].patterns, p, s)
    requires var m := e.search(cr.eventTypes[j].patterns[p], s);
      (cr.eventTypes[j].unnumbered && m.Some?) || m == Some([])
    ensures Extract(e, Some(cr), s) == NumKind(None, Some(cr.eventTypes[j].kind))
  {
    FirstDecidingPattern(e, cr, j, p, s);
  }

  /**
   * The first matching pattern of the first type whose patterns decide, on a
   * numbered type, yields `int` of its first group with the type's kind.
   */
  lemma GroupNumberRead(e: Engine, cr: CourseRules, j: nat, p: nat, s: string)
    requires j < |cr.eventTypes| && p < |cr.eventTypes[j].patterns| && !cr.eventTypes[j].unnumbered
    requires NoTypeBefore(e, cr.eventTypes, j, s)
    requires NoPatternBefore(e, cr.eventTypes[j], cr.eventTypes[j].patterns, p, s)
    requires var m := e.search(cr.eventTypes[j].patterns[p], s);
      m.Some? && m.value != [] && PyInt(m.value[0]).Some?
    ensures Extract(e, Some(cr), s)
      == NumKind(PyInt(e.search(cr.eventTypes[j].patterns[p], s).value[0]), Some(cr.eventTypes[j].kind))
  {
    FirstDecidingPattern(e, cr, j, p, s);
  }

  /** When no event type decides, `summary_regex` comes first and its match is always a lecture. */
  lemma SummaryRegexBeforeBuiltins(e: Engine, cr: CourseRules, s: string)
    requires TypesDecision(e, cr.eventTypes, s).None?
    requires SummaryRegexNumber(e, cr.summaryRegex, s).Some?
    ensures Extract(e, Some(cr), s) == NumKind(SummaryRegexNumber(e, cr.summaryRegex, s), Some("lecture"))
  {
  }

  /** Without event types or `summary_regex`, Lecture beats Lab, which beats Exercise, whatever their positions. */
  lemma BuiltinOrder(e: Engine, cr: Option<CourseRules>, s: string)
    requires cr.None? || (cr.value.eventTypes == [] && cr.value.summaryRegex.None?)
    ensures SearchKeywordNumber(s, "lecture", 0).Some? ==>
      Extract(e, cr, s) == NumKind(AsInt(SearchKeywordNumber(s, "lecture", 0)), Some("lecture"))
    ensures SearchKeywordNumber(s, "lecture", 0).None? && SearchKeywordNumber(s, "lab", 1).Some? ==>
      Extract(e, cr, s) == NumKind(AsInt(SearchKeywordNumber(s, "lab", 1)), Some("lab"))
    ensures
      && SearchKeywordNumber(s, "lecture", 0).None?
      && SearchKeywordNumber(s, "lab", 1).None?
      && SearchKeywordNumber(s, "exercise", 1).Some?
      ==> Extract(e, cr, s) == NumKind(AsInt(SearchKeywordNumber(s, "exercise", 1)), Some("exercise"))
  {
  }

  /** Nothing matching gives `(None, None)`. */
  lemma NoMatchGivesNothing(e: Engine, cr: Option<CourseRules>, s: string)
    requires cr.Some? ==> TypesDecision(e, cr.value.eventTypes, s).None?
    requires SummaryRegexNumber(e, if cr.Some? then cr.value.summaryRegex else None, s).None?
    requires SearchKeywordNumber(s, "lecture", 0).None?
    requires SearchKeywordNumber(s, "lab", 1).None?
    requires SearchKeywordNumber(s, "exercise", 1).None?
    ensures Extract(e, cr, s) == NumKind(None, None)
  {
  }

  /** Every number the built-in patterns yield is non-negative: it is read from a run of digits. */
  lemma LegacyNumbersNonNegative(e: Engine, cr: Option<CourseRules>, s: string)
    requires cr.None? || (cr.value.eventTypes == [] && cr.value.summaryRegex in {None, Some(DefaultLectureRegex)})
    ensures Extract(e, cr, s).n.Some? ==> Extract(e, cr, s).n.value >= 0
  {
    var srx := if cr.Some? then cr.value.summaryRegex else None;
    assert Extract(e, cr, s) == LegacyExtract(e, srx, s);
    assert SummaryRegexNumber(e, srx, s).Some? ==> SummaryRegexNumber(e, srx, s).value >= 0;
  }
}
