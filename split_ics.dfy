/**
 * The helpers of the older single-file splitter, split-ics.py: its course
 * code detection, its rewriting driven straight by a rule document, and the
 * loop that keys rule documents by their `course_code`. Its `ensure_token` and
 * `redact_text` are the same code as tokens.py and log_sanitize.py and are
 * modelled once, in `Tokens` and `LogSanitize`.
 */
module SplitIcs {
  import opened Wrappers
  import opened Text
  import opened Json
  import opened Patterns
  import opened KeyedFold
  import CourseDetect

  // ---------------------------------------------------------------------------
  // Course detection (lines 237-251)

  const ParenOpen: string := "("

  predicate NoParenCode(s: string) { forall i :: 0 <= i < |s| ==> !DelimitedCodeAt(s, i, ParenOpen, ')') }
  predicate NoCourseUrl(s: string) { forall i :: 0 <= i < |s| ==> !DelimitedCodeAt(s, i, CoursePathOpen, '/') }

  /**
   * `extract_course_code`: the first `([A-Z0-9-]{4,})` of the summary, else the
   * first `/course/([A-Z0-9-]{4,})/` of the description. Unlike the current
   * detector, any four such characters will do, so `(2024)` is a course here.
   */
  function ExtractCourseCode(summary: string, description: string): (r: Option<string>)
    ensures r.Some? ==> |r.value| >= 4 && forall k :: 0 <= k < |r.value| ==> IsDashedCodeChar(r.value[k])
    ensures r.None? <==> NoParenCode(summary) && NoCourseUrl(description)
    ensures !NoParenCode(summary) ==> exists i ::
      && 0 <= i < |summary| && DelimitedCodeAt(summary, i, ParenOpen, ')')
      && (forall k :: 0 <= k < i ==> !DelimitedCodeAt(summary, k, ParenOpen, ')'))
      && r == Some(DelimitedCode(summary, i, ParenOpen, ')'))
    ensures NoParenCode(summary) && !NoCourseUrl(description) ==> exists i ::
      && 0 <= i < |description| && DelimitedCodeAt(description, i, CoursePathOpen, '/')
      && (forall k :: 0 <= k < i ==> !DelimitedCodeAt(description, k, CoursePathOpen, '/'))
      && r == Some(DelimitedCode(description, i, CoursePathOpen, '/'))
  {
    match FindDelimitedCode(summary, ParenOpen, ')')
    case Some(i) => Some(DelimitedCode(summary, i, ParenOpen, ')'))
    case None =>
      match FindDelimitedCode(description, CoursePathOpen, '/')
      case Some(i) => Some(DelimitedCode(description, i, CoursePathOpen, '/'))
      case None => None
  }

  /** A parenthesised code of four or more digits, dashes or capitals is taken as the course, whatever the description holds. */
  lemma ParenthesisedCodeFirst(prefix: string, code: string, description: string)
    requires NoParenCode(prefix) && |code| >= 4
    requires forall k :: 0 <= k < |code| ==> IsDashedCodeChar(code[k])
    ensures ExtractCourseCode(prefix + "(" + code + ")", description) == Some(code)
  {
    var s := prefix + "(" + code + ")";
    var i := |prefix|;
    assert s[i] == '(';
    assert OccursAt(ParenOpen, s, i);
    RunEndOfCode(s, i + 1, code);
    assert DelimitedCodeAt(s, i, ParenOpen, ')');
    forall k | 0 <= k < i
      ensures !DelimitedCodeAt(s, k, ParenOpen, ')')
    {
      NoEarlierCode(prefix, code, k);
    }
    assert s[i + 1..i + 1 + |code|] == code;
  }

  /** A year in parentheses is a course here, while the current detector rejects it. */
  lemma YearIsACourseHere()
    ensures ExtractCourseCode("(2024)", "") == Some("2024")
    ensures CourseDetect.DetectCourseCode("(2024)", "") == None
  {
    assert "" + "(" + "2024" + ")" == "(2024)";
    ParenthesisedCodeFirst("", "2024", "");
    CourseDetect.NoCapitalPairNoSummaryCode("(2024)", "");
  }

  /** The run of code characters after the `(` is exactly `code`. */
  lemma RunEndOfCode(s: string, i: nat, code: string)
    requires forall k :: 0 <= k < |code| ==> IsDashedCodeChar(code[k])
    requires i + |code| < |s| && s[i..i + |code|] == code && s[i + |code|] == ')'
    ensures RunEnd(s, i, IsDashedCodeChar) == i + |code|
    decreases |code|
  {
    if code != [] {
      assert s[i] == code[0];
      assert s[i + 1..i + 1 + |code[1..]|] == code[1..];
      RunEndOfCode(s, i + 1, code[1..]);
    }
  }

  /** No match starts inside a prefix that has none: a match there would be a match of the prefix. */
  lemma NoEarlierCode(prefix: string, code: string, k: nat)
    requires NoParenCode(prefix) && k < |prefix|
    requires forall j :: 0 <= j < |code| ==> IsDashedCodeChar(code[j])
    ensures !DelimitedCodeAt(prefix + "(" + code + ")", k, ParenOpen, ')')
  {
    var s := prefix + "(" + code + ")";
    if DelimitedCodeAt(s, k, ParenOpen, ')') {
      var e := RunEnd(s, k + 1, IsDashedCodeChar);
      // The run from k + 1 stops at a ')', and the first ')' of `s` after the prefix ends it.
      if e < |prefix| {
        RunEndPrefix(prefix, s, k + 1);
        assert DelimitedCodeAt(prefix, k, ParenOpen, ')');
      } else {
        assert s[|prefix|] == '(';
        RunEndStops(s, k + 1, |prefix|);
      }
    }
  }

  /** A run that ends inside `prefix` ends at the same place in any extension of it. */
  lemma RunEndPrefix(prefix: string, s: string, i: nat)
    requires i <= |prefix| <= |s| && s[..|prefix|] == prefix
    requires RunEnd(s, i, IsDashedCodeChar) < |prefix|
    ensures RunEnd(prefix, i, IsDashedCodeChar) == RunEnd(s, i, IsDashedCodeChar)
    decreases |prefix| - i
  {
    assert s[i] == prefix[i];
    if IsDashedCodeChar(s[i]) {
      RunEndPrefix(prefix, s, i + 1);
    }
  }

  /** A run of code characters cannot pass a character outside the class. */
  lemma RunEndStops(s: string, i: nat, j: nat)
    requires i <= j < |s| && !IsDashedCodeChar(s[j])
    ensures RunEnd(s, i, IsDashedCodeChar) <= j
    decreases j - i
  {
    if i < j && IsDashedCodeChar(s[i]) {
      RunEndStops(s, i + 1, j);
    }
  }

  // ---------------------------------------------------------------------------
  // Rewriting from a raw rule document (lines 253-302)

  /** The numbering patterns in the order they are tried (lines 240-242, 273), with the rule key each reads. */
  const Numberings: seq<(string, string)> := [("lecture", "lectures"), ("lab", "labs"), ("exercise", "exercises")]

  /** The first numbering pattern from the `i`-th on that occurs, with its rule key and number. */
  function DetectFrom(summary: string, i: nat): (r: Option<(string, nat)>)
    requires i <= |Numberings|
    ensures r.None? <==> forall k :: i <= k < |Numberings| ==> SearchKeywordNumber(summary, Numberings[k].0, 1).None?
    ensures r.Some? ==> exists k :: i <= k < |Numberings| && r.value.0 == Numberings[k].1 && SearchKeywordNumber(summary, Numberings[k].0, 1) == Some(r.value.1)
    decreases |Numberings| - i
  {
    if i == |Numberings| then None
    else
      var m := SearchKeywordNumber(summary, Numberings[i].0, 1);
      if m.Some? then Some((Numberings[i].1, m.value))
      else DetectFrom(summary, i + 1)
  }

  /** The numbering loop of lines 273-278: the first pattern that occurs gives the kind and the number. */
  method DetectNumbering(summary: string) returns (r: Option<(string, nat)>)
    ensures r == DetectFrom(summary, 0)
  {
    var i := 0;
    while i < |Numberings|
      invariant 0 <= i <= |Numberings|
      invariant DetectFrom(summary, 0) == DetectFrom(summary, i)
    {
      var m := SearchKeywordNumber(summary, Numberings[i].0, 1);
      if m.Some? {
        return Some((Numberings[i].1, m.value));
      }
      i := i + 1;
    }
    return None;
  }

  /** Nothing is detected exactly when none of the three patterns occurs. */
  lemma NoNumbering(summary: string)
    ensures DetectFrom(summary, 0).None? <==>
      && SearchKeywordNumber(summary, "lecture", 1).None?
      && SearchKeywordNumber(summary, "lab", 1).None?
      && SearchKeywordNumber(summary, "exercise", 1).None?
  {
    assert Numberings[0] == ("lecture", "lectures") && Numberings[1] == ("lab", "labs") && Numberings[2] == ("exercise", "exercises");
  }

  /** `Lecture`, then `Lab`, then `Exercise`, each followed by at least one space and a number; the first that occurs wins. */
  lemma NumberingOrder(summary: string)
    ensures SearchKeywordNumber(summary, "lecture", 1).Some? ==>
      DetectFrom(summary, 0) == Some(("lectures", SearchKeywordNumber(summary, "lecture", 1).value))
    ensures SearchKeywordNumber(summary, "lecture", 1).None? && SearchKeywordNumber(summary, "lab", 1).Some? ==>
      DetectFrom(summary, 0) == Some(("labs", SearchKeywordNumber(summary, "lab", 1).value))
    ensures
      && SearchKeywordNumber(summary, "lecture", 1).None? && SearchKeywordNumber(summary, "lab", 1).None?
      && SearchKeywordNumber(summary, "exercise", 1).Some?
      ==> DetectFrom(summary, 0) == Some(("exercises", SearchKeywordNumber(summary, "exercise", 1).value))
  {
    assert Numberings[0] == ("lecture", "lectures") && Numberings[1] == ("lab", "labs") && Numberings[2] == ("exercise", "exercises");
  }

  /** `rules.get(kind) or []` as iterated: `None` when the loop raises (a number, or a string or object whose elements have no `.get`). */
  function RuleItems(v: Json): (r: Option<seq<Json>>)
    ensures !Truthy(v) ==> r == Some([])
    ensures v.JList? ==> r == Some(v.items)
    ensures r.None? <==> Truthy(v) && !v.JList?
  {
    if !Truthy(v) then Some([]) else if v.JList? then Some(v.items) else None
  }

  /** `int(item.get("number", -1))`, or `None` when `.get` or `int` raises. */
  function ItemNumber(item: Json): Option<int> {
    match item
    case JObject(f) => PyIntOf(GetOr(f, "number", JInt(-1)))
    case _ => None
  }

  /** `item.get("title"), item.get("module")` for an item whose number was read. */
  function TitleAndModule(item: Json): (Json, Json) {
    match item
    case JObject(f) => (Get(f, "title"), Get(f, "module"))
    case _ => (JNull, JNull)
  }

  /** `find_title_and_module` over the items: `None` when an item raises before a match. */
  function FindSpec(items: seq<Json>, number: int): (r: Option<(Json, Json)>)
    ensures (forall k :: 0 <= k < |items| ==> ItemNumber(items[k]).Some? && ItemNumber(items[k]) != Some(number)) ==>
      r == Some((JNull, JNull))
    ensures r.None? ==> exists k :: 0 <= k < |items| && ItemNumber(items[k]).None?
    decreases |items|
  {
    if items == [] then Some((JNull, JNull))
    else
      var rest := FindSpec(items[1..], number);
      assert forall k :: 1 <= k < |items| ==> items[k] == items[1..][k - 1];
      match ItemNumber(items[0])
      case None => None
      case Some(n) => if n == number then Some(TitleAndModule(items[0])) else rest
  }

  /** The first item with the number supplies the title and module; later duplicates are never read. */
  lemma {:induction false} FirstItemWins(items: seq<Json>, number: int, k: nat)
    requires k < |items| && ItemNumber(items[k]) == Some(number)
    requires forall j :: 0 <= j < k ==> ItemNumber(items[j]).Some? && ItemNumber(items[j]) != Some(number)
    ensures FindSpec(items, number) == Some(TitleAndModule(items[k]))
    decreases k
  {
    if k > 0 {
      assert forall j :: 0 <= j < k - 1 ==> items[1..][j] == items[j + 1];
      FirstItemWins(items[1..], number, k - 1);
    }
  }

  /** `find_title_and_module(kind, number)`: the loop of lines 261-265. */
  method FindTitleAndModule(items: seq<Json>, number: int) returns (r: Option<(Json, Json)>)
    ensures r == FindSpec(items, number)
  {
    var i := 0;
    while i < |items|
      invariant 0 <= i <= |items|
      invariant FindSpec(items, number) == FindSpec(items[i..], number)
    {
      assert items[i..][1..] == items[i + 1..];
      var n := ItemNumber(items[i]);
      if n.None? {
        return None;
      }
      if n.value == number {
        return Some(TitleAndModule(items[i]));
      }
      i := i + 1;
    }
    return Some((JNull, JNull));
  }

  /** `"Lecture" if kind_detected == "lectures" else ("Lab" if kind_detected == "labs" else "Exercise")`. */
  function PrefixOf(kind: string): (p: string)
    ensures p in {"Lecture", "Lab", "Exercise"}
    ensures kind == "lectures" <==> p == "Lecture"
  {
    if kind == "lectures" then "Lecture" else if kind == "labs" then "Lab" else "Exercise"
  }

  /** The module's part of the description; `None` when a truthy module is not text, so that `"\n\n".join` raises. */
  function ModulePart(m: Json): (r: Option<seq<string>>)
    ensures !Truthy(m) ==> r == Some([])
    ensures m.JString? && m.s != "" ==> r == Some([m.s])
  {
    if !Truthy(m) then Some([]) else if m.JString? then Some([m.s]) else None
  }

  function CanvasPart(rules: map<string, Json>): seq<string> {
    if Truthy(Get(rules, "canvas_url")) then ["Canvas: " + PyStr(Get(rules, "canvas_url"))] else []
  }

  function OriginalPart(description: string): seq<string> {
    if Strip(description) != "" then [Strip(description)] else []
  }

  /** The title and module found for the numbering, `(None, None)` without one, or `None` when the lookup raises. */
  function Lookup(summary: string, rules: map<string, Json>): (r: Option<(Json, Json)>)
    ensures DetectFrom(summary, 0).None? ==> r == Some((JNull, JNull))
    ensures r.None? ==> DetectFrom(summary, 0).Some?
    ensures r.None? ==>
      var v := Get(rules, DetectFrom(summary, 0).value.0);
      (Truthy(v) && !v.JList?) || (v.JList? && exists k :: 0 <= k < |v.items| && ItemNumber(v.items[k]).None?)
  {
    match DetectFrom(summary, 0)
    case None => Some((JNull, JNull))
    case Some((kind, n)) =>
      match RuleItems(Get(rules, kind))
      case None => None
      case Some(items) => FindSpec(items, n)
  }

  /** The new summary (lines 283-288). */
  function RewrittenSummary(summary: string, course: string, title: Json): string {
    match DetectFrom(summary, 0)
    case Some((kind, n)) =>
      if Truthy(title) then PrefixOf(kind) + " " + IntToString(n) + " - " + PyStr(title) + " - " + course else summary
    case None => summary
  }

  /** `apply_rewrite(summary, description, course, rules)`, or `None` when it raises. */
  function ApplyRewriteSpec(summary: string, description: string, course: string, rules: map<string, Json>): (r: Option<(string, string)>)
    ensures rules == map[] ==> r == Some((summary, description))
    ensures r.Some? && rules != map[] ==> Strip(r.value.1) == r.value.1
  {
    if rules == map[] then Some((summary, description))
    else match Lookup(summary, rules)
      case None => None
      case Some((title, m)) =>
        match ModulePart(m)
        case None => None
        case Some(mp) =>
          var d := Strip(Join("\n\n", mp + CanvasPart(rules) + OriginalPart(description)));
          StripIdempotent(Join("\n\n", mp + CanvasPart(rules) + OriginalPart(description)));
          Some((RewrittenSummary(summary, course, title), d))
  }

  /** The numbering detection and `find_title_and_module` call of `apply_rewrite` (lines 273-281). */
  method LookupTitleAndModule(summary: string, rules: map<string, Json>) returns (detected: Option<(string, nat)>, r: Option<(Json, Json)>)
    ensures detected == DetectFrom(summary, 0)
    ensures r == Lookup(summary, rules)
  {
    detected := DetectNumbering(summary);
    if detected.None? {
      return detected, Some((JNull, JNull));
    }
    var (kind, number) := detected.value;
    var items := RuleItems(Get(rules, kind));
    if items.None? {
      return detected, None;
    }
    r := FindTitleAndModule(items.value, number);
  }

  /** The description parts in order (lines 290-299): module, canvas link, stripped original; `None` when the module is not text. */
  method DescriptionParts(m: Json, rules: map<string, Json>, description: string) returns (parts: Option<seq<string>>)
    ensures ModulePart(m).None? ==> parts.None?
    ensures ModulePart(m).Some? ==> parts == Some(ModulePart(m).value + CanvasPart(rules) + OriginalPart(description))
  {
    var ps: seq<string> := [];
    if Truthy(m) {
      if !m.JString? {
        return None;
      }
      ps := ps + [m.s];
    }
    assert ps == ModulePart(m).value;
    var canvas := Get(rules, "canvas_url");
    if Truthy(canvas) {
      ps := ps + ["Canvas: " + PyStr(canvas)];
    }
    assert ps == ModulePart(m).value + CanvasPart(rules);
    var stripped := Strip(description);
    if stripped != "" {
      ps := ps + [stripped];
    }
    assert ps == ModulePart(m).value + CanvasPart(rules) + OriginalPart(description);
    return Some(ps);
  }

  /** `apply_rewrite`: the numbering loop with `break`, the lookup, the new summary, and the description parts joined and stripped. */
  method ApplyRewrite(summary: string, description: string, course: string, rules: map<string, Json>) returns (r: Option<(string, string)>)
    ensures r == ApplyRewriteSpec(summary, description, course, rules)
  {
    if rules == map[] {
      return Some((summary, description));
    }
    var detected, found := LookupTitleAndModule(summary, rules);
    if found.None? {
      return None;
    }
    var (title, m) := found.value;
    var newSummary := summary;
    if detected.Some? && Truthy(title) {
      var (kind, number) := detected.value;
      newSummary := PrefixOf(kind) + " " + IntToString(number) + " - " + PyStr(title) + " - " + course;
    }
    assert newSummary == RewrittenSummary(summary, course, title);
    var parts := DescriptionParts(m, rules, description);
    if parts.None? {
      return None;
    }
    r := Some((newSummary, Strip(Join("\n\n", parts.value))));
  }

  /** The summary is replaced only when a numbering matched and the rules gave a truthy title for it. */
  lemma SummaryNeedsTitle(summary: string, description: string, course: string, rules: map<string, Json>)
    ensures var r := ApplyRewriteSpec(summary, description, course, rules);
      r.Some? && r.value.0 != summary ==>
        && rules != map[] && DetectFrom(summary, 0).Some?
        && Lookup(summary, rules).Some? && Truthy(Lookup(summary, rules).value.0)
  {
  }

  /** With a numbering and a truthy title, the summary is `"<Prefix> <n> - <title> - <course>"`. */
  lemma NumberedSummary(summary: string, description: string, course: string, rules: map<string, Json>)
    requires rules != map[] && DetectFrom(summary, 0).Some?
    requires Lookup(summary, rules).Some? && Truthy(Lookup(summary, rules).value.0)
    requires ModulePart(Lookup(summary, rules).value.1).Some?
    ensures var (kind, n) := DetectFrom(summary, 0).value;
      ApplyRewriteSpec(summary, description, course, rules).Some? &&
      ApplyRewriteSpec(summary, description, course, rules).value.0
        == PrefixOf(kind) + " " + IntToString(n) + " - " + PyStr(Lookup(summary, rules).value.0) + " - " + course
  {
  }

  /**
   * Without a numbering the summary is kept, and the description still gets
   * the canvas line and the stripped original.
   */
  lemma UnnumberedDescription(summary: string, description: string, course: string, rules: map<string, Json>)
    requires rules != map[] && DetectFrom(summary, 0).None?
    ensures ApplyRewriteSpec(summary, description, course, rules)
      == Some((summary, Strip(Join("\n\n", CanvasPart(rules) + OriginalPart(description)))))
  {
    assert [] + CanvasPart(rules) + OriginalPart(description) == CanvasPart(rules) + OriginalPart(description);
  }

  /** A blank original description with no module and no canvas link gives an empty description. */
  lemma NothingToSay(summary: string, description: string, course: string, rules: map<string, Json>)
    requires rules != map[] && DetectFrom(summary, 0).None?
    requires !Truthy(Get(rules, "canvas_url")) && IsBlank(description)
    ensures ApplyRewriteSpec(summary, description, course, rules) == Some((summary, ""))
  {
    UnnumberedDescription(summary, description, course, rules);
  }

  // ---------------------------------------------------------------------------
  // Keying rule documents (lines 221-231)

  /**
   * The entry a parsed document adds: its whole object under its `course_code`.
   * A document that is not an object, or whose code is falsy or unhashable
   * (a list or an object), is skipped.
   */
  function RuleDocEntry(doc: Option<Json>): (r: Option<(Json, map<string, Json>)>)
    ensures r.Some? ==> Truthy(r.value.0) && !r.value.0.JList? && !r.value.0.JObject?
    ensures r.Some? ==> doc.Some? && doc.value.JObject? && r.value == (Get(doc.value.fields, "course_code"), doc.value.fields)
    ensures doc.Some? && doc.value.JObject? ==>
      var code := Get(doc.value.fields, "course_code");
      Truthy(code) && !code.JList? && !code.JObject? ==> r == Some((code, doc.value.fields))
  {
    match doc
    case Some(JObject(f)) =>
      var code := Get(f, "course_code");
      if Truthy(code) && !code.JList? && !code.JObject? then Some((code, f)) else None
    case _ => None
  }

  function RuleDocEntries(): Option<Json> -> Option<(Json, map<string, Json>)> {
    doc => RuleDocEntry(doc)
  }

  /** `load_course_rules` over the `*.json` files in sorted order (`None` for one that cannot be read or parsed). */
  function LoadCourseRulesSpec(docs: seq<Option<Json>>): map<Json, map<string, Json>> {
    Upsert(map[], docs, RuleDocEntries())
  }

  method LoadCourseRules(docs: seq<Option<Json>>) returns (rules: map<Json, map<string, Json>>)
    ensures rules == LoadCourseRulesSpec(docs)
  {
    rules := map[];
    var i := 0;
    while i < |docs|
      invariant 0 <= i <= |docs|
      invariant rules == Upsert(map[], docs[..i], RuleDocEntries())
    {
      UpsertNext(map[], docs, i, RuleDocEntries(), rules);
      assert RuleDocEntries()(docs[i]) == RuleDocEntry(docs[i]);
      if docs[i].Some? && docs[i].value.JObject? {
        var code := Get(docs[i].value.fields, "course_code");
        if Truthy(code) && !code.JList? && !code.JObject? {
          rules := rules[code := docs[i].value.fields];
        }
      }
      i := i + 1;
    }
    assert docs[..|docs|] == docs;
  }

  /** Every stored document holds its key as its own `course_code`, and every key is truthy. */
  lemma LoadedKeyedByCode(docs: seq<Option<Json>>)
    ensures forall c :: c in LoadCourseRulesSpec(docs) ==>
      Truthy(c) && Get(LoadCourseRulesSpec(docs)[c], "course_code") == c
  {
    UpsertPreserves(map[], docs, RuleDocEntries(), (c: Json, f: map<string, Json>) => Truthy(c) && Get(f, "course_code") == c);
  }

  /** A document without a usable `course_code` changes nothing. */
  lemma SkippedDocument(docs: seq<Option<Json>>, doc: Option<Json>)
    requires RuleDocEntry(doc).None?
    ensures LoadCourseRulesSpec(docs + [doc]) == LoadCourseRulesSpec(docs)
  {
    UpsertSnoc(map[], docs, doc, RuleDocEntries());
  }

  /** A later document with the same code replaces an earlier one. */
  lemma LaterDocumentWins(docs: seq<Option<Json>>, i: nat)
    requires i < |docs| && RuleDocEntry(docs[i]).Some?
    requires forall j :: i < j < |docs| ==> !HasKey(RuleDocEntries(), docs[j], RuleDocEntry(docs[i]).value.0)
    ensures var (code, f) := RuleDocEntry(docs[i]).value;
      code in LoadCourseRulesSpec(docs) && LoadCourseRulesSpec(docs)[code] == f
  {
    UpsertLastWins(map[], docs, RuleDocEntries(), i);
  }
}
