/**
 * `rewrite_event` of rewrite.py: the new summary and description of an event
 * of a course, from the course's rules. A title and module are looked up
 * for the event's number and kind: first in the configurable event types, then
 * in the `lectures`/`labs`/`exercises` maps. The summary is re-rendered only
 * when a title and a number were both found. The description is rebuilt from
 * the module, the canvas link and the original text.
 *
 * `str.format` raises on a placeholder it has no value for, so the templates
 * in play are required to name only the placeholders they are given.
 */
module Rewrite {
  import opened Wrappers
  import opened Text
  import opened Regex
  import opened EventTypes
  import opened Templates
  import opened Rules
  import opened Extraction

  /** What the lookups resolve for an event: its number and kind, and a title and module, `""` standing for none. */
  datatype Resolved = Resolved(nk: NumKind, title: string, moduleName: string)

  /** A kind is truthy when it is present and not empty. */
  predicate KindGiven(kind: Option<string>) { kind.Some? && kind.value != "" }

  /** The item of the configurable event type named `kind` under key `n`, if any. */
  function ModernItem(cr: CourseRules, nk: NumKind): (r: Option<EventItem>)
    ensures r.Some? ==> cr.eventTypes != [] && KindGiven(nk.kind) && FindType(cr.eventTypes, nk.kind.value).Some?
    ensures cr.eventTypes != [] && KindGiven(nk.kind) && FindType(cr.eventTypes, nk.kind.value).Some? ==>
      r == LookupItem(FindType(cr.eventTypes, nk.kind.value).value.items, nk.n)
  {
    if cr.eventTypes != [] && KindGiven(nk.kind) then
      match FindType(cr.eventTypes, nk.kind.value)
      case None => None
      case Some(et) => LookupItem(et.items, nk.n)
    else None
  }

  /** The legacy entry for number `n` in the map of `kind`; other kinds have none. */
  function LegacyEntry(cr: CourseRules, nk: NumKind): (r: Option<Entry>)
    ensures r.Some? ==> nk.n.Some? && nk.kind.Some? && nk.kind.value in LegacyKinds
    ensures r.Some? && nk.kind == Some("lecture") ==> nk.n.value in cr.lectures && r.value == cr.lectures[nk.n.value]
    ensures r.Some? && nk.kind == Some("lab") ==> nk.n.value in cr.labs && r.value == cr.labs[nk.n.value]
    ensures r.Some? && nk.kind == Some("exercise") ==> nk.n.value in cr.exercises && r.value == cr.exercises[nk.n.value]
  {
    if nk.n.None? then None
    else
      var n := nk.n.value;
      if nk.kind == Some("lecture") then (if n in cr.lectures then Some(cr.lectures[n]) else None)
      else if nk.kind == Some("lab") then (if n in cr.labs then Some(cr.labs[n]) else None)
      else if nk.kind == Some("exercise") then (if n in cr.exercises then Some(cr.exercises[n]) else None)
      else None
  }

  /** The metadata lookups of lines 142-180: an item's non-empty metadata wins; otherwise the legacy entry, stripped. */
  function Resolve(e: Engine, summary: string, cr: CourseRules): (r: Resolved)
    ensures r.nk == Extract(e, Some(cr), summary)
    ensures var item := ModernItem(cr, r.nk);
      item.Some? && item.value.metadata != map[] ==>
        r.title == ItemGet(item.value, "title") && r.moduleName == ItemGet(item.value, "module")
    ensures var item := ModernItem(cr, r.nk);
      (item.None? || item.value.metadata == map[]) && LegacyEntry(cr, r.nk).Some? ==>
        r.title == Strip(LegacyEntry(cr, r.nk).value.title) && r.moduleName == Strip(LegacyEntry(cr, r.nk).value.moduleName)
    ensures var item := ModernItem(cr, r.nk);
      (item.None? || item.value.metadata == map[]) && LegacyEntry(cr, r.nk).None? ==> r.title == "" && r.moduleName == ""
  {
    var nk := Extract(e, Some(cr), summary);
    var item := ModernItem(cr, nk);
    var metadata := if item.Some? then item.value.metadata else map[];
    var title := if item.Some? then ItemGet(item.value, "title") else "";
    var moduleName := if item.Some? then ItemGet(item.value, "module") else "";
    if metadata == map[] && nk.n.Some? && LegacyEntry(cr, nk).Some? then
      var entry := LegacyEntry(cr, nk).value;
      Resolved(nk, Strip(entry.title), Strip(entry.moduleName))
    else Resolved(nk, title, moduleName)
  }

  /** The summary prefix: the event type's display name, else the capitalised kind, else Lecture/Lab/Exercise. */
  function Prefix(cr: CourseRules, kind: Option<string>): (p: string)
    ensures !(KindGiven(kind) && cr.eventTypes != []) ==> (p in {"Lecture", "Lab", "Exercise"})
    ensures KindGiven(kind) && cr.eventTypes != [] && FindType(cr.eventTypes, kind.value).None? ==> p == Capitalize(kind.value)
    ensures KindGiven(kind) && cr.eventTypes != [] && FindType(cr.eventTypes, kind.value).Some? ==>
      p == FindType(cr.eventTypes, kind.value).value.displayName
    ensures !(KindGiven(kind) && cr.eventTypes != []) ==>
      (p == "Lecture" <==> kind == Some("lecture")) && (p == "Lab" <==> kind == Some("lab"))
  {
    if KindGiven(kind) && cr.eventTypes != [] then
      match FindType(cr.eventTypes, kind.value)
      case Some(et) => et.displayName
      case None => Capitalize(kind.value)
    else if kind == Some("lecture") then "Lecture"
    else if kind == Some("lab") then "Lab"
    else "Exercise"
  }

  /** `cr.title_template or <default>`. */
  function TitleTemplateOf(cr: CourseRules): string {
    if cr.titleTemplate == "" then DefaultTitleTemplate else cr.titleTemplate
  }

  /** `cr.description_template or <default>`. */
  function DescriptionTemplateOf(cr: CourseRules): string {
    if cr.descriptionTemplate == "" then DefaultDescriptionTemplate else cr.descriptionTemplate
  }

  /** The templates in play name only the placeholders `format` is given. */
  predicate TemplatesOk(cr: CourseRules) {
    TemplateUses(TitleTemplateOf(cr), TitleFields) && TemplateUses(DescriptionTemplateOf(cr), DescriptionFields)
  }

  function TitleEnv(prefix: string, n: int, title: string, course: string): (env: map<string, string>)
    ensures env.Keys == TitleFields
    ensures env["kind"] == prefix && env["n"] == IntToString(n) && env["title"] == title && env["course"] == course
  {
    map["kind" := prefix, "n" := IntToString(n), "title" := title, "course" := course]
  }

  function DescriptionEnv(moduleName: string, canvas: string, oldDesc: string): (env: map<string, string>)
    ensures env.Keys == DescriptionFields
    ensures env["module"] == moduleName && env["canvas"] == canvas && env["old_desc"] == oldDesc
  {
    map["module" := moduleName, "canvas" := canvas, "old_desc" := oldDesc]
  }

  /** `cr.canvas or ""`. */
  function CanvasText(cr: CourseRules): string {
    if cr.canvas.Some? then cr.canvas.value else ""
  }

  /** The new summary (lines 183-197). */
  function NewSummary(cr: CourseRules, summary: string, course: string, res: Resolved): (r: string)
    requires TemplatesOk(cr)
    ensures res.title == "" || res.nk.n.None? ==> r == summary
  {
    if res.title != "" && res.nk.n.Some? then
      Format(TitleTemplateOf(cr), TitleEnv(Prefix(cr, res.nk.kind), res.nk.n.value, res.title, course))
    else summary
  }

  /** The parts joined when the description is blank: the module and the canvas line, each when non-empty. */
  function DescriptionParts(moduleName: string, canvas: string): seq<string> {
    (if moduleName != "" then [moduleName] else []) + (if canvas != "" then ["Canvas: " + canvas] else [])
  }

  /** The new description (lines 200-216). */
  function NewDescription(cr: CourseRules, description: string, moduleName: string): (r: string)
    requires TemplatesOk(cr)
    ensures Strip(r) == r
  {
    var raw := if !IsBlank(description) then
      Format(DescriptionTemplateOf(cr), DescriptionEnv(Strip(moduleName), Strip(CanvasText(cr)), Strip(description)))
    else Join("\n\n", DescriptionParts(moduleName, CanvasText(cr)));
    StripIdempotent(raw);
    Strip(raw)
  }

  /** The gate of line 139: the summary must contain `(COURSE)` when the rules require it. */
  predicate Gated(cr: CourseRules, summary: string, course: string) {
    cr.requireCourseInSummary && !Contains("(" + course + ")", summary)
  }

  /** `rewrite_event(summary, description, course, cr)`. */
  function RewriteSpec(e: Engine, summary: string, description: string, course: string, cr: Option<CourseRules>): (r: (string, string))
    requires cr.Some? ==> TemplatesOk(cr.value)
    ensures cr.None? || Gated(cr.value, summary, course) ==> r == (summary, description)
    ensures cr.Some? && !Gated(cr.value, summary, course) ==> Strip(r.1) == r.1
  {
    if cr.None? || Gated(cr.value, summary, course) then (summary, description)
    else
      var res := Resolve(e, summary, cr.value);
      (NewSummary(cr.value, summary, course, res), NewDescription(cr.value, description, res.moduleName))
  }

  /** The `for et in cr.event_types: if et.type == kind: break` search of lines 151-154 and 188-191. */
  method FindEventType(types: seq<EventType>, kind: string) returns (r: Option<EventType>)
    ensures r == FindType(types, kind)
  {
    var i := 0;
    while i < |types|
      invariant 0 <= i <= |types|
      invariant FindType(types, kind) == FindType(types[i..], kind)
    {
      if types[i].kind == kind {
        return Some(types[i]);
      }
      assert types[i..][1..] == types[i + 1..];
      i := i + 1;
    }
    return None;
  }

  /** Lines 142-180: the number and kind, then `title`, `module` and `metadata` reassigned by the two lookups. */
  method ResolveLookups(e: Engine, summary: string, rules: CourseRules) returns (res: Resolved)
    ensures res == Resolve(e, summary, rules)
  {
    var nk := ExtractNumberAndKind(e, Some(rules), summary);
    var title := "";
    var moduleName := "";
    var metadata: map<string, string> := map[];
    if rules.eventTypes != [] && KindGiven(nk.kind) {
      var et := FindEventType(rules.eventTypes, nk.kind.value);
      if et.Some? {
        var item := LookupItem(et.value.items, nk.n);
        if item.Some? {
          metadata := item.value.metadata;
          title := ItemGet(item.value, "title");
          moduleName := ItemGet(item.value, "module");
        }
      }
    }
    if metadata == map[] && nk.n.Some? {
      var info := LegacyEntry(rules, nk);
      if info.Some? {
        title := Strip(info.value.title);
        moduleName := Strip(info.value.moduleName);
      }
    }
    return Resolved(nk, title, moduleName);
  }

  /** Lines 183-197: the prefix search with its `for`/`else`, then the title template rendered. */
  method RenderSummary(rules: CourseRules, summary: string, course: string, res: Resolved) returns (newSummary: string)
    requires TemplatesOk(rules)
    ensures newSummary == NewSummary(rules, summary, course, res)
  {
    newSummary := summary;
    if res.title != "" && res.nk.n.Some? {
      var kind := res.nk.kind;
      var prefix;
      if KindGiven(kind) && rules.eventTypes != [] {
        var et := FindEventType(rules.eventTypes, kind.value);
        if et.Some? {
          prefix := et.value.displayName;
        } else {
          prefix := Capitalize(kind.value);
        }
      } else {
        prefix := if kind == Some("lecture") then "Lecture" else if kind == Some("lab") then "Lab" else "Exercise";
      }
      assert prefix == Prefix(rules, kind);
      newSummary := Format(TitleTemplateOf(rules), TitleEnv(prefix, res.nk.n.value, res.title, course));
    }
  }

  /** Lines 200-216: the rendered template for a non-blank description, else `parts` built by appends and joined. */
  method RenderDescription(rules: CourseRules, description: string, moduleName: string) returns (newDescription: string)
    requires TemplatesOk(rules)
    ensures newDescription == NewDescription(rules, description, moduleName)
  {
    if !IsBlank(description) {
      newDescription := Strip(Format(DescriptionTemplateOf(rules),
        DescriptionEnv(Strip(moduleName), Strip(CanvasText(rules)), Strip(description))));
      return;
    }
    var parts: seq<string> := [];
    if moduleName != "" {
      parts := parts + [moduleName];
    }
    if CanvasText(rules) != "" {
      parts := parts + ["Canvas: " + CanvasText(rules)];
    }
    assert parts == DescriptionParts(moduleName, CanvasText(rules));
    newDescription := Strip(Join("\n\n", parts));
  }

  /** `rewrite_event`. */
  method RewriteEvent(e: Engine, summary: string, description: string, course: string, cr: Option<CourseRules>)
    returns (newSummary: string, newDescription: string)
    requires cr.Some? ==> TemplatesOk(cr.value)
    ensures (newSummary, newDescription) == RewriteSpec(e, summary, description, course, cr)
  {
    if cr.None? {
      return summary, description;
    }
    var rules := cr.value;
    if rules.requireCourseInSummary && !Contains("(" + course + ")", summary) {
      return summary, description;
    }
    var res := ResolveLookups(e, summary, rules);
    newSummary := RenderSummary(rules, summary, course, res);
    newDescription := RenderDescription(rules, description, res.moduleName);
  }

  // ---------------------------------------------------------------------------
  // Properties

  /** Without rules, or when the summary lacks a required `(COURSE)`, nothing is rewritten. */
  lemma UnchangedWithoutRulesOrCourse(e: Engine, summary: string, description: string, course: string, cr: Option<CourseRules>)
    requires cr.Some? ==> TemplatesOk(cr.value)
    requires cr.None? || (cr.value.requireCourseInSummary && forall k :: !OccursAt("(" + course + ")", summary, k))
    ensures RewriteSpec(e, summary, description, course, cr) == (summary, description)
  {
  }

  /** A summary that names `(COURSE)` passes the gate whatever the rules require. */
  lemma CourseInSummaryPassesGate(cr: CourseRules, summary: string, course: string, k: nat)
    requires OccursAt("(" + course + ")", summary, k)
    ensures !Gated(cr, summary, course)
  {
  }

  /** The summary changes only when the lookups resolved both a title and a number. */
  lemma SummaryChangesOnlyWithTitle(e: Engine, summary: string, description: string, course: string, cr: CourseRules)
    requires TemplatesOk(cr)
    ensures RewriteSpec(e, summary, description, course, Some(cr)).0 != summary ==>
      && !Gated(cr, summary, course)
      && Resolve(e, summary, cr).title != ""
      && Resolve(e, summary, cr).nk.n.Some?
  {
  }

  /**
   * With the default title template, a resolved title and number give
   * `"<prefix> <n> - <title> - <course>"`.
   */
  lemma DefaultTitleSummary(e: Engine, summary: string, description: string, course: string, cr: CourseRules)
    requires TemplatesOk(cr) && TitleTemplateOf(cr) == DefaultTitleTemplate
    requires !Gated(cr, summary, course)
    requires Resolve(e, summary, cr).title != "" && Resolve(e, summary, cr).nk.n.Some?
    ensures var res := Resolve(e, summary, cr);
      RewriteSpec(e, summary, description, course, Some(cr)).0
      == Prefix(cr, res.nk.kind) + " " + IntToString(res.nk.n.value) + " - " + res.title + " - " + course
  {
    var res := Resolve(e, summary, cr);
    DefaultTitleFormat(TitleEnv(Prefix(cr, res.nk.kind), res.nk.n.value, res.title, course));
  }

  /**
   * The legacy path: without event types, a lecture number with a stored
   * non-empty title gives `"Lecture <n> - <title> - <course>"` under the default template.
   */
  lemma LegacyLectureSummary(e: Engine, summary: string, description: string, course: string, cr: CourseRules, n: int)
    requires TemplatesOk(cr) && TitleTemplateOf(cr) == DefaultTitleTemplate
    requires !Gated(cr, summary, course) && cr.eventTypes == []
    requires Extract(e, Some(cr), summary) == NumKind(Some(n), Some("lecture"))
    requires n in cr.lectures && Strip(cr.lectures[n].title) != ""
    ensures RewriteSpec(e, summary, description, course, Some(cr)).0
      == "Lecture" + " " + IntToString(n) + " - " + Strip(cr.lectures[n].title) + " - " + course
  {
    var res := Resolve(e, summary, cr);
    assert ModernItem(cr, res.nk).None?;
    assert LegacyEntry(cr, res.nk) == Some(cr.lectures[n]);
    assert res.title == Strip(cr.lectures[n].title);
    assert Prefix(cr, res.nk.kind) == "Lecture";
    DefaultTitleSummary(e, summary, description, course, cr);
  }

  /** An event-type item with metadata supplies the title and module; the legacy maps are not consulted. */
  lemma ItemMetadataWins(e: Engine, summary: string, cr: CourseRules)
    requires ModernItem(cr, Extract(e, Some(cr), summary)).Some?
    requires ModernItem(cr, Extract(e, Some(cr), summary)).value.metadata != map[]
    ensures var item := ModernItem(cr, Extract(e, Some(cr), summary)).value;
      Resolve(e, summary, cr).title == ItemGet(item, "title") && Resolve(e, summary, cr).moduleName == ItemGet(item, "module")
  {
  }

  /**
   * A non-blank description is replaced by the stripped rendering of the
   * description template; with the default template that is the module, the
   * canvas line and the original text.
   */
  lemma NonBlankDescriptionDefault(e: Engine, summary: string, description: string, course: string, cr: CourseRules)
    requires TemplatesOk(cr) && DescriptionTemplateOf(cr) == DefaultDescriptionTemplate
    requires !Gated(cr, summary, course) && !IsBlank(description)
    ensures RewriteSpec(e, summary, description, course, Some(cr)).1
      == Strip(Strip(Resolve(e, summary, cr).moduleName) + "\nCanvas: " + Strip(CanvasText(cr)) + "\n\n" + Strip(description))
  {
    var res := Resolve(e, summary, cr);
    DefaultDescriptionFormat(DescriptionEnv(Strip(res.moduleName), Strip(CanvasText(cr)), Strip(description)));
  }

  /** Past the gate, the result is the new summary and the new description of the resolved lookups. */
  lemma RewriteParts(e: Engine, summary: string, description: string, course: string, cr: CourseRules)
    requires TemplatesOk(cr) && !Gated(cr, summary, course)
    ensures RewriteSpec(e, summary, description, course, Some(cr)).0 == NewSummary(cr, summary, course, Resolve(e, summary, cr))
    ensures RewriteSpec(e, summary, description, course, Some(cr)).1 == NewDescription(cr, description, Resolve(e, summary, cr).moduleName)
  {
  }

  /** The joined parts: the module and the canvas line, separated by a blank line, each only when non-empty. */
  lemma JoinedParts(m: string, c: string)
    ensures Join("\n\n", DescriptionParts(m, c))
      == (if m != "" && c != "" then m + "\n\n" + "Canvas: " + c
          else if m != "" then m
          else if c != "" then "Canvas: " + c
          else "")
  {
    var parts := DescriptionParts(m, c);
    if m != "" && c != "" {
      assert parts == [m, "Canvas: " + c];
    } else if m != "" {
      assert parts == [m];
    } else if c != "" {
      assert parts == ["Canvas: " + c];
    } else {
      assert parts == [];
    }
  }

  /**
   * A blank description is replaced by the module and the canvas line,
   * separated by a blank line, each only when non-empty, and stripped.
   */
  lemma BlankDescription(e: Engine, summary: string, description: string, course: string, cr: CourseRules)
    requires TemplatesOk(cr) && !Gated(cr, summary, course) && IsBlank(description)
    ensures var m := Resolve(e, summary, cr).moduleName;
      var c := CanvasText(cr);
      RewriteSpec(e, summary, description, course, Some(cr)).1
      == Strip(if m != "" && c != "" then m + "\n\n" + "Canvas: " + c
               else if m != "" then m
               else if c != "" then "Canvas: " + c
               else "")
  {
    var m := Resolve(e, summary, cr).moduleName;
    RewriteParts(e, summary, description, course, cr);
    assert NewDescription(cr, description, m) == Strip(Join("\n\n", DescriptionParts(m, CanvasText(cr))));
    JoinedParts(m, CanvasText(cr));
  }
}
