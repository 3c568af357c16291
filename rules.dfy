/**
 * The rule-document loader of rules.py: recognising the schema of a parsed
 * JSON document, normalising it into a `CourseRules` record, and keying the
 * documents of a directory by their course.
 *
 * A document that the source rejects by raising comes out as `Err`. Problems
 * with single items are not errors: the source warns and skips the item.
 * The warnings themselves are not modelled.
 */
module Rules {
  import opened Wrappers
  import opened Text
  import opened Json
  import opened Regex
  import opened KeyedFold
  import opened EventTypes
  import opened Templates

  datatype Schema = SchemaA | SchemaB

  /** The compiled `summary_regex`: the document's own pattern, or the built-in `\bLecture\s*(\d+)\b` when that pattern does not compile. */
  datatype SummaryRegex = UserRegex(pattern: string) | DefaultLectureRegex

  /** The `{"title": ..., "module": ...}` record stored under an occurrence number. */
  datatype Entry = Entry(title: string, moduleName: string)

  /**
   * The normalised rules of one course. `eventTypes` stands for the
   * configurable event types that the rewriting and splitting code reads
   * (`cr.event_types`); no loader shown here fills it, so documents load with none.
   */
  datatype CourseRules = CourseRules(
    course: string,
    canvas: Option<string>,
    requireCourseInSummary: bool,
    summaryRegex: Option<SummaryRegex>,
    titleTemplate: string,
    descriptionTemplate: string,
    lectures: map<int, Entry>,
    labs: map<int, Entry>,
    exercises: map<int, Entry>,
    eventTypes: seq<EventType>)

  /** `CourseRules(course)`: every other field at its default. */
  function NewRules(course: string): CourseRules {
    CourseRules(course, None, false, None, DefaultTitleTemplate, DefaultDescriptionTemplate, map[], map[], map[], [])
  }

  // ---------------------------------------------------------------------------
  // detect_schema

  /** `schema_version` is present and is one of the three strings. */
  predicate MarkerIs(data: map<string, Json>, a: string, b: string, c: string) {
    "schema_version" in data && data["schema_version"] in {JString(a), JString(b), JString(c)}
  }

  predicate MarkerA(data: map<string, Json>) { MarkerIs(data, "A", "a", "1") }
  predicate MarkerB(data: map<string, Json>) { MarkerIs(data, "B", "b", "2") }

  /**
   * `detect_schema`: an explicit marker decides; any other marker falls through
   * to inference from the `course` and `course_code` keys, where `course` wins.
   */
  function DetectSchema(data: map<string, Json>): (r: Result<Schema, string>)
    ensures MarkerA(data) ==> r == Ok(SchemaA)
    ensures MarkerB(data) ==> r == Ok(SchemaB)
    ensures r.Err? <==> !MarkerA(data) && !MarkerB(data) && "course" !in data && "course_code" !in data
    ensures r == Ok(SchemaB) <==> MarkerB(data) || (!MarkerA(data) && "course_code" in data && "course" !in data)
  {
    if MarkerA(data) then Ok(SchemaA)
    else if MarkerB(data) then Ok(SchemaB)
    else
      var hasCourse := "course" in data;
      var hasCourseCode := "course_code" in data;
      if hasCourse && !hasCourseCode then Ok(SchemaA)
      else if hasCourseCode && !hasCourse then Ok(SchemaB)
      else if hasCourse && hasCourseCode then Ok(SchemaA)
      else Err("Cannot determine schema: missing 'course' or 'course_code'")
  }

  // ---------------------------------------------------------------------------
  // CourseRules.from_json

  /** `(v or "").strip() or None`; `Err` where `strip` is called on something that is not a string. */
  function OptionalText(v: Json): (r: Result<Option<string>, string>)
    ensures r.Ok? && r.value.Some? ==> r.value.value != [] && Strip(r.value.value) == r.value.value
    ensures !Truthy(v) ==> r == Ok(None)
    ensures r.Err? <==> Truthy(v) && !v.JString?
  {
    if !Truthy(v) then Ok(None)
    else match v
      case JString(s) =>
        var t := Strip(s);
        StripIdempotent(s);
        Ok(if t == [] then None else Some(t))
      case _ => Err("AttributeError: no 'strip'")
  }

  /** The stored entry for an item: `str(item.get(field, "")).strip()` of its title and module. */
  function EntryOf(item: map<string, Json>): (en: Entry)
    ensures "title" in item && item["title"].JString? ==> en.title == Strip(item["title"].s)
    ensures "module" in item && item["module"].JString? ==> en.moduleName == Strip(item["module"].s)
    ensures "title" !in item ==> en.title == ""
    ensures "module" !in item ==> en.moduleName == ""
  {
    Entry(Strip(PyStr(GetOr(item, "title", JString("")))), Strip(PyStr(GetOr(item, "module", JString("")))))
  }

  /**
   * What one element of an item list contributes: nothing when it is not an
   * object, when `int(item.get("number"))` fails or when the number is not
   * positive; otherwise its number and entry.
   */
  function ItemEntry(x: Json): (r: Option<(int, Entry)>)
    ensures r.Some? ==> r.value.0 > 0
    ensures r.Some? ==> x.JObject? && PyIntOf(Get(x.fields, "number")) == Some(r.value.0)
    ensures x.JObject? && PyIntOf(Get(x.fields, "number")).Some? && PyIntOf(Get(x.fields, "number")).value > 0 ==>
      r == Some((PyIntOf(Get(x.fields, "number")).value, EntryOf(x.fields)))
  {
    if !x.JObject? then None
    else match PyIntOf(Get(x.fields, "number"))
      case None => None
      case Some(n) => if n <= 0 then None else Some((n, EntryOf(x.fields)))
  }

  /** `ingest(arr, dest)` and the Schema A items loop: the items of `v` upserted into `dest`; `Err` when `v` cannot be iterated. */
  function IngestSpec(dest: map<int, Entry>, v: Json): (r: Result<map<int, Entry>, string>)
    ensures r.Err? <==> IterItems(v).Err?
  {
    match IterItems(v)
    case Err(e) => Err(e)
    case Ok(xs) => Ok(Upsert(dest, xs, ItemEntry))
  }

  /** The `match` object of a Schema A document (`data.get("match") or {}`); `Err` where `.get` is called on a non-object. */
  function MatchFields(v: Json): Result<map<string, Json>, string> {
    if !Truthy(v) then Ok(map[])
    else if v.JObject? then Ok(v.fields)
    else Err("AttributeError: no 'get'")
  }

  /** The compiled `summary_regex`: absent or falsy gives none; a pattern that does not compile gives the default. */
  function SummaryRegexOf(e: Engine, srx: Json): Result<Option<SummaryRegex>, string> {
    if !Truthy(srx) then Ok(None)
    else if !srx.JString? then Err("TypeError: first argument must be string or compiled pattern")
    else if ValidRegex(e, srx.s) then Ok(Some(UserRegex(srx.s)))
    else Ok(Some(DefaultLectureRegex))
  }

  /** `str(data[key])` when the key is present, else the default. */
  function TemplateOf(data: map<string, Json>, key: string, default: string): string {
    if key in data then PyStr(data[key]) else default
  }

  /** `from_json` on a Schema A document: `course` is required and becomes the stripped course code. */
  function SchemaASpec(e: Engine, data: map<string, Json>): (r: Result<CourseRules, string>)
    ensures "course" !in data ==> r.Err?
    ensures r.Ok? ==> r.value.course == Strip(PyStr(data["course"]))
  {
    if "course" !in data then Err("KeyError: 'course'")
    else
      var course := Strip(PyStr(data["course"]));
      match OptionalText(Get(data, "canvas"))
      case Err(err) => Err(err)
      case Ok(canvas) =>
        match MatchFields(Get(data, "match"))
        case Err(err) => Err(err)
        case Ok(m) =>
          var require := Truthy(GetOr(m, "require_course_in_summary", JBool(false)));
          match SummaryRegexOf(e, Get(m, "summary_regex"))
          case Err(err) => Err(err)
          case Ok(srx) =>
            match IngestSpec(map[], Get(data, "items"))
            case Err(err) => Err(err)
            case Ok(lectures) =>
              Ok(NewRules(course).(
                canvas := canvas,
                requireCourseInSummary := require,
                summaryRegex := srx,
                titleTemplate := TemplateOf(data, "title_template", DefaultTitleTemplate),
                descriptionTemplate := TemplateOf(data, "description_template", DefaultDescriptionTemplate),
                lectures := lectures))
  }

  /** `from_json` on a Schema B document: a blank or missing `course_code` is an error. */
  function SchemaBSpec(data: map<string, Json>): (r: Result<CourseRules, string>)
    ensures IsBlank(PyStr(GetOr(data, "course_code", JString("")))) ==> r.Err?
    ensures r.Ok? ==> r.value.course != [] && r.value.course == Strip(PyStr(GetOr(data, "course_code", JString(""))))
  {
    var course := Strip(PyStr(GetOr(data, "course_code", JString(""))));
    if course == [] then Err("Missing course_code")
    else
      match OptionalText(Get(data, "canvas_url"))
      case Err(err) => Err(err)
      case Ok(canvas) =>
        match IngestSpec(map[], Get(data, "lectures"))
        case Err(err) => Err(err)
        case Ok(lectures) =>
          match IngestSpec(map[], Get(data, "labs"))
          case Err(err) => Err(err)
          case Ok(labs) =>
            match IngestSpec(map[], Get(data, "exercises"))
            case Err(err) => Err(err)
            case Ok(exercises) =>
              Ok(NewRules(course).(canvas := canvas, lectures := lectures, labs := labs, exercises := exercises))
  }

  /** `CourseRules.from_json(data)` as a value; `Err` where it raises. */
  function FromJsonSpec(e: Engine, data: Json): (r: Result<CourseRules, string>)
    ensures r.Ok? ==> data.JObject? && DetectSchema(data.fields).Ok?
  {
    if !data.JObject? then Err("not an object")
    else match DetectSchema(data.fields)
      case Err(err) => Err(err)
      case Ok(SchemaA) => SchemaASpec(e, data.fields)
      case Ok(SchemaB) => SchemaBSpec(data.fields)
  }

  /** The `ingest` loop: each item is checked and stored in turn, a later number overwriting an earlier one. */
  method Ingest(dest: map<int, Entry>, v: Json) returns (r: Result<map<int, Entry>, string>)
    ensures r == IngestSpec(dest, v)
  {
    var items := IterItems(v);
    if items.Err? {
      return Err(items.error);
    }
    var xs := items.value;
    var d := dest;
    var i := 0;
    while i < |xs|
      invariant 0 <= i <= |xs|
      invariant d == Upsert(dest, xs[..i], ItemEntry)
    {
      var item := xs[i];
      UpsertNext(dest, xs, i, ItemEntry, d);
      var kv := ItemEntry(item);
      if kv.Some? {
        d := d[kv.value.0 := kv.value.1];
      }
      i := i + 1;
    }
    assert xs[..|xs|] == xs;
    return Ok(d);
  }

  /** `CourseRules.from_json`: builds the record and assigns its fields one by one. */
  method FromJson(e: Engine, data: Json) returns (r: Result<CourseRules, string>)
    ensures r == FromJsonSpec(e, data)
  {
    if !data.JObject? {
      return Err("not an object");
    }
    var fields := data.fields;
    var schema := DetectSchema(fields);
    if schema.Err? {
      return Err(schema.error);
    }
    if schema.value == SchemaA {
      if "course" !in fields {
        return Err("KeyError: 'course'");
      }
      var cr := NewRules(Strip(PyStr(fields["course"])));
      var canvas := OptionalText(Get(fields, "canvas"));
      if canvas.Err? {
        return Err(canvas.error);
      }
      cr := cr.(canvas := canvas.value);
      var m := MatchFields(Get(fields, "match"));
      if m.Err? {
        return Err(m.error);
      }
      cr := cr.(requireCourseInSummary := Truthy(GetOr(m.value, "require_course_in_summary", JBool(false))));
      var srx := SummaryRegexOf(e, Get(m.value, "summary_regex"));
      if srx.Err? {
        return Err(srx.error);
      }
      cr := cr.(summaryRegex := srx.value);
      if "title_template" in fields {
        cr := cr.(titleTemplate := PyStr(fields["title_template"]));
      }
      if "description_template" in fields {
        cr := cr.(descriptionTemplate := PyStr(fields["description_template"]));
      }
      var lectures := Ingest(cr.lectures, Get(fields, "items"));
      if lectures.Err? {
        return Err(lectures.error);
      }
      cr := cr.(lectures := lectures.value);
      return Ok(cr);
    } else {
      var course := Strip(PyStr(GetOr(fields, "course_code", JString(""))));
      if course == [] {
        return Err("Missing course_code");
      }
      var cr := NewRules(course);
      var canvas := OptionalText(Get(fields, "canvas_url"));
      if canvas.Err? {
        return Err(canvas.error);
      }
      cr := cr.(canvas := canvas.value);
      var lectures := Ingest(cr.lectures, Get(fields, "lectures"));
      if lectures.Err? {
        return Err(lectures.error);
      }
      cr := cr.(lectures := lectures.value);
      var labs := Ingest(cr.labs, Get(fields, "labs"));
      if labs.Err? {
        return Err(labs.error);
      }
      cr := cr.(labs := labs.value);
      var exercises := Ingest(cr.exercises, Get(fields, "exercises"));
      if exercises.Err? {
        return Err(exercises.error);
      }
      cr := cr.(exercises := exercises.value);
      return Ok(cr);
    }
  }

  // ---------------------------------------------------------------------------
  // Properties of from_json

  /** Every key is a positive number and every stored title and module is stripped. */
  predicate WellFormedEntries(m: map<int, Entry>) {
    forall n :: n in m ==> n > 0 && Strip(m[n].title) == m[n].title && Strip(m[n].moduleName) == m[n].moduleName
  }

  predicate EntryOk(n: int, en: Entry) {
    n > 0 && Strip(en.title) == en.title && Strip(en.moduleName) == en.moduleName
  }

  lemma IngestWellFormed(dest: map<int, Entry>, v: Json)
    requires WellFormedEntries(dest)
    ensures IngestSpec(dest, v).Ok? ==> WellFormedEntries(IngestSpec(dest, v).value)
  {
    if IterItems(v).Ok? {
      var xs := IterItems(v).value;
      forall i | 0 <= i < |xs| && ItemEntry(xs[i]).Some?
        ensures EntryOk(ItemEntry(xs[i]).value.0, ItemEntry(xs[i]).value.1)
      {
        var item := xs[i].fields;
        StripIdempotent(PyStr(GetOr(item, "title", JString(""))));
        StripIdempotent(PyStr(GetOr(item, "module", JString(""))));
      }
      UpsertPreserves(dest, xs, ItemEntry, EntryOk);
    }
  }

  /**
   * A loaded document holds only positive occurrence numbers, stripped titles
   * and modules, and a canvas link that is either absent or stripped and non-empty.
   */
  lemma FromJsonWellFormed(e: Engine, data: Json)
    requires FromJsonSpec(e, data).Ok?
    ensures var cr := FromJsonSpec(e, data).value;
      && WellFormedEntries(cr.lectures) && WellFormedEntries(cr.labs) && WellFormedEntries(cr.exercises)
      && (cr.canvas.Some? ==> cr.canvas.value != [] && Strip(cr.canvas.value) == cr.canvas.value)
  {
    var f := data.fields;
    IngestWellFormed(map[], Get(f, "items"));
    IngestWellFormed(map[], Get(f, "lectures"));
    IngestWellFormed(map[], Get(f, "labs"));
    IngestWellFormed(map[], Get(f, "exercises"));
  }

  /** Schema A fills only `lectures`; Schema B reads neither `match` nor the templates, which keep their defaults. */
  lemma SchemaShapes(e: Engine, data: Json)
    requires FromJsonSpec(e, data).Ok?
    ensures var cr := FromJsonSpec(e, data).value;
      && (DetectSchema(data.fields) == Ok(SchemaA) ==> cr.labs == map[] && cr.exercises == map[])
      && (DetectSchema(data.fields) == Ok(SchemaB) ==>
            && !cr.requireCourseInSummary && cr.summaryRegex.None?
            && cr.titleTemplate == DefaultTitleTemplate && cr.descriptionTemplate == DefaultDescriptionTemplate)
      && cr.eventTypes == []
  {
  }

  /** An explicit Schema A marker without `course` fails on the lookup; Schema B without a non-blank `course_code` fails. */
  lemma MissingCourseFails(e: Engine, data: map<string, Json>)
    ensures MarkerA(data) && "course" !in data ==> FromJsonSpec(e, JObject(data)).Err?
    ensures DetectSchema(data) == Ok(SchemaB) && IsBlank(PyStr(GetOr(data, "course_code", JString(""))))
      ==> FromJsonSpec(e, JObject(data)).Err?
  {
  }

  /** An absent or empty `summary_regex` leaves none; one that does not compile falls back to the default pattern. */
  lemma SummaryRegexFallback(e: Engine, m: map<string, Json>)
    ensures !Truthy(Get(m, "summary_regex")) ==> SummaryRegexOf(e, Get(m, "summary_regex")) == Ok(None)
    ensures Get(m, "summary_regex").JString? && Get(m, "summary_regex").s != [] && !ValidRegex(e, Get(m, "summary_regex").s)
      ==> SummaryRegexOf(e, Get(m, "summary_regex")) == Ok(Some(DefaultLectureRegex))
  {
  }

  /**
   * Bad items never abort a load: with a non-blank `course_code`, no
   * `canvas_url` and lists (or nothing) for the three arrays, a Schema B
   * document always loads, whatever its items hold.
   */
  lemma SchemaBItemsNeverFail(e: Engine, data: map<string, Json>)
    requires DetectSchema(data) == Ok(SchemaB)
    requires !IsBlank(PyStr(GetOr(data, "course_code", JString(""))))
    requires !Truthy(Get(data, "canvas_url"))
    requires Get(data, "lectures").JList? || !Truthy(Get(data, "lectures"))
    requires Get(data, "labs").JList? || !Truthy(Get(data, "labs"))
    requires Get(data, "exercises").JList? || !Truthy(Get(data, "exercises"))
    ensures FromJsonSpec(e, JObject(data)).Ok?
  {
  }

  /**
   * Last wins: in a Schema A document, the entry stored under a number is the
   * one of the last valid item carrying that number.
   */
  lemma SchemaALastWins(e: Engine, data: map<string, Json>, i: nat)
    requires FromJsonSpec(e, JObject(data)).Ok? && DetectSchema(data) == Ok(SchemaA)
    requires Get(data, "items").JList? && i < |Get(data, "items").items|
    requires ItemEntry(Get(data, "items").items[i]).Some?
    requires var xs := Get(data, "items").items;
      forall j :: i < j < |xs| ==> !HasKey(ItemEntry, xs[j], ItemEntry(xs[i]).value.0)
    ensures var xs := Get(data, "items").items;
      var kv := ItemEntry(xs[i]).value;
      kv.0 in FromJsonSpec(e, JObject(data)).value.lectures
      && FromJsonSpec(e, JObject(data)).value.lectures[kv.0] == kv.1
  {
    var xs := Get(data, "items").items;
    UpsertLastWins(map[], xs, ItemEntry, i);
  }

  // ---------------------------------------------------------------------------
  // load_course_rules_dir

  /** What one file of the directory contributes: its rules under their own course, or nothing when it does not load. */
  function DocEntry(e: Engine, doc: Option<Json>): Option<(string, CourseRules)> {
    match doc
    case None => None
    case Some(d) =>
      match FromJsonSpec(e, d)
      case Ok(cr) => Some((cr.course, cr))
      case Err(_) => None
  }

  function DocEntries(e: Engine): Option<Json> -> Option<(string, CourseRules)> {
    doc => DocEntry(e, doc)
  }

  /**
   * `load_course_rules_dir` over the `*.json` files in sorted name order, each
   * already read and parsed (`None` for a file that cannot be read or parsed).
   */
  function LoadDirSpec(e: Engine, docs: seq<Option<Json>>): map<string, CourseRules> {
    Upsert(map[], docs, DocEntries(e))
  }

  method LoadCourseRulesDir(e: Engine, docs: seq<Option<Json>>) returns (rules: map<string, CourseRules>)
    ensures rules == LoadDirSpec(e, docs)
  {
    rules := map[];
    var i := 0;
    while i < |docs|
      invariant 0 <= i <= |docs|
      invariant rules == Upsert(map[], docs[..i], DocEntries(e))
    {
      UpsertNext(map[], docs, i, DocEntries(e), rules);
      assert DocEntries(e)(docs[i]) == DocEntry(e, docs[i]);
      if docs[i].Some? {
        var cr := FromJson(e, docs[i].value);
        if cr.Ok? {
          rules := rules[cr.value.course := cr.value];
        }
      }
      i := i + 1;
    }
    assert docs[..|docs|] == docs;
  }

  /** Every loaded rule set is stored under its own course. */
  lemma LoadDirKeyedByCourse(e: Engine, docs: seq<Option<Json>>)
    ensures forall c :: c in LoadDirSpec(e, docs) ==> LoadDirSpec(e, docs)[c].course == c
  {
    UpsertPreserves(map[], docs, DocEntries(e), (c: string, cr: CourseRules) => cr.course == c);
  }

  /** A later document for the same course overwrites an earlier one; documents that fail to load change nothing. */
  lemma LoadDirLastWins(e: Engine, docs: seq<Option<Json>>, i: nat)
    requires i < |docs| && docs[i].Some? && FromJsonSpec(e, docs[i].value).Ok?
    requires forall j :: i < j < |docs| ==> !HasKey(DocEntries(e), docs[j], FromJsonSpec(e, docs[i].value).value.course)
    ensures var cr := FromJsonSpec(e, docs[i].value).value;
      cr.course in LoadDirSpec(e, docs) && LoadDirSpec(e, docs)[cr.course] == cr
  {
    UpsertLastWins(map[], docs, DocEntries(e), i);
  }

  /** A file that cannot be parsed or loaded leaves the result as it was. */
  lemma LoadDirSkipsFailures(e: Engine, docs: seq<Option<Json>>, bad: Option<Json>)
    requires bad.None? || FromJsonSpec(e, bad.value).Err?
    ensures LoadDirSpec(e, docs + [bad]) == LoadDirSpec(e, docs)
  {
    UpsertSnoc(map[], docs, bad, DocEntries(e));
  }
}
