/**
 * Title and description templates, rendered by Python's `str.format` with
 * keyword arguments only. A template is read as a sequence of literal text and
 * `{name}` fields; `{{` and `}}` stand for single braces. Format specifications,
 * conversions, attribute and index access (`:`, `!`, `.`, `[`) are not part of
 * this model, and a template using them does not parse.
 */
module Templates {
  import opened Wrappers

  datatype Segment = Lit(text: string) | Field(name: string)

  /** A field name as this model reads it: plain, non-empty, and not containing `{ : ! . [` (nor `}`). */
  predicate IsFieldName(name: string) {
    |name| > 0 && forall k :: 0 <= k < |name| ==> !IsSpecial(name[k])
  }

  predicate IsSpecial(c: char) {
    c == '{' || c == '}' || c == ':' || c == '!' || c == '.' || c == '['
  }

  predicate IsBrace(c: char) { c == '{' || c == '}' }

  predicate NoBraces(s: string) { forall k :: 0 <= k < |s| ==> !IsBrace(s[k]) }

  /** Prefix `xs` to a parse result, keeping a failure. */
  function Then(xs: seq<Segment>, r: Option<seq<Segment>>): Option<seq<Segment>> {
    match r
    case None => None
    case Some(ys) => Some(xs + ys)
  }

  /** Position of the first `}` after an opening brace at 0, or `|t|` when there is none. */
  function FieldEnd(t: string): (j: nat)
    requires |t| > 0
    ensures 1 <= j <= |t|
    ensures forall k :: 1 <= k < j ==> t[k] != '}'
    ensures j < |t| ==> t[j] == '}'
  {
    FieldEndFrom(t, 1)
  }

  function FieldEndFrom(t: string, i: nat): (j: nat)
    requires i <= |t|
    decreases |t| - i
    ensures i <= j <= |t|
    ensures forall k :: i <= k < j ==> t[k] != '}'
    ensures j < |t| ==> t[j] == '}'
  {
    if i == |t| || t[i] == '}' then i else FieldEndFrom(t, i + 1)
  }

  /**
   * The segments of a template, or `None` where `str.format` raises `ValueError`
   * (a single `}`, an unclosed `{`) or where the field uses syntax outside this model.
   * Literal text comes out one character per segment.
   */
  function ParseTemplate(t: string): (r: Option<seq<Segment>>)
    decreases |t|
    ensures r.Some? ==> forall k :: 0 <= k < |r.value| && r.value[k].Field? ==> IsFieldName(r.value[k].name)
  {
    if t == [] then Some([])
    else if t[0] == '{' then
      if |t| > 1 && t[1] == '{' then Then([Lit("{")], ParseTemplate(t[2..]))
      else
        var j := FieldEnd(t);
        if j == |t| || !IsFieldName(t[1..j]) then None
        else Then([Field(t[1..j])], ParseTemplate(t[j + 1..]))
    else if t[0] == '}' then
      if |t| > 1 && t[1] == '}' then Then([Lit("}")], ParseTemplate(t[2..])) else None
    else Then([Lit([t[0]])], ParseTemplate(t[1..]))
  }

  /** Every field of `segs` is one of `names`. */
  predicate FieldsWithin(segs: seq<Segment>, names: set<string>) {
    forall k :: 0 <= k < |segs| ==> segs[k].Field? ==> segs[k].name in names
  }

  /** The template parses and names only fields from `names`: `str.format` with those keyword arguments does not raise. */
  predicate TemplateUses(t: string, names: set<string>) {
    ParseTemplate(t).Some? && FieldsWithin(ParseTemplate(t).value, names)
  }

  function Render(segs: seq<Segment>, env: map<string, string>): string
    requires FieldsWithin(segs, env.Keys)
    decreases |segs|
  {
    if segs == [] then ""
    else (match segs[0] case Lit(s) => s case Field(n) => env[n]) + Render(segs[1..], env)
  }

  /** `t.format(**env)`. */
  function Format(t: string, env: map<string, string>): (r: string)
    requires TemplateUses(t, env.Keys)
    ensures NoBraces(t) ==> r == t
  {
    if NoBraces(t) then
      PlainTextParse(t);
      RenderLits(t, env);
      Render(ParseTemplate(t).value, env)
    else Render(ParseTemplate(t).value, env)
  }

  // ---------------------------------------------------------------------------
  // How templates decompose

  /** The literal segments of brace-free text. */
  function Lits(a: string): (r: seq<Segment>)
    ensures |r| == |a|
    ensures forall k :: 0 <= k < |a| ==> r[k] == Lit([a[k]])
  {
    seq(|a|, k requires 0 <= k < |a| => Lit([a[k]]))
  }

  /** Brace-free text at the front of a template parses as itself. */
  lemma {:induction false} ParseLiteralPrefix(a: string, b: string)
    requires NoBraces(a)
    ensures ParseTemplate(a + b) == Then(Lits(a), ParseTemplate(b))
    decreases |a|
  {
    if a == [] {
      assert a + b == b;
      match ParseTemplate(b) {
        case None =>
        case Some(ys) => assert Lits(a) + ys == ys;
      }
    } else {
      var t := a + b;
      assert t[0] == a[0] && !IsBrace(a[0]);
      assert t[1..] == a[1..] + b;
      ParseLiteralPrefix(a[1..], b);
      assert Lits(a) == [Lit([a[0]])] + Lits(a[1..]);
      match ParseTemplate(b) {
        case None =>
        case Some(ys) => assert Lits(a) + ys == [Lit([a[0]])] + (Lits(a[1..]) + ys);
      }
    }
  }

  /** A field at the front of a template parses as that field. */
  lemma ParseFieldPrefix(name: string, b: string)
    requires IsFieldName(name)
    ensures ParseTemplate("{" + name + "}" + b) == Then([Field(name)], ParseTemplate(b))
  {
    var t := "{" + name + "}" + b;
    assert t[0] == '{' && t[1] == name[0];
    assert !IsSpecial(name[0]);
    var j := FieldEnd(t);
    assert t[|name| + 1] == '}';
    assert forall k :: 1 <= k < |name| + 1 ==> t[k] == name[k - 1];
    assert j == |name| + 1;
    assert t[1..j] == name;
    assert t[j + 1..] == b;
  }

  lemma {:induction false} RenderAppend(xs: seq<Segment>, ys: seq<Segment>, env: map<string, string>)
    requires FieldsWithin(xs, env.Keys) && FieldsWithin(ys, env.Keys)
    ensures FieldsWithin(xs + ys, env.Keys)
    ensures Render(xs + ys, env) == Render(xs, env) + Render(ys, env)
    decreases |xs|
  {
    if xs == [] {
      assert xs + ys == ys;
    } else {
      assert (xs + ys)[1..] == xs[1..] + ys;
      RenderAppend(xs[1..], ys, env);
    }
  }

  lemma {:induction false} RenderLits(a: string, env: map<string, string>)
    ensures FieldsWithin(Lits(a), env.Keys)
    ensures Render(Lits(a), env) == a
    decreases |a|
  {
    if a != [] {
      assert Lits(a)[1..] == Lits(a[1..]);
      RenderLits(a[1..], env);
    }
  }

  /** A template without braces renders to itself, whatever the arguments. */
  lemma FormatPlainText(a: string, env: map<string, string>)
    requires NoBraces(a)
    ensures TemplateUses(a, env.Keys) && Format(a, env) == a
  {
    PlainTextParse(a);
    RenderLits(a, env);
  }

  /** Brace-free text parses as one literal per character. */
  lemma PlainTextParse(a: string)
    requires NoBraces(a)
    ensures ParseTemplate(a) == Some(Lits(a))
  {
    ParseLiteralPrefix(a, []);
    assert a + [] == a;
    assert Lits(a) + [] == Lits(a);
  }

  // ---------------------------------------------------------------------------
  // The default templates (rules.py CourseRules)

  const TitleFields: set<string> := {"kind", "n", "title", "course"}
  const DescriptionFields: set<string> := {"module", "canvas", "old_desc"}

  const DefaultTitleTemplate: string := "{kind} {n} - {title} - {course}"
  const DefaultDescriptionTemplate: string := "{module}\nCanvas: {canvas}\n\n{old_desc}"

  /** A field followed by brace-free text parses as the field, then one literal per character. */
  lemma FieldThenTextParse(name: string, a: string, rest: string)
    requires IsFieldName(name) && NoBraces(a) && ParseTemplate(rest).Some?
    ensures ParseTemplate("{" + name + "}" + a + rest) == Some([Field(name)] + (Lits(a) + ParseTemplate(rest).value))
  {
    var segs := ParseTemplate(rest).value;
    ParseLiteralPrefix(a, rest);
    assert ParseTemplate(a + rest) == Some(Lits(a) + segs);
    ParseFieldPrefix(name, a + rest);
    Reassociate3("{" + name + "}", a, rest);
  }

  lemma Reassociate3(x: string, y: string, z: string)
    ensures x + (y + z) == x + y + z
  {
  }

  /** Rendering a field, then literals, then more segments. */
  lemma FieldThenTextRender(name: string, a: string, segs: seq<Segment>, env: map<string, string>)
    requires name in env && FieldsWithin(segs, env.Keys)
    ensures FieldsWithin([Field(name)] + (Lits(a) + segs), env.Keys)
    ensures Render([Field(name)] + (Lits(a) + segs), env) == env[name] + (a + Render(segs, env))
  {
    RenderLits(a, env);
    RenderAppend(Lits(a), segs, env);
    assert [Field(name)][1..] == [];
    assert Render([Field(name)], env) == env[name] + "";
    assert env[name] + "" == env[name];
    RenderAppend([Field(name)], Lits(a) + segs, env);
  }

  /** Segments and rendering of a field followed by brace-free text and more template. */
  lemma FieldThenText(name: string, a: string, rest: string, env: map<string, string>)
    requires IsFieldName(name) && NoBraces(a) && name in env
    requires TemplateUses(rest, env.Keys)
    ensures TemplateUses("{" + name + "}" + a + rest, env.Keys)
    ensures Format("{" + name + "}" + a + rest, env) == env[name] + (a + Format(rest, env))
  {
    FieldThenTextParse(name, a, rest);
    FieldThenTextRender(name, a, ParseTemplate(rest).value, env);
  }

  /** A template that is a single field renders as that field's value. */
  lemma FieldAlone(name: string, env: map<string, string>)
    requires IsFieldName(name) && name in env
    ensures TemplateUses("{" + name + "}", env.Keys)
    ensures Format("{" + name + "}", env) == env[name]
  {
    ParseFieldPrefix(name, []);
    assert "{" + name + "}" + [] == "{" + name + "}";
    assert [Field(name)] + [] == [Field(name)];
    assert [Field(name)][1..] == [];
    assert Render([Field(name)], env) == env[name] + "";
    assert env[name] + "" == env[name];
  }

  lemma Reassociate7(v1: string, a1: string, v2: string, a2: string, v3: string, a3: string, v4: string)
    ensures v1 + (a1 + (v2 + (a2 + (v3 + (a3 + v4))))) == v1 + a1 + v2 + a2 + v3 + a3 + v4
  {
  }

  lemma Reassociate5(v1: string, a1: string, v2: string, a2: string, v3: string)
    ensures v1 + (a1 + (v2 + (a2 + v3))) == v1 + a1 + v2 + a2 + v3
  {
  }

  /** The template `"{f1}a1{f2}a2{f3}a3{f4}"`. */
  function FourFields(f1: string, a1: string, f2: string, a2: string, f3: string, a3: string, f4: string): string
  {
    "{" + f1 + "}" + a1 + ("{" + f2 + "}" + a2 + ("{" + f3 + "}" + a3 + ("{" + f4 + "}")))
  }

  /** The template `"{f1}a1{f2}a2{f3}"`. */
  function ThreeFields(f1: string, a1: string, f2: string, a2: string, f3: string): string
  {
    "{" + f1 + "}" + a1 + ("{" + f2 + "}" + a2 + ("{" + f3 + "}"))
  }

  /** A template of four fields separated by brace-free text. */
  lemma FourFieldsFormat(f1: string, a1: string, f2: string, a2: string, f3: string, a3: string, f4: string,
                         env: map<string, string>)
    requires IsFieldName(f1) && IsFieldName(f2) && IsFieldName(f3) && IsFieldName(f4)
    requires NoBraces(a1) && NoBraces(a2) && NoBraces(a3)
    requires f1 in env && f2 in env && f3 in env && f4 in env
    ensures TemplateUses(FourFields(f1, a1, f2, a2, f3, a3, f4), env.Keys)
    ensures Format(FourFields(f1, a1, f2, a2, f3, a3, f4), env)
      == env[f1] + a1 + env[f2] + a2 + env[f3] + a3 + env[f4]
  {
    var t4 := "{" + f4 + "}";
    FieldAlone(f4, env);
    var t3 := "{" + f3 + "}" + a3 + t4;
    FieldThenText(f3, a3, t4, env);
    var t2 := "{" + f2 + "}" + a2 + t3;
    FieldThenText(f2, a2, t3, env);
    FieldThenText(f1, a1, t2, env);
    Reassociate7(env[f1], a1, env[f2], a2, env[f3], a3, env[f4]);
  }

  /** A template of three fields separated by brace-free text. */
  lemma ThreeFieldsFormat(f1: string, a1: string, f2: string, a2: string, f3: string, env: map<string, string>)
    requires IsFieldName(f1) && IsFieldName(f2) && IsFieldName(f3)
    requires NoBraces(a1) && NoBraces(a2)
    requires f1 in env && f2 in env && f3 in env
    ensures TemplateUses(ThreeFields(f1, a1, f2, a2, f3), env.Keys)
    ensures Format(ThreeFields(f1, a1, f2, a2, f3), env) == env[f1] + a1 + env[f2] + a2 + env[f3]
  {
    var t3 := "{" + f3 + "}";
    FieldAlone(f3, env);
    var t2 := "{" + f2 + "}" + a2 + t3;
    FieldThenText(f2, a2, t3, env);
    FieldThenText(f1, a1, t2, env);
    Reassociate5(env[f1], a1, env[f2], a2, env[f3]);
  }

  lemma DefaultTitleShape()
    ensures DefaultTitleTemplate == FourFields("kind", " ", "n", " - ", "title", " - ", "course")
  {
    assert "{" + "kind" + "}" == "{kind}";
    assert "{" + "n" + "}" == "{n}";
    assert "{" + "title" + "}" == "{title}";
    assert "{" + "course" + "}" == "{course}";
    assert DefaultTitleTemplate == "{kind}" + " " + ("{n}" + " - " + ("{title}" + " - " + "{course}"));
  }

  /** The default description template cut after its first line's label. */
  lemma DescriptionHalves()
    ensures DefaultDescriptionTemplate == "{module}\nCanvas: " + "{canvas}\n\n{old_desc}"
  {
  }

  lemma DefaultDescriptionShape()
    ensures DefaultDescriptionTemplate == ThreeFields("module", "\nCanvas: ", "canvas", "\n\n", "old_desc")
  {
    DescriptionHalves();
    assert "{module}\nCanvas: " == "{" + "module" + "}" + "\nCanvas: ";
    assert "{canvas}\n\n{old_desc}" == "{" + "canvas" + "}" + "\n\n" + ("{" + "old_desc" + "}");
  }

  /** The fields and separators of the default title template. */
  lemma TitlePieces()
    ensures IsFieldName("kind") && IsFieldName("n") && IsFieldName("title") && IsFieldName("course")
    ensures NoBraces(" ") && NoBraces(" - ")
  {
  }

  /** The fields and separators of the default description template. */
  lemma DescriptionPieces()
    ensures IsFieldName("module") && IsFieldName("canvas") && IsFieldName("old_desc")
    ensures NoBraces("\nCanvas: ") && NoBraces("\n\n")
  {
  }

  /** The default title renders as `"<kind> <n> - <title> - <course>"`. */
  lemma DefaultTitleFormat(env: map<string, string>)
    requires TitleFields <= env.Keys
    ensures TemplateUses(DefaultTitleTemplate, env.Keys)
    ensures Format(DefaultTitleTemplate, env)
      == env["kind"] + " " + env["n"] + " - " + env["title"] + " - " + env["course"]
  {
    TitlePieces();
    DefaultTitleShape();
    FourFieldsFormat("kind", " ", "n", " - ", "title", " - ", "course", env);
  }

  /** The default description renders as `"<module>\nCanvas: <canvas>\n\n<old_desc>"`. */
  lemma DefaultDescriptionFormat(env: map<string, string>)
    requires DescriptionFields <= env.Keys
    ensures TemplateUses(DefaultDescriptionTemplate, env.Keys)
    ensures Format(DefaultDescriptionTemplate, env)
      == env["module"] + "\nCanvas: " + env["canvas"] + "\n\n" + env["old_desc"]
  {
    DescriptionPieces();
    DefaultDescriptionShape();
    ThreeFieldsFormat("module", "\nCanvas: ", "canvas", "\n\n", "old_desc", env);
  }
}
