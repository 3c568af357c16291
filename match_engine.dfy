/**
 * The match engine of rewrite.py: whether a calendar event satisfies a match
 * strategy (`matches_strategy`) and whether it satisfies one of an item's
 * strategies, tried in priority order (`matches_item`).
 *
 * Evaluation gives `Some(b)` for a result, or `None` where the source raises
 * `ValueError`: a time bound whose hour or minute is not an integer. The error
 * leaves `matches_strategy` at the first strategy that raises, so the order in
 * which `all`, `any` and `matches_item` visit strategies is kept.
 */
module MatchEngine {
  import opened Wrappers
  import opened Text
  import opened Regex
  import opened EventTypes

  /** What the engine reads of an event's `DTSTART`: its weekday (0 is Monday), hour and minute. */
  datatype Start = Start(weekday: int, hour: int, minute: int)

  predicate ValidStart(st: Start) {
    0 <= st.weekday <= 6 && 0 <= st.hour < 24 && 0 <= st.minute < 60
  }

  /** The fields of an event the strategies look at; a missing text field is `""`. */
  datatype EventView = EventView(summary: string, description: string, location: string, start: Option<Start>)

  // ---------------------------------------------------------------------------
  // Time strategy

  /** The weekday names of `day_map`, Monday (0) to Sunday (6). */
  const Weekdays: seq<string> := ["monday", "tuesday", "wednesday", "thursday", "friday", "saturday", "sunday"]

  /** The weekday named by `name`, ignoring case, or -1 for any other name. */
  function DayNumber(name: string): (d: int)
    ensures -1 <= d <= 6
    ensures 0 <= d ==> Lower(name) == Weekdays[d]
    ensures d == -1 <==> Lower(name) !in {"monday", "tuesday", "wednesday", "thursday", "friday", "saturday", "sunday"}
  {
    var l := Lower(name);
    if l == "monday" then 0
    else if l == "tuesday" then 1
    else if l == "wednesday" then 2
    else if l == "thursday" then 3
    else if l == "friday" then 4
    else if l == "saturday" then 5
    else if l == "sunday" then 6
    else -1
  }

  function DayValue(d: Day): int {
    match d
    case DayName(n) => DayNumber(n)
    case DayIndex(i) => i
  }

  /** `t.replace(":", "")`. */
  function RemoveColons(t: string): (r: string)
    ensures |r| <= |t|
    ensures forall k :: 0 <= k < |r| ==> r[k] != ':'
    ensures (forall k :: 0 <= k < |t| ==> t[k] != ':') ==> r == t
  {
    if t == [] then []
    else (if t[0] == ':' then [] else [t[0]]) + RemoveColons(t[1..])
  }

  /** `parse_time`: `(int(u[:2]), int(u[2:4]))` of the text without colons; `None` where `int` raises. */
  function ParseTime(t: string): (r: Option<(int, int)>)
    ensures r.Some? ==> |RemoveColons(t)| >= 2
  {
    var u := RemoveColons(t);
    var a := if |u| < 2 then |u| else 2;
    var b := if |u| < 4 then |u| else 4;
    match (PyInt(u[..a]), PyInt(u[a..b]))
    case (Some(h), Some(m)) => Some((h, m))
    case _ => None
  }

  /** Removing colons keeps every other character in its order: it distributes over concatenation. */
  lemma {:induction false} RemoveColonsAppend(a: string, b: string)
    ensures RemoveColons(a + b) == RemoveColons(a) + RemoveColons(b)
    decreases |a|
  {
    if a == [] {
      assert a + b == b;
    } else {
      var head := if a[0] == ':' then [] else [a[0]];
      calc {
        RemoveColons(a + b);
        { assert (a + b)[0] == a[0] && (a + b)[1..] == a[1..] + b; }
        head + RemoveColons(a[1..] + b);
        { RemoveColonsAppend(a[1..], b); }
        head + (RemoveColons(a[1..]) + RemoveColons(b));
        (head + RemoveColons(a[1..])) + RemoveColons(b);
        RemoveColons(a) + RemoveColons(b);
      }
    }
  }

  /** `"HH:MM"` and `"HHMM"` both parse to the hour `HH` and the minute `MM`. */
  lemma ClockTimes(h: string, m: string)
    requires |h| == 2 && |m| == 2 && AllDigits(h) && AllDigits(m)
    ensures ParseTime(h + ":" + m) == ParseTime(h + m) == Some((DigitsValue(h) as int, DigitsValue(m) as int))
  {
    ClockColons(h, m);
    PyIntOfDigits(h);
    PyIntOfDigits(m);
    ParseClean(h + ":" + m, h, m);
    ParseClean(h + m, h, m);
  }

  lemma ClockColons(h: string, m: string)
    requires AllDigits(h) && AllDigits(m)
    ensures RemoveColons(h + ":" + m) == h + m && RemoveColons(h + m) == h + m
  {
    DigitsKeepColonFree(h);
    DigitsKeepColonFree(m);
    RemoveColonsAppend(h, m);
    var tail := ":" + m;
    assert RemoveColons(":") == [];
    RemoveColonsAppend(":", m);
    assert RemoveColons(tail) == m;
    RemoveColonsAppend(h, tail);
    assert RemoveColons(h + tail) == h + m;
    assert h + ":" + m == h + tail;
  }

  lemma DigitsKeepColonFree(t: string)
    requires AllDigits(t)
    ensures RemoveColons(t) == t
  {
    assert forall k :: 0 <= k < |t| ==> t[k] != ':';
  }

  /** A time whose colon-free text is `h + m`, two characters each, reads `h` as the hour and `m` as the minute. */
  lemma ParseClean(t: string, h: string, m: string)
    requires |h| == 2 && |m| == 2 && RemoveColons(t) == h + m
    ensures PyInt(h).Some? && PyInt(m).Some? ==> ParseTime(t) == Some((PyInt(h).value, PyInt(m).value))
  {
    var u := h + m;
    assert u[..2] == h && u[2..4] == m;
  }

  function Minutes(hm: (int, int)): int { hm.0 * 60 + hm.1 }

  function StartMinutes(st: Start): int { st.hour * 60 + st.minute }

  /** The weekday check: passes when no day is given. */
  predicate DayOk(day: Option<Day>, st: Start) {
    day.None? || st.weekday == DayValue(day.value)
  }

  /** The range check, start-inclusive and end-exclusive; `None` where parsing a bound raises. */
  function RangeCheck(from: string, to: string, st: Start): (r: Option<bool>)
    ensures r.None? <==> ParseTime(from).None? || ParseTime(to).None?
    ensures r == Some(true) ==> Minutes(ParseTime(from).value) <= StartMinutes(st) < Minutes(ParseTime(to).value)
  {
    var a := ParseTime(from);
    var b := ParseTime(to);
    if a.Some? && b.Some? then Some(Minutes(a.value) <= StartMinutes(st) < Minutes(b.value)) else None
  }

  /**
   * A time strategy can raise only through its range: both bounds given, and
   * one of them not a time.
   */
  predicate RangeMayRaise(ts: Timeslot) {
    ts.TimeslotFields? && ts.startTime.Some? && ts.endTime.Some?
    && (ParseTime(ts.startTime.value).None? || ParseTime(ts.endTime.value).None?)
  }

  /** The `time` branch of `matches_strategy`. */
  function EvalTime(ts: Timeslot, start: Option<Start>): (r: Option<bool>)
    ensures r.None? ==> RangeMayRaise(ts)
    ensures r == Some(true) ==> start.Some? && ts.TimeslotFields? && DayOk(ts.day, start.value)
  {
    if start.None? then Some(false)
    else match ts
      case TimeslotText(_) => Some(false)
      case TimeslotFields(day, from, to) =>
        if !DayOk(day, start.value) then Some(false)
        else if from.Some? && to.Some? then RangeCheck(from.value, to.value, start.value)
        else Some(true)
  }

  // ---------------------------------------------------------------------------
  // matches_strategy

  /** A strategy that can raise: a time strategy whose range can raise, or a combination holding one. */
  predicate MayRaise(s: MatchStrategy)
    decreases s
  {
    match s.strategy
    case Time(ts) => RangeMayRaise(ts)
    case All(ss) => exists k :: 0 <= k < |ss| && MayRaise(ss[k])
    case Any(ss) => exists k :: 0 <= k < |ss| && MayRaise(ss[k])
    case _ => false
  }

  /** `matches_strategy(strategy, summary, description, location, start_dt)`. */
  function Eval(e: Engine, s: MatchStrategy, ev: EventView): (r: Option<bool>)
    decreases s
    ensures r.None? ==> MayRaise(s)
  {
    match s.strategy
    case Time(ts) => EvalTime(ts, ev.start)
    case Description(p) =>
      Some(p != "" && ValidRegex(e, p) && Search(e, p, ev.summary + " " + ev.description))
    case Location(loc) => Some(loc != "" && Contains(Lower(loc), Lower(ev.location)))
    case Url(p) => Some(p != "" && ValidRegex(e, p) && Search(e, p, ev.description))
    case All(ss) => EvalAll(e, ss, ev)
    case Any(ss) => EvalAny(e, ss, ev)
    case Unknown(_) => Some(false)
  }

  /** The `all` loop: the first sub-strategy that fails decides, the first error propagates. */
  function EvalAll(e: Engine, ss: seq<MatchStrategy>, ev: EventView): (r: Option<bool>)
    decreases ss
    ensures r.None? ==> exists k :: 0 <= k < |ss| && MayRaise(ss[k])
  {
    if ss == [] then Some(true)
    else match Eval(e, ss[0], ev)
      case None => None
      case Some(false) => Some(false)
      case Some(true) => EvalAll(e, ss[1..], ev)
  }

  /** The `any` loop: the first sub-strategy that matches decides, the first error propagates. */
  function EvalAny(e: Engine, ss: seq<MatchStrategy>, ev: EventView): (r: Option<bool>)
    decreases ss
    ensures r.None? ==> exists k :: 0 <= k < |ss| && MayRaise(ss[k])
  {
    if ss == [] then Some(false)
    else match Eval(e, ss[0], ev)
      case None => None
      case Some(true) => Some(true)
      case Some(false) => EvalAny(e, ss[1..], ev)
  }

  // ---------------------------------------------------------------------------
  // The text strategies, kind by kind

  /** A strategy name the engine does not know never matches (line 335). */
  lemma UnknownNeverMatches(e: Engine, s: MatchStrategy, ev: EventView)
    requires s.strategy.Unknown?
    ensures Eval(e, s, ev) == Some(false)
  {
  }

  /** An empty pattern or location never matches (lines 287-288, 300-301, 307-308). */
  lemma EmptyTextNeverMatches(e: Engine, s: MatchStrategy, ev: EventView)
    requires || (s.strategy.Description? && s.strategy.pattern == "")
             || (s.strategy.Url? && s.strategy.pattern == "")
             || (s.strategy.Location? && s.strategy.location == "")
    ensures Eval(e, s, ev) == Some(false)
  {
  }

  /** A pattern that does not compile is caught (`except re.error`) and does not match (lines 294-295, 313-314). */
  lemma InvalidPatternNeverMatches(e: Engine, s: MatchStrategy, ev: EventView)
    requires (s.strategy.Description? || s.strategy.Url?) && !ValidRegex(e, s.strategy.pattern)
    ensures Eval(e, s, ev) == Some(false)
  {
  }

  /** A description strategy searches the summary and the description joined by one space (lines 291-293). */
  lemma DescriptionSearchesBoth(e: Engine, s: MatchStrategy, ev: EventView)
    requires s.strategy.Description? && s.strategy.pattern != "" && ValidRegex(e, s.strategy.pattern)
    ensures Eval(e, s, ev) == Some(Search(e, s.strategy.pattern, ev.summary + " " + ev.description))
  {
  }

  /** A url strategy searches the description only, so the summary, location and start play no part (lines 311-312). */
  lemma UrlSearchesDescriptionOnly(e: Engine, s: MatchStrategy, ev: EventView, other: EventView)
    requires s.strategy.Url? && s.strategy.pattern != "" && ValidRegex(e, s.strategy.pattern)
    ensures Eval(e, s, ev) == Some(Search(e, s.strategy.pattern, ev.description))
    ensures other.description == ev.description ==> Eval(e, s, other) == Eval(e, s, ev)
  {
  }

  /** Lower-casing both texts keeps every occurrence. */
  lemma LowerKeepsOccurrence(needle: string, hay: string, k: nat)
    requires OccursAt(needle, hay, k)
    ensures OccursAt(Lower(needle), Lower(hay), k)
  {
    forall i | 0 <= i < |needle|
      ensures Lower(hay)[k + i] == Lower(needle)[i]
    {
      assert hay[k..k + |needle|][i] == hay[k + i];
    }
    assert Lower(hay)[k..k + |needle|] == Lower(needle);
  }

  /** A location that occurs in the event's location, as typed, matches (line 302). */
  lemma LocationMatchesSubstring(e: Engine, s: MatchStrategy, ev: EventView)
    requires s.strategy.Location? && s.strategy.location != "" && Contains(s.strategy.location, ev.location)
    ensures Eval(e, s, ev) == Some(true)
  {
    var k :| OccursAt(s.strategy.location, ev.location, k);
    LowerKeepsOccurrence(s.strategy.location, ev.location, k);
  }

  lemma LowerIdempotent(t: string)
    ensures Lower(Lower(t)) == Lower(t)
  {
    forall i | 0 <= i < |t|
      ensures Lower(Lower(t))[i] == Lower(t)[i]
    {
      assert Lower(t)[i] == LowerChar(t[i]);
    }
  }

  /** The location test ignores case on both sides: lower-casing either changes nothing (line 302). */
  lemma LocationIgnoresCase(e: Engine, s: MatchStrategy, ev: EventView)
    requires s.strategy.Location?
    ensures Eval(e, s, ev) == Eval(e, MatchStrategy(Location(Lower(s.strategy.location)), s.priority), ev.(location := Lower(ev.location)))
  {
    var loc, place := s.strategy.location, ev.location;
    LowerIdempotent(loc);
    LowerIdempotent(place);
    assert Eval(e, s, ev) == Some(loc != "" && Contains(Lower(loc), Lower(place)));
    assert Eval(e, MatchStrategy(Location(Lower(loc)), s.priority), ev.(location := Lower(place)))
      == Some(Lower(loc) != "" && Contains(Lower(Lower(loc)), Lower(Lower(place))));
  }

  /** Every strategy of `ss` evaluates without raising. */
  predicate NoErrors(e: Engine, ss: seq<MatchStrategy>, ev: EventView) {
    forall k :: 0 <= k < |ss| ==> Eval(e, ss[k], ev).Some?
  }

  /** `all` holds exactly when every sub-strategy holds; over an empty list it holds. */
  lemma {:induction false} EvalAllMeaning(e: Engine, ss: seq<MatchStrategy>, ev: EventView)
    ensures EvalAll(e, ss, ev) == Some(true) <==> forall k :: 0 <= k < |ss| ==> Eval(e, ss[k], ev) == Some(true)
    ensures NoErrors(e, ss, ev) ==> EvalAll(e, ss, ev).Some?
    decreases |ss|
  {
    if ss != [] {
      if NoErrors(e, ss, ev) {
        NoErrorsTail(e, ss, ev);
      }
      EvalAllMeaning(e, ss[1..], ev);
      AllShift(e, ss, ev);
    }
  }

  lemma NoErrorsTail(e: Engine, ss: seq<MatchStrategy>, ev: EventView)
    requires ss != [] && NoErrors(e, ss, ev)
    ensures NoErrors(e, ss[1..], ev)
  {
    forall k | 0 <= k < |ss[1..]|
      ensures Eval(e, ss[1..][k], ev).Some?
    {
      assert ss[1..][k] == ss[k + 1];
    }
  }

  /** Every strategy holds exactly when the first one does and every later one does. */
  lemma AllShift(e: Engine, ss: seq<MatchStrategy>, ev: EventView)
    requires ss != []
    ensures (forall k :: 0 <= k < |ss| ==> Eval(e, ss[k], ev) == Some(true))
      <==> Eval(e, ss[0], ev) == Some(true) && (forall k :: 0 <= k < |ss[1..]| ==> Eval(e, ss[1..][k], ev) == Some(true))
  {
    if forall k :: 0 <= k < |ss| ==> Eval(e, ss[k], ev) == Some(true) {
      forall k | 0 <= k < |ss[1..]|
        ensures Eval(e, ss[1..][k], ev) == Some(true)
      {
        assert ss[1..][k] == ss[k + 1];
      }
    }
    if Eval(e, ss[0], ev) == Some(true) && (forall k :: 0 <= k < |ss[1..]| ==> Eval(e, ss[1..][k], ev) == Some(true)) {
      forall k | 0 <= k < |ss|
        ensures Eval(e, ss[k], ev) == Some(true)
      {
        if k > 0 {
          assert ss[k] == ss[1..][k - 1];
        }
      }
    }
  }

  /** Without errors, `any` holds exactly when some sub-strategy holds; over an empty list it does not. */
  lemma {:induction false} EvalAnyMeaning(e: Engine, ss: seq<MatchStrategy>, ev: EventView)
    ensures NoErrors(e, ss, ev) ==>
      EvalAny(e, ss, ev) == Some(exists k :: 0 <= k < |ss| && Eval(e, ss[k], ev) == Some(true))
    ensures EvalAny(e, ss, ev) == Some(true) ==> exists k :: 0 <= k < |ss| && Eval(e, ss[k], ev) == Some(true)
    decreases |ss|
  {
    if ss != [] {
      if NoErrors(e, ss, ev) {
        NoErrorsTail(e, ss, ev);
      }
      EvalAnyMeaning(e, ss[1..], ev);
      if Eval(e, ss[0], ev) != Some(true) {
        MatchShift(e, ss, ev);
      }
    }
  }

  /** Past a first strategy that does not hold, some strategy holds exactly when one of the rest does. */
  lemma MatchShift(e: Engine, ss: seq<MatchStrategy>, ev: EventView)
    requires ss != [] && Eval(e, ss[0], ev) != Some(true)
    ensures (exists k :: 0 <= k < |ss| && Eval(e, ss[k], ev) == Some(true))
      <==> (exists k :: 0 <= k < |ss[1..]| && Eval(e, ss[1..][k], ev) == Some(true))
  {
    if exists k :: 0 <= k < |ss| && Eval(e, ss[k], ev) == Some(true) {
      var k :| 0 <= k < |ss| && Eval(e, ss[k], ev) == Some(true);
      assert ss[1..][k - 1] == ss[k];
    }
    if exists k :: 0 <= k < |ss[1..]| && Eval(e, ss[1..][k], ev) == Some(true) {
      var k :| 0 <= k < |ss[1..]| && Eval(e, ss[1..][k], ev) == Some(true);
      assert ss[k + 1] == ss[1..][k];
    }
  }

  /** A time strategy never matches an event without a start, nor through the free-text form. */
  lemma TimeNeedsStartAndFields(e: Engine, ts: Timeslot, ev: EventView, priority: int)
    requires ev.start.None? || ts.TimeslotText?
    ensures Eval(e, MatchStrategy(Time(ts), priority), ev) == Some(false)
  {
  }

  /** A day name outside Monday..Sunday never matches a real weekday. */
  lemma UnknownDayNeverMatches(e: Engine, name: string, from: Option<string>, to: Option<string>,
                               ev: EventView, priority: int)
    requires ev.start.Some? && ValidStart(ev.start.value)
    requires DayNumber(name) == -1
    ensures Eval(e, MatchStrategy(Time(TimeslotFields(Some(DayName(name)), from, to)), priority), ev) == Some(false)
  {
  }

  /** A timeslot without day or time range matches every event that has a start. */
  lemma EmptyTimeslotMatches(e: Engine, ev: EventView, priority: int)
    requires ev.start.Some?
    ensures Eval(e, MatchStrategy(Time(TimeslotFields(None, None, None)), priority), ev) == Some(true)
  {
  }

  /** With one bound missing the range is not checked at all, whatever the other bound says. */
  lemma OneBoundIgnored(e: Engine, day: Option<Day>, from: Option<string>, to: Option<string>,
                        ev: EventView, priority: int)
    requires from.None? || to.None?
    requires ev.start.Some? && DayOk(day, ev.start.value)
    ensures Eval(e, MatchStrategy(Time(TimeslotFields(day, from, to)), priority), ev) == Some(true)
  {
  }

  /** The range includes its start minute and excludes its end minute. */
  lemma RangeIsHalfOpen(e: Engine, day: Option<Day>, from: string, to: string, ev: EventView, priority: int)
    requires ParseTime(from).Some? && ParseTime(to).Some?
    requires ev.start.Some? && DayOk(day, ev.start.value)
    ensures var r := Eval(e, MatchStrategy(Time(TimeslotFields(day, Some(from), Some(to))), priority), ev);
      && (StartMinutes(ev.start.value) == Minutes(ParseTime(from).value)
          ==> r == Some(Minutes(ParseTime(from).value) < Minutes(ParseTime(to).value)))
      && (StartMinutes(ev.start.value) == Minutes(ParseTime(to).value) ==> r == Some(false))
  {
    var r := Eval(e, MatchStrategy(Time(TimeslotFields(day, Some(from), Some(to))), priority), ev);
    assert r == EvalTime(TimeslotFields(day, Some(from), Some(to)), ev.start);
    RangeCheckParsed(from, to, ev.start.value);
  }

  /** With both bounds parsed, the range check compares the start with them. */
  lemma RangeCheckParsed(from: string, to: string, st: Start)
    requires ParseTime(from).Some? && ParseTime(to).Some?
    ensures RangeCheck(from, to, st) == Some(Minutes(ParseTime(from).value) <= StartMinutes(st) < Minutes(ParseTime(to).value))
  {
  }

  // ---------------------------------------------------------------------------
  // matches_item

  /** Whether the priority of every element is at most the one of every later element. */
  predicate SortedByPriority(ss: seq<MatchStrategy>) {
    forall i, j :: 0 <= i < j < |ss| ==> ss[i].priority <= ss[j].priority
  }

  /** `x` placed after every element of `ss` whose priority is not larger: a stable insertion. */
  function InsertByPriority(x: MatchStrategy, ss: seq<MatchStrategy>): (r: seq<MatchStrategy>)
    ensures multiset(r) == multiset(ss) + multiset{x}
    ensures forall k :: 0 <= k < |r| ==> r[k] == x || r[k] in ss
    decreases |ss|
  {
    if ss == [] then [x]
    else if x.priority < ss[0].priority then [x] + ss
    else
      assert ss == [ss[0]] + ss[1..];
      [ss[0]] + InsertByPriority(x, ss[1..])
  }

  lemma {:induction false} InsertKeepsSorted(x: MatchStrategy, ss: seq<MatchStrategy>)
    requires SortedByPriority(ss)
    ensures SortedByPriority(InsertByPriority(x, ss))
    decreases |ss|
  {
    if ss != [] && x.priority >= ss[0].priority {
      var rest := InsertByPriority(x, ss[1..]);
      InsertKeepsSorted(x, ss[1..]);
      forall k | 0 <= k < |rest|
        ensures ss[0].priority <= rest[k].priority
      {
        if rest[k] != x {
          var j :| 0 <= j < |ss[1..]| && ss[1..][j] == rest[k];
          assert ss[j + 1] == rest[k];
        }
      }
      var r := [ss[0]] + rest;
      forall i, j | 0 <= i < j < |r|
        ensures r[i].priority <= r[j].priority
      {
        if i > 0 {
          assert r[i] == rest[i - 1] && r[j] == rest[j - 1];
        } else {
          assert r[j] == rest[j - 1];
        }
      }
    }
  }

  /** The elements of `ss` whose priority is `p`, in their order in `ss`. */
  function OfPriority(ss: seq<MatchStrategy>, p: int): seq<MatchStrategy>
    decreases |ss|
  {
    if ss == [] then [] else (if ss[0].priority == p then [ss[0]] else []) + OfPriority(ss[1..], p)
  }

  lemma {:induction false} OfPriorityAppend(a: seq<MatchStrategy>, b: seq<MatchStrategy>, p: int)
    ensures OfPriority(a + b, p) == OfPriority(a, p) + OfPriority(b, p)
    decreases |a|
  {
    if a != [] {
      assert (a + b)[1..] == a[1..] + b;
      OfPriorityAppend(a[1..], b, p);
    } else {
      assert a + b == b;
    }
  }

  /** No element of `ss` has priority `p` when every element has a larger one. */
  lemma {:induction false} OfPriorityAbove(ss: seq<MatchStrategy>, p: int)
    requires forall k :: 0 <= k < |ss| ==> p < ss[k].priority
    ensures OfPriority(ss, p) == []
    decreases |ss|
  {
    if ss != [] {
      OfPriorityAbove(ss[1..], p);
    }
  }

  /**
   * Inserting into a sorted sequence puts `x` after every element of its own
   * priority: each priority class keeps its order, and `x` ends its class.
   */
  lemma {:induction false} InsertIsStable(x: MatchStrategy, ss: seq<MatchStrategy>, p: int)
    requires SortedByPriority(ss)
    ensures OfPriority(InsertByPriority(x, ss), p) == OfPriority(ss, p) + (if x.priority == p then [x] else [])
    decreases |ss|
  {
    if ss == [] {
      assert OfPriority([x], p) == (if x.priority == p then [x] else []) + OfPriority([], p);
    } else if x.priority < ss[0].priority {
      assert ([x] + ss)[1..] == ss;
      if x.priority == p {
        OfPriorityAbove(ss, p);
      }
    } else {
      var rest := InsertByPriority(x, ss[1..]);
      assert SortedByPriority(ss[1..]) by {
        forall i, j | 0 <= i < j < |ss| - 1
          ensures ss[1..][i].priority <= ss[1..][j].priority
        {
          assert ss[1..][i] == ss[i + 1] && ss[1..][j] == ss[j + 1];
        }
      }
      InsertIsStable(x, ss[1..], p);
      var head := if ss[0].priority == p then [ss[0]] else [];
      assert ([ss[0]] + rest)[0] == ss[0] && ([ss[0]] + rest)[1..] == rest;
      assert OfPriority([ss[0]] + rest, p) == head + OfPriority(rest, p);
      assert OfPriority(ss, p) == head + OfPriority(ss[1..], p);
    }
  }

  /** `sorted(strategies, key=priority)`: stable, so equal priorities keep their order. */
  function SortByPriority(ss: seq<MatchStrategy>): (r: seq<MatchStrategy>)
    ensures multiset(r) == multiset(ss)
    ensures SortedByPriority(r)
    ensures forall p :: OfPriority(r, p) == OfPriority(ss, p)
    decreases |ss|
  {
    if ss == [] then []
    else
      var init, last := ss[..|ss| - 1], ss[|ss| - 1];
      var sortedInit := SortByPriority(init);
      assert ss == init + [last];
      InsertKeepsSorted(last, sortedInit);
      StableStep(init, last, sortedInit);
      InsertByPriority(last, sortedInit)
  }

  /** Inserting the last element into the sorted rest keeps every priority class in its order. */
  lemma StableStep(init: seq<MatchStrategy>, last: MatchStrategy, sortedInit: seq<MatchStrategy>)
    requires SortedByPriority(sortedInit)
    requires forall p :: OfPriority(sortedInit, p) == OfPriority(init, p)
    ensures forall p :: OfPriority(InsertByPriority(last, sortedInit), p) == OfPriority(init + [last], p)
  {
    forall p
      ensures OfPriority(InsertByPriority(last, sortedInit), p) == OfPriority(init + [last], p)
    {
      InsertIsStable(last, sortedInit, p);
      OfPriorityAppend(init, [last], p);
      assert OfPriority([last], p) == (if last.priority == p then [last] else []) + OfPriority([], p);
    }
  }

  /** The value `matches_item` returns, or `None` when it raises. */
  function ItemMatches(e: Engine, item: EventItem, ev: EventView): (r: Option<bool>)
    ensures r.None? ==> exists k :: 0 <= k < |item.strategies| && MayRaise(item.strategies[k])
  {
    if item.strategies == [] then Some(true)
    else
      var sorted := SortByPriority(item.strategies);
      RaiseSurvivesReorder(sorted, item.strategies);
      EvalAny(e, sorted, ev)
  }

  /** A strategy that can raise in one order of the strategies is there in any other order. */
  lemma RaiseSurvivesReorder(a: seq<MatchStrategy>, b: seq<MatchStrategy>)
    requires multiset(a) == multiset(b)
    ensures (exists k :: 0 <= k < |a| && MayRaise(a[k])) ==> exists k :: 0 <= k < |b| && MayRaise(b[k])
  {
    if exists k :: 0 <= k < |a| && MayRaise(a[k]) {
      var k :| 0 <= k < |a| && MayRaise(a[k]);
      assert a[k] in multiset(b);
      var j :| 0 <= j < |b| && b[j] == a[k];
    }
  }

  /** `matches_item`: no strategies matches everything; otherwise the strategies are tried by priority until one matches. */
  method MatchesItem(e: Engine, item: EventItem, ev: EventView) returns (r: Option<bool>)
    ensures r == ItemMatches(e, item, ev)
  {
    if item.strategies == [] {
      return Some(true);
    }
    var sorted := SortByPriority(item.strategies);
    var i := 0;
    while i < |sorted|
      invariant 0 <= i <= |sorted|
      invariant EvalAny(e, sorted, ev) == EvalAny(e, sorted[i..], ev)
    {
      var m := Eval(e, sorted[i], ev);
      if m.None? {
        return None;
      }
      if m.value {
        return Some(true);
      }
      assert sorted[i..][1..] == sorted[i + 1..];
      i := i + 1;
    }
    return Some(false);
  }

  /**
   * When no strategy raises, `matches_item` holds exactly when some strategy of
   * the item matches: the priority order does not change the answer.
   */
  lemma ItemMatchesMeaning(e: Engine, item: EventItem, ev: EventView)
    requires NoErrors(e, item.strategies, ev)
    ensures ItemMatches(e, item, ev)
      == Some(item.strategies == [] || exists k :: 0 <= k < |item.strategies| && Eval(e, item.strategies[k], ev) == Some(true))
  {
    var ss := item.strategies;
    if ss != [] {
      var sorted := SortByPriority(ss);
      forall k | 0 <= k < |sorted|
        ensures Eval(e, sorted[k], ev).Some?
      {
        assert sorted[k] in multiset(ss);
      }
      EvalAnyMeaning(e, sorted, ev);
      if exists k :: 0 <= k < |ss| && Eval(e, ss[k], ev) == Some(true) {
        var k :| 0 <= k < |ss| && Eval(e, ss[k], ev) == Some(true);
        assert ss[k] in multiset(sorted);
        var j :| 0 <= j < |sorted| && sorted[j] == ss[k];
      }
      if exists j :: 0 <= j < |sorted| && Eval(e, sorted[j], ev) == Some(true) {
        var j :| 0 <= j < |sorted| && Eval(e, sorted[j], ev) == Some(true);
        assert sorted[j] in multiset(ss);
        var k :| 0 <= k < |ss| && ss[k] == sorted[j];
      }
    }
  }
}
