/**
 * `split_and_write` of split.py: every VEVENT of the upstream calendar is
 * routed to the bucket of the course detected in it, filtered by the match
 * strategies of the course's event types, rewritten, and counted; then each
 * course's bucket is given a feed name built from its token, in course order.
 *
 * The upstream calendar is a sequence of components with their properties;
 * parsing, serialising and writing files are left out, and whether a write
 * fails is a parameter.
 */
module Split {
  import opened Wrappers
  import opened Text
  import opened Regex
  import opened EventTypes
  import opened MatchEngine
  import opened CourseDetect
  import opened Rules
  import opened Extraction
  import opened Rewrite
  import opened Tokens

  /** One content line of a component: its name and its value as text. */
  datatype Property = Property(name: string, value: string)

  /** A component of the upstream calendar: `VEVENT`, `VTIMEZONE`, ...; `start` is `DTSTART` when it is a date-time. */
  datatype Component = Component(name: string, props: seq<Property>, start: Option<Start>)

  /** An event as written to a course's feed: its properties in order. */
  type OutEvent = seq<Property>

  /** `props[k]` is the first property named `key`. */
  predicate FirstNamed(props: seq<Property>, key: string, k: int) {
    0 <= k < |props| && props[k].name == key && forall j :: 0 <= j < k ==> props[j].name != key
  }

  /** `str(comp.get(key, "") or "")`: the first value under `key`, or `""`. */
  function PropGet(props: seq<Property>, key: string): (v: string)
    ensures (forall k :: 0 <= k < |props| ==> props[k].name != key) ==> v == ""
    ensures v != "" ==> exists k :: 0 <= k < |props| && props[k].name == key && props[k].value == v
    ensures forall k {:trigger FirstNamed(props, key, k)} :: FirstNamed(props, key, k) ==> v == props[k].value
    decreases |props|
  {
    if props == [] then ""
    else if props[0].name == key then props[0].value
    else
      var v := PropGet(props[1..], key);
      assert forall k :: 1 <= k < |props| ==> props[k] == props[1..][k - 1];
      assert forall k | FirstNamed(props, key, k) :: FirstNamed(props[1..], key, k - 1);
      v
  }

  /** What the matching code reads of a component. */
  function View(c: Component): EventView {
    EventView(PropGet(c.props, "SUMMARY"), PropGet(c.props, "DESCRIPTION"), PropGet(c.props, "LOCATION"), c.start)
  }

  /** The properties that are not copied to the new event (lines 51-54). */
  const Replaced: set<string> := {"SUMMARY", "DESCRIPTION", "BEGIN", "END"}

  /** The copied properties of the new event, in their order. */
  function Copied(props: seq<Property>): (r: seq<Property>)
    ensures forall k :: 0 <= k < |r| ==> r[k] in props && r[k].name !in Replaced
    ensures forall k :: 0 <= k < |props| && props[k].name !in Replaced ==> props[k] in r
    ensures |r| <= |props|
    decreases |props|
  {
    if props == [] then []
    else
      var rest := Copied(props[1..]);
      assert forall k :: 1 <= k < |props| ==> props[k] == props[1..][k - 1];
      if props[0].name in Replaced then rest else [props[0]] + rest
  }

  /** Copying distributes over concatenation: the order and the repeats of the kept properties survive. */
  lemma {:induction false} CopiedAppend(a: seq<Property>, b: seq<Property>)
    ensures Copied(a + b) == Copied(a) + Copied(b)
    decreases |a|
  {
    if a == [] {
      assert a + b == b;
    } else {
      assert (a + b)[1..] == a[1..] + b;
      CopiedAppend(a[1..], b);
    }
  }

  /** One property is copied exactly when its name is not replaced. */
  lemma CopiedSingle(p: Property)
    ensures p.name in Replaced ==> Copied([p]) == []
    ensures p.name !in Replaced ==> Copied([p]) == [p]
  {
  }

  /** The event added to a bucket: the copied properties, then the new `SUMMARY` and `DESCRIPTION`. */
  function NewEvent(c: Component, newSummary: string, newDescription: string): (ev: OutEvent)
    ensures |ev| >= 2 && ev[|ev| - 2] == Property("SUMMARY", newSummary) && ev[|ev| - 1] == Property("DESCRIPTION", newDescription)
    ensures ev[..|ev| - 2] == Copied(c.props)
  {
    Copied(c.props) + [Property("SUMMARY", newSummary), Property("DESCRIPTION", newDescription)]
  }

  // ---------------------------------------------------------------------------
  // Filtering by match strategies (lines 58-101)

  /** What happens to an event with a course: it is kept, skipped, or `matches_item` raises. */
  datatype Decision = Keep | Skip | Raise

  /** The verdict of one `matches_item` call on an item that has strategies. */
  function Verdict(m: Option<bool>): Decision {
    match m
    case None => Raise
    case Some(b) => if b then Keep else Skip
  }

  /** The verdict `matches_item` gives each item for one event (`None` when it raises). */
  function Matcher(e: Engine, ev: EventView): EventItem -> Option<bool> {
    (it: EventItem) => ItemMatches(e, it, ev)
  }

  /** A numbered event (lines 75-83): only the item with its number, when it has strategies, decides. */
  function NumberedDecision(items: seq<ItemSlot>, n: int, m: EventItem -> Option<bool>): (d: Decision)
    ensures var l := LookupItem(items, Some(n));
      d == Skip <==> l.Some? && l.value.strategies != [] && m(l.value) == Some(false)
    ensures var l := LookupItem(items, Some(n));
      d == Raise <==> l.Some? && l.value.strategies != [] && m(l.value).None?
  {
    var l := LookupItem(items, Some(n));
    if l.None? || l.value.strategies == [] then Keep else Verdict(m(l.value))
  }

  /** `matches_item` raises only when one of the item's strategies raises. */
  lemma ItemMatchesMeaningNoErrors(e: Engine, item: EventItem, ev: EventView)
    ensures NoErrors(e, item.strategies, ev) ==> ItemMatches(e, item, ev).Some?
  {
    if NoErrors(e, item.strategies, ev) {
      ItemMatchesMeaning(e, item, ev);
    }
  }

  /** The outcome of the loop of lines 87-92 over an event type's items. */
  datatype Scan = Found(key: Option<int>) | NotFound | Failed

  predicate Matching(slot: ItemSlot, m: EventItem -> Option<bool>) {
    slot.item.strategies != [] && m(slot.item) == Some(true)
  }

  predicate Rejecting(slot: ItemSlot, m: EventItem -> Option<bool>) {
    slot.item.strategies == [] || m(slot.item) == Some(false)
  }

  /** The first item with strategies that matches, in the dict's order; items without strategies are passed over. */
  function ScanItems(items: seq<ItemSlot>, m: EventItem -> Option<bool>): (r: Scan)
    ensures r == NotFound <==> forall k :: 0 <= k < |items| ==> Rejecting(items[k], m)
    ensures r.Found? ==> exists k ::
      && 0 <= k < |items| && items[k].key == r.key && Matching(items[k], m)
      && forall j :: 0 <= j < k ==> Rejecting(items[j], m)
    ensures r == Failed ==> exists k :: 0 <= k < |items| && items[k].item.strategies != [] && m(items[k].item).None?
    decreases |items|
  {
    if items == [] then NotFound
    else
      var rest := ScanItems(items[1..], m);
      assert forall k :: 1 <= k < |items| ==> items[k] == items[1..][k - 1];
      if items[0].item.strategies == [] then rest
      else match m(items[0].item)
        case None => Failed
        case Some(b) => if b then Found(items[0].key) else rest
  }

  predicate AnyStrategies(items: seq<ItemSlot>) {
    exists k :: 0 <= k < |items| && items[k].item.strategies != []
  }

  /** An unnumbered event (lines 84-96): skipped when items have strategies and none of them matches. */
  function UnnumberedDecision(items: seq<ItemSlot>, m: EventItem -> Option<bool>): (d: Decision)
    ensures d == Skip <==> AnyStrategies(items) && forall k :: 0 <= k < |items| ==> Rejecting(items[k], m)
    ensures d == Raise ==> exists k :: 0 <= k < |items| && items[k].item.strategies != [] && m(items[k].item).None?
  {
    match ScanItems(items, m)
    case Failed => Raise
    case Found(_) => Keep
    case NotFound => if AnyStrategies(items) then Skip else Keep
  }

  /** The event type that filters the event, if any: the one named by its kind, when it has items (lines 63-74). */
  function FilterType(e: Engine, cr: Option<CourseRules>, summary: string): (r: Option<(EventType, NumKind)>)
    ensures r.Some? ==> cr.Some? && r.value.1 == Extract(e, cr, summary)
    ensures r.Some? ==> r.value.0 in cr.value.eventTypes && Some(r.value.0.kind) == r.value.1.kind && r.value.0.items != []
  {
    if cr.None? || cr.value.eventTypes == [] then None
    else
      var nk := Extract(e, cr, summary);
      if !KindGiven(nk.kind) then None
      else match FindType(cr.value.eventTypes, nk.kind.value)
        case None => None
        case Some(et) => if et.items == [] then None else Some((et, nk))
  }

  /** Whether the event is kept, skipped, or makes `split_and_write` raise. */
  function FilterDecision(e: Engine, cr: Option<CourseRules>, summary: string, ev: EventView): (d: Decision)
    ensures FilterType(e, cr, summary).None? ==> d == Keep
  {
    match FilterType(e, cr, summary)
    case None => Keep
    case Some((et, nk)) =>
      if nk.n.Some? then NumberedDecision(et.items, nk.n.value, Matcher(e, ev))
      else UnnumberedDecision(et.items, Matcher(e, ev))
  }

  /** The loop of lines 87-92. */
  method ScanLoop(e: Engine, items: seq<ItemSlot>, ev: EventView) returns (r: Scan)
    ensures r == ScanItems(items, Matcher(e, ev))
  {
    var i := 0;
    while i < |items|
      invariant 0 <= i <= |items|
      invariant ScanItems(items, Matcher(e, ev)) == ScanItems(items[i..], Matcher(e, ev))
    {
      assert items[i..][1..] == items[i + 1..];
      if items[i].item.strategies != [] {
        var m := MatchesItem(e, items[i].item, ev);
        if m.None? {
          return Failed;
        }
        if m.value {
          return Found(items[i].key);
        }
      }
      i := i + 1;
    }
    return NotFound;
  }

  /** `any(item.match_strategies for item in event_type.items.values())`. */
  method AnyStrategiesLoop(items: seq<ItemSlot>) returns (any: bool)
    ensures any == AnyStrategies(items)
  {
    any := false;
    var j := 0;
    while j < |items|
      invariant 0 <= j <= |items|
      invariant any <==> exists k :: 0 <= k < j && items[k].item.strategies != []
    {
      any := any || items[j].item.strategies != [];
      j := j + 1;
    }
  }

  /** The filtering code of lines 59-96. */
  method FilterEvent(e: Engine, cr: Option<CourseRules>, summary: string, ev: EventView) returns (d: Decision)
    ensures d == FilterDecision(e, cr, summary, ev)
  {
    d := Keep;
    if cr.None? || cr.value.eventTypes == [] {
      return;
    }
    var nk := ExtractNumberAndKind(e, cr, summary);
    var eventType: Option<EventType> := None;
    if KindGiven(nk.kind) {
      eventType := FindEventType(cr.value.eventTypes, nk.kind.value);
    }
    if eventType.None? || eventType.value.items == [] {
      return;
    }
    assert FilterType(e, cr, summary) == Some((eventType.value, nk));
    var items := eventType.value.items;
    if nk.n.Some? {
      var item := LookupItem(items, Some(nk.n.value));
      if item.Some? && item.value.strategies != [] {
        var m := MatchesItem(e, item.value, ev);
        d := Verdict(m);
      }
      return;
    }
    var scan := ScanLoop(e, items, ev);
    if scan.Failed? {
      return Raise;
    } else if scan.Found? {
      return Keep;
    }
    var any := AnyStrategiesLoop(items);
    d := if any then Skip else Keep;
  }

  /**
   * When the item's strategies do not raise, a numbered event whose item has
   * strategies is filtered out exactly when none of them matches it.
   */
  lemma NumberedFilter(e: Engine, items: seq<ItemSlot>, n: int, ev: EventView)
    requires LookupItem(items, Some(n)).Some? ==> NoErrors(e, LookupItem(items, Some(n)).value.strategies, ev)
    ensures var item := LookupItem(items, Some(n));
      NumberedDecision(items, n, Matcher(e, ev)) == Skip <==>
        && item.Some? && item.value.strategies != []
        && forall k :: 0 <= k < |item.value.strategies| ==> Eval(e, item.value.strategies[k], ev) != Some(true)
    ensures NumberedDecision(items, n, Matcher(e, ev)) != Raise
  {
    var item := LookupItem(items, Some(n));
    if item.Some? {
      ItemMatchesMeaning(e, item.value, ev);
    }
  }

  /**
   * When no strategy raises, an unnumbered event is filtered out exactly when
   * some item has strategies and every item with strategies has none that
   * matches it.
   */
  lemma UnnumberedFilter(e: Engine, items: seq<ItemSlot>, ev: EventView)
    requires forall k :: 0 <= k < |items| ==> NoErrors(e, items[k].item.strategies, ev)
    ensures UnnumberedDecision(items, Matcher(e, ev)) == Skip <==>
      && AnyStrategies(items)
      && forall k, j :: 0 <= k < |items| && 0 <= j < |items[k].item.strategies| ==> Eval(e, items[k].item.strategies[j], ev) != Some(true)
    ensures UnnumberedDecision(items, Matcher(e, ev)) != Raise
  {
    forall k | 0 <= k < |items|
      ensures ItemMatches(e, items[k].item, ev)
        == Some(items[k].item.strategies == [] || exists j :: 0 <= j < |items[k].item.strategies| && Eval(e, items[k].item.strategies[j], ev) == Some(true))
    {
      ItemMatchesMeaning(e, items[k].item, ev);
    }
  }

  /** `split_and_write` raises only when the strategies of an item of the event's type raise for the event. */
  lemma RaiseNeedsFailingStrategy(e: Engine, cr: Option<CourseRules>, summary: string, ev: EventView)
    requires FilterDecision(e, cr, summary, ev) == Raise
    ensures exists slot :: slot in FilterType(e, cr, summary).value.0.items && !NoErrors(e, slot.item.strategies, ev)
  {
    var (et, nk) := FilterType(e, cr, summary).value;
    var k: nat;
    if nk.n.Some? {
      k :| k < |et.items| && et.items[k].key == Some(nk.n.value) && et.items[k].item == LookupItem(et.items, Some(nk.n.value)).value;
    } else {
      k :| k < |et.items| && et.items[k].item.strategies != [] && ItemMatches(e, et.items[k].item, ev).None?;
    }
    ItemMatchesMeaningNoErrors(e, et.items[k].item, ev);
    assert et.items[k] in et.items;
  }

  // ---------------------------------------------------------------------------
  // The pass over the components (lines 24-109)

  /** The buckets, one per course in order of first appearance of the key, and the three counters. */
  datatype State = State(buckets: map<string, seq<OutEvent>>, total: nat, kept: nat, filtered: nat)

  const Initial: State := State(map[], 0, 0, 0)

  /** Rules whose templates can be formatted. */
  predicate RulesOk(rules: map<string, CourseRules>) {
    forall c :: c in rules ==> TemplatesOk(rules[c])
  }

  function RulesFor(rules: map<string, CourseRules>, course: string): (cr: Option<CourseRules>)
    ensures cr.Some? <==> course in rules
    ensures cr.Some? ==> cr.value == rules[course]
  {
    if course in rules then Some(rules[course]) else None
  }

  /** The course an event goes to, if any. */
  function CourseOf(c: Component): Option<string> {
    DetectCourseCode(View(c).summary, View(c).description)
  }

  /** The buckets after `setdefault(course, [])`. */
  function WithBucket(buckets: map<string, seq<OutEvent>>, course: string): (b: map<string, seq<OutEvent>>)
    ensures b.Keys == buckets.Keys + {course}
    ensures course in buckets ==> b == buckets
    ensures course !in buckets ==> b[course] == []
    ensures forall k :: k in buckets ==> b[k] == buckets[k]
  {
    if course in buckets then buckets else buckets[course := []]
  }

  /**
   * The state after the filter's decision `d` on an event of `course`, whose
   * rewritten summary and description are `sd` when it is kept.
   */
  function Outcome(st: State, c: Component, course: string, d: Decision, sd: (string, string)): Option<State> {
    var b := WithBucket(st.buckets, course);
    match d
    case Raise => None
    case Skip => Some(State(b, st.total + 1, st.kept, st.filtered + 1))
    case Keep => Some(State(b[course := b[course] + [NewEvent(c, sd.0, sd.1)]], st.total + 1, st.kept + 1, st.filtered))
  }

  /** Lines 47-109 for a VEVENT that goes to `course`; the rewrite only matters when the event is kept. */
  function EventStep(e: Engine, rules: map<string, CourseRules>, st: State, c: Component, course: string): (r: Option<State>)
    requires RulesOk(rules)
  {
    var ev := View(c);
    var cr := RulesFor(rules, course);
    Outcome(st, c, course, FilterDecision(e, cr, ev.summary, ev), RewriteSpec(e, ev.summary, ev.description, course, cr))
  }

  /** One turn of the loop of lines 29-109; `None` when it raises. */
  function Step(e: Engine, rules: map<string, CourseRules>, st: State, c: Component): (r: Option<State>)
    requires RulesOk(rules)
    ensures c.name != "VEVENT" ==> r == Some(st)
  {
    if c.name != "VEVENT" then Some(st)
    else match CourseOf(c)
      case None => Some(st.(total := st.total + 1))
      case Some(course) => EventStep(e, rules, st, c, course)
  }

  /**
   * One turn counts every VEVENT; a VEVENT with a course opens its bucket and
   * is kept or filtered; the only bucket that changes is the event's own; the
   * turn raises exactly when the filter does.
   */
  lemma StepEffect(e: Engine, rules: map<string, CourseRules>, st: State, c: Component)
    requires RulesOk(rules)
    ensures var r := Step(e, rules, st, c);
      var routed := c.name == "VEVENT" && CourseOf(c).Some?;
      && (r.Some? ==> r.value.total == st.total + (if c.name == "VEVENT" then 1 else 0))
      && (r.Some? ==> r.value.kept + r.value.filtered == st.kept + st.filtered + (if routed then 1 else 0))
      && (r.Some? && routed ==> r.value.buckets.Keys == st.buckets.Keys + {CourseOf(c).value})
      && (r.Some? && !routed ==> r.value.buckets == st.buckets)
      && (r.Some? ==> forall k :: k in st.buckets && !(routed && CourseOf(c) == Some(k)) ==> r.value.buckets[k] == st.buckets[k])
      && (r.None? <==> routed && FilterDecision(e, RulesFor(rules, CourseOf(c).value), View(c).summary, View(c)) == Raise)
  {
    if c.name == "VEVENT" && CourseOf(c).Some? {
      var course := CourseOf(c).value;
      var ev := View(c);
      var cr := RulesFor(rules, course);
      OutcomeEffect(st, c, course, FilterDecision(e, cr, ev.summary, ev), RewriteSpec(e, ev.summary, ev.description, course, cr));
    }
  }

  /** The bookkeeping of one routed event: it is counted, its bucket exists afterwards, and no other bucket changes. */
  lemma OutcomeEffect(st: State, c: Component, course: string, d: Decision, sd: (string, string))
    ensures var r := Outcome(st, c, course, d, sd);
      && (r.Some? ==> r.value.total == st.total + 1)
      && (r.Some? ==> r.value.kept + r.value.filtered == st.kept + st.filtered + 1)
      && (r.Some? ==> r.value.buckets.Keys == st.buckets.Keys + {course})
      && (r.Some? ==> forall k :: k in st.buckets && k != course ==> r.value.buckets[k] == st.buckets[k])
      && (r.None? <==> d == Raise)
  {
  }

  /** The state after the components `cs`, or `None` when one of them raises. */
  function Run(e: Engine, rules: map<string, CourseRules>, cs: seq<Component>): (r: Option<State>)
    requires RulesOk(rules)
    ensures r.Some? ==> r.value.total == EventCount(cs)
    ensures r.Some? ==> r.value.kept + r.value.filtered <= r.value.total
    decreases |cs|
  {
    if cs == [] then Some(Initial)
    else match Run(e, rules, cs[..|cs| - 1])
      case None => None
      case Some(st) => StepEffect(e, rules, st, cs[|cs| - 1]); Step(e, rules, st, cs[|cs| - 1])
  }

  /** The number of VEVENTs among `cs`. */
  function EventCount(cs: seq<Component>): nat
    decreases |cs|
  {
    if cs == [] then 0 else EventCount(cs[..|cs| - 1]) + (if cs[|cs| - 1].name == "VEVENT" then 1 else 0)
  }

  /** The courses detected in the VEVENTs among `cs`. */
  function CoursesOf(cs: seq<Component>): set<string>
    decreases |cs|
  {
    if cs == [] then {}
    else
      var c := cs[|cs| - 1];
      CoursesOf(cs[..|cs| - 1]) + (if c.name == "VEVENT" && CourseOf(c).Some? then {CourseOf(c).value} else {})
  }

  /**
   * The loop of lines 24-109: `total` counts every VEVENT, every VEVENT with a
   * course gets a bucket (even when it is filtered out) and is either kept or
   * filtered.
   */
  lemma {:induction false} RunCounts(e: Engine, rules: map<string, CourseRules>, cs: seq<Component>)
    requires RulesOk(rules)
    ensures Run(e, rules, cs).Some? ==>
      var st := Run(e, rules, cs).value;
      && st.total == EventCount(cs)
      && st.kept + st.filtered <= st.total
      && st.buckets.Keys == CoursesOf(cs)
    decreases |cs|
  {
    if cs != [] {
      RunCounts(e, rules, cs[..|cs| - 1]);
      if Run(e, rules, cs[..|cs| - 1]).Some? {
        StepEffect(e, rules, Run(e, rules, cs[..|cs| - 1]).value, cs[|cs| - 1]);
      }
    }
  }

  /** Without rules nothing is filtered and nothing raises: every event with a course is kept. */
  lemma {:induction false} NoRulesKeepsAll(e: Engine, cs: seq<Component>)
    ensures Run(e, map[], cs).Some?
    ensures Run(e, map[], cs).value.filtered == 0
    decreases |cs|
  {
    if cs != [] {
      NoRulesKeepsAll(e, cs[..|cs| - 1]);
      var c := cs[|cs| - 1];
      if c.name == "VEVENT" && CourseOf(c).Some? {
        assert RulesFor(map[], CourseOf(c).value).None?;
      }
    }
  }

  /** A kept event is appended to its course's bucket after the ones kept before it; no other bucket changes. */
  lemma KeptEventAppended(e: Engine, rules: map<string, CourseRules>, st: State, c: Component)
    requires RulesOk(rules)
    requires c.name == "VEVENT" && CourseOf(c).Some?
    requires FilterDecision(e, RulesFor(rules, CourseOf(c).value), View(c).summary, View(c)) == Keep
    ensures var course := CourseOf(c).value;
      var (s, d) := RewriteSpec(e, View(c).summary, View(c).description, course, RulesFor(rules, course));
      var r := Step(e, rules, st, c).value;
      && r.buckets[course] == (if course in st.buckets then st.buckets[course] else []) + [NewEvent(c, s, d)]
      && r.kept == st.kept + 1 && r.filtered == st.filtered
  {
  }

  /** The body of the loop for one VEVENT that has a course (lines 47-109). */
  /** `buckets.setdefault(course, [])`, then the counters and the append of lines 60-108 for the decision `d`. */
  method Settle(st: State, c: Component, course: string, d: Decision, newSummary: string, newDescription: string) returns (r: Option<State>)
    ensures r == Outcome(st, c, course, d, (newSummary, newDescription))
  {
    var buckets := st.buckets;
    if course !in buckets {
      buckets := buckets[course := []];
    }
    assert buckets == WithBucket(st.buckets, course);
    if d == Raise {
      return None;
    }
    if d == Skip {
      return Some(State(buckets, st.total + 1, st.kept, st.filtered + 1));
    }
    buckets := buckets[course := buckets[course] + [NewEvent(c, newSummary, newDescription)]];
    return Some(State(buckets, st.total + 1, st.kept + 1, st.filtered));
  }

  method ProcessEvent(e: Engine, rules: map<string, CourseRules>, st: State, c: Component, course: string) returns (r: Option<State>)
    requires RulesOk(rules)
    ensures r == EventStep(e, rules, st, c, course)
  {
    var ev := View(c);
    var cr := RulesFor(rules, course);
    var d := FilterEvent(e, cr, ev.summary, ev);
    ghost var sd := RewriteSpec(e, ev.summary, ev.description, course, cr);
    assert EventStep(e, rules, st, c, course) == Outcome(st, c, course, d, sd);
    if d != Keep {
      r := Settle(st, c, course, d, "", "");
      return;
    }
    assert cr.Some? ==> TemplatesOk(cr.value);
    // Line 104 also passes `n` and `kind`, which `rewrite_event` does not take;
    // the call is modelled with the four arguments it accepts (see `StepAsWritten`).
    var newSummary, newDescription := RewriteEvent(e, ev.summary, ev.description, course, cr);
    assert (newSummary, newDescription) == sd;
    r := Settle(st, c, course, d, newSummary, newDescription);
  }

  /** One turn of the loop (lines 30-109). */
  method ProcessComponent(e: Engine, rules: map<string, CourseRules>, st: State, c: Component) returns (r: Option<State>)
    requires RulesOk(rules)
    ensures r == Step(e, rules, st, c)
  {
    if c.name != "VEVENT" {
      return Some(st);
    }
    var ev := View(c);
    var course := DetectCourseCode(ev.summary, ev.description);
    assert course == CourseOf(c);
    if course.None? {
      assert Step(e, rules, st, c) == Some(st.(total := st.total + 1));
      return Some(st.(total := st.total + 1));
    }
    assert Step(e, rules, st, c) == EventStep(e, rules, st, c, course.value);
    r := ProcessEvent(e, rules, st, c, course.value);
  }

  lemma RunNext(e: Engine, rules: map<string, CourseRules>, cs: seq<Component>, i: nat)
    requires RulesOk(rules) && i < |cs|
    ensures Run(e, rules, cs[..i + 1]) == if Run(e, rules, cs[..i]).None? then None else Step(e, rules, Run(e, rules, cs[..i]).value, cs[i])
  {
    assert cs[..i + 1][..i] == cs[..i];
  }

  /** From the state before component `i`, one more turn gives the state after it. */
  lemma RunStep(e: Engine, rules: map<string, CourseRules>, cs: seq<Component>, i: nat, st: State)
    requires RulesOk(rules) && i < |cs|
    requires Run(e, rules, cs[..i]) == Some(st)
    ensures Run(e, rules, cs[..i + 1]) == Step(e, rules, st, cs[i])
  {
    RunNext(e, rules, cs, i);
  }

  /** Once a turn raises, the whole pass has raised. */
  lemma {:induction false} RunRaisedStays(e: Engine, rules: map<string, CourseRules>, cs: seq<Component>, i: nat)
    requires RulesOk(rules) && i <= |cs|
    requires Run(e, rules, cs[..i]).None?
    ensures Run(e, rules, cs).None?
    decreases |cs| - i
  {
    if i < |cs| {
      RunNext(e, rules, cs, i);
      RunRaisedStays(e, rules, cs, i + 1);
    } else {
      assert cs[..i] == cs;
    }
  }

  /** The pass of lines 24-109, one component at a time. */
  method SplitEvents(e: Engine, rules: map<string, CourseRules>, cs: seq<Component>) returns (r: Option<State>)
    requires RulesOk(rules)
    ensures r == Run(e, rules, cs)
  {
    var st := Initial;
    var i := 0;
    while i < |cs|
      invariant 0 <= i <= |cs|
      invariant Run(e, rules, cs[..i]) == Some(st)
    {
      var next := ProcessComponent(e, rules, st, cs[i]);
      RunStep(e, rules, cs, i, st);
      if next.None? {
        RunRaisedStays(e, rules, cs, i + 1);
        return None;
      }
      st := next.value;
      i := i + 1;
    }
    assert cs[..|cs|] == cs;
    return Some(st);
  }

  // ---------------------------------------------------------------------------
  // The call of line 104 as written

  /**
   * Line 104 passes `n` and `kind` to `rewrite_event`, which takes four
   * parameters (rewrite.py, line 121): the call raises `TypeError`, so every
   * turn that would keep an event raises instead.
   */
  function StepAsWritten(e: Engine, rules: map<string, CourseRules>, st: State, c: Component): Option<State>
    requires RulesOk(rules)
  {
    var r := Step(e, rules, st, c);
    if r.Some? && r.value.kept > st.kept then None else r
  }

  function RunAsWritten(e: Engine, rules: map<string, CourseRules>, cs: seq<Component>): Option<State>
    requires RulesOk(rules)
    decreases |cs|
  {
    if cs == [] then Some(Initial)
    else match RunAsWritten(e, rules, cs[..|cs| - 1])
      case None => None
      case Some(st) => StepAsWritten(e, rules, st, cs[|cs| - 1])
  }

  /** As written, the pass completes only when it keeps no event at all, and then agrees with the corrected pass. */
  lemma {:induction false} AsWrittenKeepsNothing(e: Engine, rules: map<string, CourseRules>, cs: seq<Component>)
    requires RulesOk(rules)
    ensures RunAsWritten(e, rules, cs) ==
      (if Run(e, rules, cs).Some? && Run(e, rules, cs).value.kept == 0 then Run(e, rules, cs) else None)
    decreases |cs|
  {
    if cs != [] {
      AsWrittenKeepsNothing(e, rules, cs[..|cs| - 1]);
    }
  }

  /** A single event that has a course and passes the filter is enough to make the pass as written raise. */
  lemma KeptEventRaisesAsWritten(e: Engine, rules: map<string, CourseRules>, c: Component)
    requires RulesOk(rules)
    requires c.name == "VEVENT" && CourseOf(c).Some?
    requires FilterDecision(e, RulesFor(rules, CourseOf(c).value), View(c).summary, View(c)) == Keep
    ensures Run(e, rules, [c]).Some? && Run(e, rules, [c]).value.kept == 1
    ensures RunAsWritten(e, rules, [c]).None?
  {
    assert [c][..0] == [];
  }

  // ---------------------------------------------------------------------------
  // Feeds in course order (lines 122-131)

  /** Python's `<=` on strings: code point by code point, a prefix first. */
  predicate LexLe(a: string, b: string)
    decreases |a|
  {
    a == [] || (b != [] && (a[0] < b[0] || (a[0] == b[0] && LexLe(a[1..], b[1..]))))
  }

  lemma {:induction false} LexLeTotal(a: string, b: string)
    ensures LexLe(a, b) || LexLe(b, a)
    decreases |a|
  {
    if a != [] && b != [] && a[0] == b[0] {
      LexLeTotal(a[1..], b[1..]);
    }
  }

  lemma {:induction false} LexLeAntisymmetric(a: string, b: string)
    requires LexLe(a, b) && LexLe(b, a)
    ensures a == b
    decreases |a|
  {
    if a != [] {
      LexLeAntisymmetric(a[1..], b[1..]);
      assert a == [a[0]] + a[1..] && b == [b[0]] + b[1..];
    }
  }

  lemma {:induction false} LexLeTransitive(a: string, b: string, c: string)
    requires LexLe(a, b) && LexLe(b, c)
    ensures LexLe(a, c)
    decreases |a|
  {
    if a != [] && a[0] == b[0] && b[0] == c[0] {
      LexLeTransitive(a[1..], b[1..], c[1..]);
    }
  }

  predicate LexLt(a: string, b: string) { LexLe(a, b) && a != b }

  /** Strictly ascending: what `sorted` gives for distinct keys. */
  predicate Ascending(s: seq<string>) {
    forall i, j :: 0 <= i < j < |s| ==> LexLt(s[i], s[j])
  }

  /** `x` put into its place in an ascending sequence that does not hold it. */
  function InsertSorted(x: string, s: seq<string>): (r: seq<string>)
    requires Ascending(s) && x !in s
    ensures Ascending(r)
    ensures forall k :: k in r <==> k == x || k in s
    ensures |r| == |s| + 1
    decreases |s|
  {
    if s == [] then [x]
    else if LexLe(x, s[0]) then
      forall j | 0 < j < |s|
        ensures LexLt(x, s[j])
      {
        LexLeTransitive(x, s[0], s[j]);
      }
      [x] + s
    else
      LexLeTotal(x, s[0]);
      assert x !in s[1..];
      var rest := InsertSorted(x, s[1..]);
      forall j | 0 <= j < |rest|
        ensures LexLt(s[0], rest[j])
      {
        if rest[j] != x {
          assert rest[j] in s[1..];
          var m :| 0 <= m < |s[1..]| && s[1..][m] == rest[j];
          assert s[m + 1] == rest[j];
        }
      }
      [s[0]] + rest
  }

  /** `sorted(buckets)`: the courses in ascending order. */
  method SortedCourses(buckets: map<string, seq<OutEvent>>) returns (courses: seq<string>)
    ensures Ascending(courses)
    ensures forall k :: k in courses <==> k in buckets
    ensures |courses| == |buckets|
  {
    courses := [];
    var left := buckets.Keys;
    while left != {}
      invariant Ascending(courses)
      invariant forall k :: k in courses ==> k !in left
      invariant forall k :: k in buckets <==> k in courses || k in left
      invariant |courses| + |left| == |buckets|
      decreases |left|
    {
      var x :| x in left;
      courses := InsertSorted(x, courses);
      left := left - {x};
    }
  }

  /** `f"{course}--{tok}.ics"`. */
  function FeedName(course: string, tok: string): string {
    course + "--" + tok + ".ics"
  }

  /** How many of `names` are written: the ones whose write does not fail. */
  function Written(names: seq<string>, failing: set<string>): (n: nat)
    ensures n <= |names|
    decreases |names|
  {
    if names == [] then 0
    else Written(names[..|names| - 1], failing) + (if names[|names| - 1] in failing then 0 else 1)
  }

  predicate Distinct(s: seq<string>) {
    forall i, j :: 0 <= i < j < |s| ==> s[i] != s[j]
  }

  /**
   * The token map `t` after ensuring tokens for the courses `done`, starting
   * from `t0`: its keys are the old ones and `done`, and an entry keeps its old
   * value when it already held a token or its course was not asked for.
   */
  ghost predicate TokensAfter(t0: map<string, string>, t: map<string, string>, done: seq<string>) {
    && (forall c :: c in t <==> c in t0 || c in done)
    && (forall c :: c in t0 && (HasToken(t0, c) || c !in done) ==> t[c] == t0[c])
  }

  /** Ensuring the token of one more course, distinct from those before it, keeps `TokensAfter` and the earlier tokens. */
  lemma EnsureTokensStep(t0: map<string, string>, t: map<string, string>, courses: seq<string>, i: nat, uuidHex: string)
    requires Distinct(courses) && i < |courses| && IsUuidHex(uuidHex)
    requires TokensAfter(t0, t, courses[..i])
    ensures var t' := EnsureTokenSpec(t, courses[i], uuidHex).0;
      && TokensAfter(t0, t', courses[..i + 1])
      && HasToken(t', courses[i])
      && forall j :: 0 <= j < i ==> t'[courses[j]] == t[courses[j]]
  {
    var t' := EnsureTokenSpec(t, courses[i], uuidHex).0;
    assert courses[..i + 1] == courses[..i] + [courses[i]];
    forall c | c in t0 && (HasToken(t0, c) || c !in courses[..i + 1])
      ensures t'[c] == t0[c]
    {
      if c == courses[i] {
        assert HasToken(t0, c) && c !in courses[..i];
      }
    }
  }

  /** Each course of `done` that had no token in `t0` holds, in `t`, the first 16 characters of its own UUID. */
  ghost predicate FreshTokens(t0: map<string, string>, t: map<string, string>, done: seq<string>, uuids: seq<string>) {
    forall j :: 0 <= j < |done| && j < |uuids| && 16 <= |uuids[j]| && done[j] in t && !HasToken(t0, done[j]) ==>
      t[done[j]] == uuids[j][..16]
  }

  /** Ensuring the token of one more course stores its UUID's prefix when it had no token, and keeps the earlier ones. */
  lemma FreshTokensStep(t0: map<string, string>, t: map<string, string>, courses: seq<string>, uuids: seq<string>, i: nat)
    requires Distinct(courses) && i < |courses| && |uuids| == |courses| && IsUuidHex(uuids[i])
    requires TokensAfter(t0, t, courses[..i]) && FreshTokens(t0, t, courses[..i], uuids)
    ensures FreshTokens(t0, EnsureTokenSpec(t, courses[i], uuids[i]).0, courses[..i + 1], uuids)
  {
    var c := courses[i];
    var t' := EnsureTokenSpec(t, c, uuids[i]).0;
    assert c !in courses[..i];
    if !HasToken(t0, c) {
      assert !HasToken(t, c);
    }
    forall j | 0 <= j < i + 1 && 16 <= |uuids[j]| && courses[..i + 1][j] in t' && !HasToken(t0, courses[..i + 1][j])
      ensures t'[courses[..i + 1][j]] == uuids[j][..16]
    {
      if j < i {
        assert courses[..i + 1][j] == courses[..i][j] == courses[j];
        assert courses[j] != c;
      }
    }
  }

  /**
   * The loop of lines 122-131 over distinct courses: a token for each, the
   * feed name built from it, and the count of successful writes. `uuids[i]`
   * is the UUID drawn if the i-th course needs a new token; `failing` are the
   * names whose write raises.
   */
  method EnsureTokens(tokens: TokenMap, courses: seq<string>, uuids: seq<string>, failing: set<string>)
    returns (names: seq<string>, written: nat)
    requires Distinct(courses)
    requires |uuids| == |courses| && forall k :: 0 <= k < |uuids| ==> IsUuidHex(uuids[k])
    modifies tokens
    ensures |names| == |courses| && written == Written(names, failing)
    ensures forall i :: 0 <= i < |courses| ==>
      HasToken(tokens.tokens, courses[i]) && names[i] == FeedName(courses[i], tokens.tokens[courses[i]])
    ensures forall c :: c in tokens.tokens <==> c in old(tokens.tokens) || c in courses
    ensures forall c :: c in old(tokens.tokens) && (HasToken(old(tokens.tokens), c) || c !in courses) ==>
      tokens.tokens[c] == old(tokens.tokens)[c]
    ensures forall i :: 0 <= i < |courses| && !HasToken(old(tokens.tokens), courses[i]) ==>
      IsUuidHex(uuids[i]) && tokens.tokens[courses[i]] == uuids[i][..16]
  {
    ghost var t0 := tokens.tokens;
    names := [];
    written := 0;
    var i := 0;
    while i < |courses|
      invariant 0 <= i <= |courses|
      invariant |names| == i && written == Written(names, failing)
      invariant TokensAfter(t0, tokens.tokens, courses[..i])
      invariant FreshTokens(t0, tokens.tokens, courses[..i], uuids)
      invariant forall j :: 0 <= j < i ==>
        HasToken(tokens.tokens, courses[j]) && names[j] == FeedName(courses[j], tokens.tokens[courses[j]])
    {
      ghost var before := tokens.tokens;
      EnsureTokensStep(t0, before, courses, i, uuids[i]);
      FreshTokensStep(t0, before, courses, uuids, i);
      var tok := tokens.EnsureToken(courses[i], uuids[i]);
      var name := FeedName(courses[i], tok);
      assert (names + [name])[..|names|] == names;
      names := names + [name];
      if name !in failing {
        written := written + 1;
      }
      i := i + 1;
    }
    assert courses[..|courses|] == courses;
  }

  /** Lines 122-131: the courses in ascending order, each with its token and feed name. */
  method WriteFeeds(tokens: TokenMap, buckets: map<string, seq<OutEvent>>, uuids: seq<string>, failing: set<string>)
    returns (courses: seq<string>, names: seq<string>, written: nat)
    requires |uuids| == |buckets| && forall k :: 0 <= k < |uuids| ==> IsUuidHex(uuids[k])
    modifies tokens
    ensures Ascending(courses) && (forall c :: c in courses <==> c in buckets) && |courses| == |buckets|
    ensures |names| == |courses| && written == Written(names, failing)
    ensures forall i :: 0 <= i < |courses| ==>
      HasToken(tokens.tokens, courses[i]) && names[i] == FeedName(courses[i], tokens.tokens[courses[i]])
    ensures forall c :: c in tokens.tokens <==> c in old(tokens.tokens) || c in buckets
    ensures forall c :: c in old(tokens.tokens) && (HasToken(old(tokens.tokens), c) || c !in buckets) ==>
      tokens.tokens[c] == old(tokens.tokens)[c]
    ensures forall i :: 0 <= i < |courses| && !HasToken(old(tokens.tokens), courses[i]) ==>
      IsUuidHex(uuids[i]) && tokens.tokens[courses[i]] == uuids[i][..16]
  {
    courses := SortedCourses(buckets);
    names, written := EnsureTokens(tokens, courses, uuids, failing);
  }
}
