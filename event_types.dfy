/**
 * The configurable event-type records that the matching and rewriting code
 * reads from a course's rules: event types with their summary patterns and
 * items, and the match strategies attached to an item. They are input data to
 * this model; the loader that would build them from a rule document is not
 * part of it.
 */
module EventTypes {
  import opened Wrappers
  import Text

  /** The priority a strategy gets when its document gives none. */
  const DefaultPriority: int := 99

  /** The `day` of a timeslot: a weekday name, or a weekday number (0 is Monday). */
  datatype Day = DayName(name: string) | DayIndex(index: int)

  datatype Timeslot =
    /** The older free-text form (`"timeslot": "Mon 10-12"`); it can never be matched. */
    | TimeslotText(text: string)
    /** The object form; each key may be absent. Times are `"HH:MM"` or `"HHMM"`. */
    | TimeslotFields(day: Option<Day>, startTime: Option<string>, endTime: Option<string>)

  /** A strategy's kind together with the data that kind reads. */
  datatype Strategy =
    | Time(timeslot: Timeslot)
    /** Regex searched in `summary + " " + description`; a missing pattern is `""`. */
    | Description(pattern: string)
    /** Case-insensitive substring of the event's location; a missing location is `""`. */
    | Location(location: string)
    /** Regex searched in the description only. */
    | Url(pattern: string)
    | All(strategies: seq<MatchStrategy>)
    | Any(strategies: seq<MatchStrategy>)
    /** A strategy name the engine does not know. */
    | Unknown(name: string)

  datatype MatchStrategy = MatchStrategy(strategy: Strategy, priority: int)

  /** A strategy as read from a document: the priority defaults to 99. */
  function NewStrategy(s: Strategy, priority: Option<int>): (m: MatchStrategy)
    ensures m.strategy == s
    ensures priority.None? ==> m.priority == DefaultPriority
  {
    MatchStrategy(s, match priority case Some(p) => p case None => DefaultPriority)
  }

  /** One configured occurrence: its number, its other fields (`title`, `module`, ...) and its strategies. */
  datatype EventItem = EventItem(number: Option<int>, metadata: map<string, string>, strategies: seq<MatchStrategy>)

  /** `item.get(key)`: a missing field reads as `""`. */
  function ItemGet(item: EventItem, key: string): string {
    if key in item.metadata then item.metadata[key] else ""
  }

  /** An entry of an event type's `items` dict: numbered items under their number, unnumbered ones under `None`. */
  datatype ItemSlot = ItemSlot(key: Option<int>, item: EventItem)

  /**
   * A configurable event type. `items` lists the entries of the source's dict
   * in insertion order; a dict holds each key once, so lookups take the first
   * entry with a key.
   */
  datatype EventType = EventType(
    kind: string,
    displayName: string,
    patterns: seq<string>,
    unnumbered: bool,
    items: seq<ItemSlot>)

  /** The display name a type gets when its document gives none: the capitalised type. */
  function DisplayNameOr(kind: string, displayName: Option<string>): (d: string)
    ensures displayName.None? ==> d == Text.Capitalize(kind)
    ensures displayName.Some? ==> d == displayName.value
  {
    match displayName case Some(n) => n case None => Text.Capitalize(kind)
  }

  /** Slot `k` is the first one with `key`. */
  predicate FirstWithKey(items: seq<ItemSlot>, key: Option<int>, k: int) {
    0 <= k < |items| && items[k].key == key && forall j :: 0 <= j < k ==> items[j].key != key
  }

  /**
   * `items.get(key)`. A dict holds each key once, so the slots are expected
   * to carry distinct keys; should two share one, the first is found.
   */
  function LookupItem(items: seq<ItemSlot>, key: Option<int>): (r: Option<EventItem>)
    ensures r.Some? <==> exists k :: 0 <= k < |items| && items[k].key == key
    ensures r.Some? ==> exists k :: FirstWithKey(items, key, k) && items[k].item == r.value
    decreases |items|
  {
    if items == [] then None
    else if items[0].key == key then
      assert FirstWithKey(items, key, 0);
      Some(items[0].item)
    else
      var r := LookupItem(items[1..], key);
      assert forall k :: 1 <= k < |items| ==> items[k] == items[1..][k - 1];
      if r.Some? then
        var k :| FirstWithKey(items[1..], key, k) && items[1..][k].item == r.value;
        assert FirstWithKey(items, key, k + 1);
        r
      else r
  }

  /** Type `k` is the first one of `kind`. */
  predicate FirstOfKind(types: seq<EventType>, kind: string, k: int) {
    0 <= k < |types| && types[k].kind == kind && forall j :: 0 <= j < k ==> types[j].kind != kind
  }

  /** The first event type whose `type` is `kind` (the `for et in event_types: if et.type == kind: break` search). */
  function FindType(types: seq<EventType>, kind: string): (r: Option<EventType>)
    ensures r.Some? ==> exists k :: FirstOfKind(types, kind, k) && types[k] == r.value
    ensures r.None? <==> forall k :: 0 <= k < |types| ==> types[k].kind != kind
    decreases |types|
  {
    if types == [] then None
    else if types[0].kind == kind then
      assert FirstOfKind(types, kind, 0);
      Some(types[0])
    else
      var r := FindType(types[1..], kind);
      assert forall k :: 1 <= k < |types| ==> types[k] == types[1..][k - 1];
      if r.Some? then
        var k :| FirstOfKind(types[1..], kind, k) && types[1..][k] == r.value;
        assert FirstOfKind(types, kind, k + 1);
        r
      else r
  }
}
