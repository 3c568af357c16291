/**
 * `_redact` of log_sanitize.py (and `redact_text` of split-ics.py, which uses
 * the same three patterns): the masking applied to every log line. Three
 * global substitutions run in order:
 *   1. `(\?.*)$` by nothing: a query string that runs to the end of the text;
 *   2. `(/feeds/[A-Z0-9\-_.]+)--([0-9a-fA-F]{8,})\.ics\b` by `\1--***.ics`;
 *   3. a whole-word run of 16 or more hex digits, or a version 1-5 UUID, by `***`.
 * Each pattern is an explicit scanner; a substitution replaces the leftmost
 * match and goes on after its end, as `re.sub` does.
 */
module LogSanitize {
  import opened Wrappers
  import opened Text
  import opened Patterns

  /** The largest `j` in `[lo, hi]` where `p` holds: the first choice of a greedy repetition that backtracks. */
  function LastIn(lo: nat, hi: nat, p: nat -> bool): (r: Option<nat>)
    decreases hi
    ensures r.Some? ==> lo <= r.value <= hi && p(r.value)
    ensures r.Some? ==> forall k :: r.value < k <= hi ==> !p(k)
    ensures r.None? ==> forall k :: lo <= k <= hi ==> !p(k)
  {
    if hi < lo then None
    else if p(hi) then Some(hi)
    else if hi == 0 then None
    else LastIn(lo, hi - 1, p)
  }

  predicate NoChar(s: string, c: char) { forall k :: 0 <= k < |s| ==> s[k] != c }

  // ---------------------------------------------------------------------------
  // 1. Query strings: `(\?.*)$`

  predicate NotNewline(c: char) { c != '\n' }

  /**
   * A `?` at `i` whose `.*` reaches the end of the text, or the newline that
   * ends it: without MULTILINE, `$` matches only there.
   */
  predicate QueryAt(s: string, i: nat) {
    i < |s| && s[i] == '?' &&
    var j := RunEnd(s, i + 1, NotNewline);
    j == |s| || (j == |s| - 1 && s[j] == '\n')
  }

  function QueryStarts(s: string): nat -> bool {
    (k: nat) => QueryAt(s, k)
  }

  /** `RE_QS.sub("", s)`. Past the one possible match only a final newline is left, so there is no second one. */
  function StripQuery(s: string): (r: string)
    ensures (forall k :: 0 <= k < |s| ==> !QueryAt(s, k)) ==> r == s
  {
    match FirstFrom(|s|, QueryStarts(s), 0)
    case None => s
    case Some(i) => s[..i] + s[RunEnd(s, i + 1, NotNewline)..]
  }

  /** Text without a `?` passes the first pass untouched. */
  lemma QueryFreeUnchanged(s: string)
    requires NoChar(s, '?')
    ensures StripQuery(s) == s
  {
    forall k | 0 <= k < |s|
      ensures !QueryAt(s, k)
    {
    }
  }

  /** On a single line, everything from the first `?` on is removed, so no `?` is left. */
  lemma SingleLineQueryRemoved(s: string, i: nat)
    requires NoChar(s, '\n')
    requires i < |s| && s[i] == '?' && NoChar(s[..i], '?')
    ensures StripQuery(s) == s[..i]
    ensures NoChar(StripQuery(s), '?')
  {
    assert QueryAt(s, i);
    forall k | 0 <= k < i
      ensures !QueryAt(s, k)
    {
      assert s[..i][k] == s[k];
    }
    FirstFromIs(|s|, QueryStarts(s), 0, i);
    assert s[..i] + s[|s|..] == s[..i];
    forall k | 0 <= k < i
      ensures s[..i][k] != '?'
    {
      assert s[..i][k] == s[k];
    }
  }

  /** A single line without `?` keeps none; with one, the first pass cuts it off. */
  lemma SingleLineNoQuery(s: string)
    requires NoChar(s, '\n')
    ensures NoChar(StripQuery(s), '?')
  {
    var p := (k: nat) => k < |s| && s[k] == '?';
    assert forall k: nat :: p(k) == (k < |s| && s[k] == '?');
    match FirstFrom(|s|, p, 0)
    case None =>
      QueryFreeUnchanged(s);
    case Some(i) =>
      forall k | 0 <= k < i
        ensures s[..i][k] != '?'
      {
        assert s[..i][k] == s[k];
      }
      SingleLineQueryRemoved(s, i);
  }

  // ---------------------------------------------------------------------------
  // 2. Feed paths: `(/feeds/[A-Z0-9\-_.]+)--([0-9a-fA-F]{8,})\.ics\b`

  const FeedsOpen: string := "/feeds/"

  predicate IsFeedNameChar(c: char) { IsUpper(c) || IsDigit(c) || c == '-' || c == '_' || c == '.' }

  /** `--`, at least eight hex digits, `.ics` and a word boundary, from `e`. */
  predicate FeedTailAt(s: string, e: nat) {
    e + 2 <= |s| && s[e] == '-' && s[e + 1] == '-' &&
    var h := RunEnd(s, e + 2, IsHexDigit);
    e + 10 <= h && OccursAt(".ics", s, h) && WordBoundary(s, h + 4)
  }

  function FeedTails(s: string): nat -> bool {
    (e: nat) => FeedTailAt(s, e)
  }

  /** Where the feed name ends for a match at `i`: the longest name the tail can follow. */
  function FeedNameEnd(s: string, i: nat): (r: Option<nat>)
    requires OccursAt(FeedsOpen, s, i)
    ensures r.Some? ==> i + |FeedsOpen| < r.value <= RunEnd(s, i + |FeedsOpen|, IsFeedNameChar) && FeedTailAt(s, r.value)
  {
    LastIn(i + |FeedsOpen| + 1, RunEnd(s, i + |FeedsOpen|, IsFeedNameChar), FeedTails(s))
  }

  predicate FeedAt(s: string, i: nat) {
    OccursAt(FeedsOpen, s, i) && FeedNameEnd(s, i).Some?
  }

  function FeedStarts(s: string): nat -> bool {
    (k: nat) => FeedAt(s, k)
  }

  /** The end of the `.ics` that closes a feed match. */
  function FeedMatchEnd(s: string, i: nat): (end: nat)
    requires FeedAt(s, i)
    ensures FeedNameEnd(s, i).value + 14 <= end <= |s|
  {
    RunEnd(s, FeedNameEnd(s, i).value + 2, IsHexDigit) + 4
  }

  /** `RE_FEED.sub(r"\1--***.ics", s[i..])` for a scan that starts at `i`. */
  function FeedSubFrom(s: string, i: nat): (r: string)
    requires i <= |s|
    decreases |s| - i
    ensures (forall k :: i <= k < |s| ==> !FeedAt(s, k)) ==> r == s[i..]
  {
    match FirstFrom(|s|, FeedStarts(s), i)
    case None => s[i..]
    case Some(k) => s[i..FeedNameEnd(s, k).value] + "--***.ics" + FeedSubFrom(s, FeedMatchEnd(s, k))
  }

  function RedactFeeds(s: string): string {
    FeedSubFrom(s, 0)
  }

  /**
   * The leftmost feed path keeps its `/feeds/NAME` part and loses its hex
   * token, which becomes `***`; the scan goes on after the `.ics`.
   */
  lemma FeedTokenMasked(s: string, i: nat, k: nat)
    requires i <= k && FeedAt(s, k)
    requires forall j :: i <= j < k ==> !FeedAt(s, j)
    ensures var e := FeedNameEnd(s, k).value;
      && FeedSubFrom(s, i) == s[i..k] + FeedsOpen + s[k + |FeedsOpen|..e] + "--***.ics" + FeedSubFrom(s, FeedMatchEnd(s, k))
      && (forall j :: k + |FeedsOpen| <= j < e ==> IsFeedNameChar(s[j]))
      && (forall j :: e + 2 <= j < FeedMatchEnd(s, k) - 4 ==> IsHexDigit(s[j]))
      && FeedMatchEnd(s, k) - 4 - (e + 2) >= 8
  {
    FirstFromIs(|s|, FeedStarts(s), i, k);
    FeedSubStep(s, i, k);
    var e := FeedNameEnd(s, k).value;
    var m := k + |FeedsOpen|;
    SliceSplit3(s, i, k, m, e);
    assert s[k..m] == FeedsOpen;
  }

  lemma SliceSplit3(s: string, i: nat, k: nat, m: nat, e: nat)
    requires i <= k <= m <= e <= |s|
    ensures s[i..e] == s[i..k] + s[k..m] + s[m..e]
  {
  }

  // ---------------------------------------------------------------------------
  // 3. Identifiers: `\b[0-9a-fA-F]{16,}\b` or a version 1-5 UUID

  /** `n` hex digits from `i`. */
  predicate HexBlock(s: string, i: nat, n: nat) {
    i + n <= |s| && forall k :: i <= k < i + n ==> IsHexDigit(s[k])
  }

  /** The first alternative: a whole word of at least 16 hex digits (the run is maximal, so only its end can be a boundary). */
  predicate LongHexAt(s: string, i: nat) {
    WordBoundary(s, i) &&
    var h := RunEnd(s, i, IsHexDigit);
    i + 16 <= h && WordBoundary(s, h)
  }

  /** The second alternative: `8-4-[1-5]3-[089abAB]3-12` hex digits, then a word boundary. */
  predicate UuidAt(s: string, i: nat) {
    i + 36 <= |s|
    && HexBlock(s, i, 8) && s[i + 8] == '-'
    && HexBlock(s, i + 9, 4) && s[i + 13] == '-'
    && '1' <= s[i + 14] <= '5' && HexBlock(s, i + 15, 3) && s[i + 18] == '-'
    && s[i + 19] in "089abAB" && HexBlock(s, i + 20, 3) && s[i + 23] == '-'
    && HexBlock(s, i + 24, 12) && WordBoundary(s, i + 36)
  }

  predicate IdAt(s: string, i: nat) { LongHexAt(s, i) || UuidAt(s, i) }

  function IdStarts(s: string): nat -> bool {
    (k: nat) => IdAt(s, k)
  }

  /** Where the match at `i` ends; the first alternative is preferred. */
  function IdMatchEnd(s: string, i: nat): (end: nat)
    requires IdAt(s, i)
    ensures i < end <= |s|
  {
    if LongHexAt(s, i) then RunEnd(s, i, IsHexDigit) else i + 36
  }

  /** `RE_UUID.sub("***", s[i..])` for a scan that starts at `i`. */
  function IdSubFrom(s: string, i: nat): (r: string)
    requires i <= |s|
    decreases |s| - i
    ensures (forall k :: i <= k < |s| ==> !IdAt(s, k)) ==> r == s[i..]
  {
    match FirstFrom(|s|, IdStarts(s), i)
    case None => s[i..]
    case Some(k) => s[i..k] + "***" + IdSubFrom(s, IdMatchEnd(s, k))
  }

  function RedactIds(s: string): string {
    IdSubFrom(s, 0)
  }

  /** The leftmost identifier is replaced by `***` as a whole; the scan goes on after it. */
  lemma IdMasked(s: string, i: nat, k: nat)
    requires i <= k && IdAt(s, k)
    requires forall j :: i <= j < k ==> !IdAt(s, j)
    ensures IdSubFrom(s, i) == s[i..k] + "***" + IdSubFrom(s, IdMatchEnd(s, k))
    ensures LongHexAt(s, k) ==> IdMatchEnd(s, k) - k >= 16 && HexBlock(s, k, IdMatchEnd(s, k) - k)
    ensures !LongHexAt(s, k) ==> IdMatchEnd(s, k) == k + 36
  {
    FirstFromIs(|s|, IdStarts(s), i, k);
  }

  // ---------------------------------------------------------------------------
  // The three passes

  /** `_redact(s)` and `redact_text(s)`: a single-line message comes out without any `?`, so without any query string. */
  function Redact(s: string): (r: string)
    ensures NoChar(s, '\n') ==> NoChar(r, '?')
  {
    if NoChar(s, '\n') then
      SingleLineNoQuery(s);
      FeedSubKeepsNoQuery(StripQuery(s), 0);
      IdSubKeepsNoQuery(RedactFeeds(StripQuery(s)), 0);
      RedactIds(RedactFeeds(StripQuery(s)))
    else
      RedactIds(RedactFeeds(StripQuery(s)))
  }

  /** Every match of the last two passes starts with a run of eight hex digits. */
  predicate NoHexRun(s: string) { forall k :: 0 <= k < |s| ==> !HexBlock(s, k, 8) }

  /** A feed match holds at least eight hex digits in a row. */
  lemma FeedHasHexRun(s: string, k: nat)
    ensures FeedAt(s, k) ==> exists j :: 0 <= j < |s| && HexBlock(s, j, 8)
  {
    if FeedAt(s, k) {
      var e := FeedNameEnd(s, k).value;
      assert HexBlock(s, e + 2, 8);
    }
  }

  /** An identifier match starts with at least eight hex digits. */
  lemma IdHasHexRun(s: string, k: nat)
    ensures IdAt(s, k) ==> HexBlock(s, k, 8)
  {
  }

  lemma NoHexRunNoMatch(s: string)
    requires NoHexRun(s)
    ensures forall k :: 0 <= k < |s| ==> !FeedAt(s, k) && !IdAt(s, k)
  {
    forall k | 0 <= k < |s|
      ensures !FeedAt(s, k) && !IdAt(s, k)
    {
      FeedHasHexRun(s, k);
      IdHasHexRun(s, k);
    }
  }

  /** Text without a `?` and without eight hex digits in a row is logged as it is. */
  lemma NothingSecretUnchanged(s: string)
    requires NoChar(s, '?') && NoHexRun(s)
    ensures Redact(s) == s
  {
    QueryFreeUnchanged(s);
    NoHexRunNoMatch(s);
  }

  lemma NoCharConcat(a: string, b: string, c: char)
    ensures NoChar(a + b, c) <==> NoChar(a, c) && NoChar(b, c)
  {
    if NoChar(a, c) && NoChar(b, c) {
      forall j | 0 <= j < |a + b|
        ensures (a + b)[j] != c
      {
        if j >= |a| {
          assert (a + b)[j] == b[j - |a|];
        }
      }
    }
    if NoChar(a + b, c) {
      forall j | 0 <= j < |a|
        ensures a[j] != c
      {
        assert (a + b)[j] == a[j];
      }
      forall j | 0 <= j < |b|
        ensures b[j] != c
      {
        assert (a + b)[|a| + j] == b[j];
      }
    }
  }

  lemma NoCharSlice(s: string, i: nat, j: nat, c: char)
    requires i <= j <= |s| && NoChar(s, c)
    ensures NoChar(s[i..j], c)
  {
    forall k | 0 <= k < j - i
      ensures s[i..j][k] != c
    {
      assert s[i..j][k] == s[i + k];
    }
  }

  /** The feed pass adds no `?`: it keeps text and inserts `--***.ics`. */
  lemma {:induction false} FeedSubKeepsNoQuery(s: string, i: nat)
    requires i <= |s| && NoChar(s, '?')
    ensures NoChar(FeedSubFrom(s, i), '?')
    decreases |s| - i
  {
    match FirstFrom(|s|, FeedStarts(s), i)
    case None =>
      NoCharSlice(s, i, |s|, '?');
    case Some(k) =>
      var e := FeedNameEnd(s, k).value;
      var end := FeedMatchEnd(s, k);
      FeedSubStep(s, i, k);
      FeedSubKeepsNoQuery(s, end);
      NoCharSlice(s, i, e, '?');
      MaskHasNoQuery();
      NoCharConcat(s[i..e], "--***.ics", '?');
      NoCharConcat(s[i..e] + "--***.ics", FeedSubFrom(s, end), '?');
  }

  lemma MaskHasNoQuery()
    ensures NoChar("--***.ics", '?') && NoChar("***", '?')
  {
  }

  /** One step of the feed scan: the text before the match's tail, the mask, then the scan after the `.ics`. */
  lemma FeedSubStep(s: string, i: nat, k: nat)
    requires i <= |s| && FirstFrom(|s|, FeedStarts(s), i) == Some(k)
    ensures FeedAt(s, k)
    ensures FeedSubFrom(s, i) == s[i..FeedNameEnd(s, k).value] + "--***.ics" + FeedSubFrom(s, FeedMatchEnd(s, k))
  {
  }

  /** The identifier pass adds no `?`: it keeps text and inserts `***`. */
  lemma {:induction false} IdSubKeepsNoQuery(s: string, i: nat)
    requires i <= |s| && NoChar(s, '?')
    ensures NoChar(IdSubFrom(s, i), '?')
    decreases |s| - i
  {
    match FirstFrom(|s|, IdStarts(s), i)
    case None =>
      NoCharSlice(s, i, |s|, '?');
    case Some(k) =>
      var end := IdMatchEnd(s, k);
      IdSubKeepsNoQuery(s, end);
      NoCharSlice(s, i, k, '?');
      MaskHasNoQuery();
      NoCharConcat(s[i..k], "***", '?');
      NoCharConcat(s[i..k] + "***", IdSubFrom(s, end), '?');
  }

  /**
   * On a single line, nothing from the first `?` on reaches the output: a
   * query string and whatever follows it on the line (a UUID, say) are gone
   * before the other two passes run.
   */
  lemma QueryTailIgnored(p: string, t: string)
    requires NoChar(p, '?') && NoChar(p + "?" + t, '\n')
    ensures Redact(p + "?" + t) == Redact(p)
  {
    var s := p + "?" + t;
    assert s[|p|] == '?' && s[..|p|] == p;
    SingleLineQueryRemoved(s, |p|);
    QueryFreeUnchanged(p);
  }
}
