/**
 * `ensure_token` of tokens.py (and its copy in split-ics.py): the secret token
 * of each course's feed, kept in a map from course to token that the caller
 * owns and that is updated in place. A course without a token, or with an
 * empty one, gets the first 16 characters of a fresh random UUID's hex form;
 * the UUID is a parameter here.
 */
module Tokens {
  /** A character of Python's `uuid.hex`: a digit or a lower-case `a`-`f`. */
  predicate IsLowerHex(c: char) { '0' <= c <= '9' || 'a' <= c <= 'f' }

  predicate AllLowerHex(s: string) { forall i :: 0 <= i < |s| ==> IsLowerHex(s[i]) }

  /** `uuid4().hex`: 32 lower-case hex characters. */
  predicate IsUuidHex(h: string) { |h| == 32 && AllLowerHex(h) }

  /** A feed token: 16 lower-case hex characters (64 bits). */
  predicate IsToken(t: string) { |t| == 16 && AllLowerHex(t) }

  /** `course in token_map and token_map[course]`. */
  predicate HasToken(m: map<string, string>, course: string) { course in m && m[course] != "" }

  /** The map after `ensure_token(m, course)` and the token it returns. */
  function EnsureTokenSpec(m: map<string, string>, course: string, uuidHex: string): (r: (map<string, string>, string))
    requires IsUuidHex(uuidHex)
    ensures r.0.Keys == m.Keys + {course}
    ensures course in r.0 && r.0[course] == r.1 && r.1 != ""
    ensures forall c :: c in m && c != course ==> r.0[c] == m[c]
    ensures HasToken(m, course) ==> r.0 == m && r.1 == m[course]
    ensures !HasToken(m, course) ==> r.1 == uuidHex[..16] && IsToken(r.1)
  {
    if HasToken(m, course) then (m, m[course])
    else
      var tok := uuidHex[..16];
      (m[course := tok], tok)
  }

  /**
   * Asking twice for the same course gives the same token, and the second call
   * leaves the map as the first one left it, whatever UUIDs are drawn.
   */
  lemma EnsureTokenIdempotent(m: map<string, string>, course: string, h1: string, h2: string)
    requires IsUuidHex(h1) && IsUuidHex(h2)
    ensures var first := EnsureTokenSpec(m, course, h1);
      EnsureTokenSpec(first.0, course, h2) == first
  {
  }

  /** Entries of other courses are never touched, so the keys grow by at most one. */
  lemma EnsureTokenFrame(m: map<string, string>, course: string, h: string)
    requires IsUuidHex(h)
    ensures |EnsureTokenSpec(m, course, h).0.Keys| <= |m.Keys| + 1
    ensures forall c :: c != course ==> (c in EnsureTokenSpec(m, course, h).0 <==> c in m)
  {
    var r := EnsureTokenSpec(m, course, h).0;
    if course in m {
      assert r.Keys == m.Keys;
    } else {
      assert r.Keys == m.Keys + {course};
    }
  }

  /** The caller's token map, updated in place. */
  class TokenMap {
    var tokens: map<string, string>

    constructor (initial: map<string, string>)
      ensures tokens == initial
    {
      tokens := initial;
    }

    /** `ensure_token(token_map, course)`, drawing `uuidHex` when a new token is needed. */
    method EnsureToken(course: string, uuidHex: string) returns (tok: string)
      requires IsUuidHex(uuidHex)
      modifies this
      ensures (tokens, tok) == EnsureTokenSpec(old(tokens), course, uuidHex)
    {
      if course in tokens && tokens[course] != "" {
        return tokens[course];
      }
      var newTok := uuidHex[..16];
      tokens := tokens[course := newTok];
      return newTok;
    }
  }
}
