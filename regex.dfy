/**
 * The regular-expression engine for patterns that come from the rule documents
 * (event-type patterns, `summary_regex`, `description` and `url` strategies).
 * Its behaviour is not modelled: it is a parameter, so every property of the
 * model holds for any engine. Patterns are compiled case-insensitively by every
 * caller; `search` stands for `re.compile(p, re.IGNORECASE).search(text)`.
 */
module Regex {
  import opened Wrappers

  datatype Engine = Engine(
    /** `re.compile(p)` succeeds. */
    valid: string -> bool,
    /** The first match of `p` in `text`, given by the texts of its capture groups (group 1 first). */
    search: (string, string) -> Option<seq<string>>)

  /** `re.compile(pattern)` succeeds. */
  predicate ValidRegex(e: Engine, pattern: string) {
    e.valid(pattern)
  }

  /** `pattern` has a match somewhere in `text`. */
  predicate Search(e: Engine, pattern: string, text: string) {
    e.search(pattern, text).Some?
  }
}
