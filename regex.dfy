/**
 * The fragment of Python's `re` that the Twitter helpers use: a single
 * character class such as `[A-Za-z_]` under a greedy quantifier `{min,max}`
 * (`+` is `{1,}`), matched with `re.match` (anchored at the start) or with
 * `Pattern.fullmatch` (anchored at both ends).
 */
module Regex {
  import opened Wrappers

  /** A range `lo-hi` inside a character class; a single character is `Range(c, c)`. */
  datatype Range = Range(lo: char, hi: char)

  /** A character class repeated between `min` and `max` times; `max == None` is unbounded. */
  datatype Pattern = Repeat(cls: seq<Range>, min: nat, max: Option<nat>)

  predicate InClass(c: char, cls: seq<Range>) {
    exists i :: 0 <= i < |cls| && cls[i].lo <= c <= cls[i].hi
  }

  predicate WithinLimit(n: nat, limit: Option<nat>) {
    limit.None? || n <= limit.value
  }

  /**
   * The greedy run: the longest prefix of `s`, at most `limit` long, made only
   * of characters in the class.
   */
  function Run(cls: seq<Range>, s: string, limit: Option<nat>): (n: nat)
    ensures n <= |s| && WithinLimit(n, limit)
    ensures forall i :: 0 <= i < n ==> InClass(s[i], cls)
    ensures n < |s| && (limit.None? || n < limit.value) ==> !InClass(s[n], cls)
    decreases |s|
  {
    if s == [] || limit == Some(0) || !InClass(s[0], cls) then 0
    else 1 + Run(cls, s[1..], if limit.None? then None else Some(limit.value - 1))
  }

  /**
   * `re.match(p, s)`: the length of the match at the start of `s`, or `None`.
   * With a single repeated class, backtracking only shortens the greedy run,
   * so the match exists exactly when the greedy run reaches `min`.
   */
  function Match(p: Pattern, s: string): Option<nat> {
    var n := Run(p.cls, s, p.max);
    if n >= p.min then Some(n) else None
  }

  /** `p.fullmatch(s)`: a match that also ends at the end of `s`. */
  predicate FullMatch(p: Pattern, s: string) {
    Match(p, s) == Some(|s|)
  }

  /** `re.match` succeeds exactly when the first `min` characters are in the class. */
  lemma MatchIff(p: Pattern, s: string)
    requires WithinLimit(p.min, p.max)
    ensures Match(p, s).Some? <==> p.min <= |s| && forall i :: 0 <= i < p.min ==> InClass(s[i], p.cls)
  {
  }

  /** Full match: the length is within `{min,max}` and every character is in the class. */
  lemma FullMatchIff(p: Pattern, s: string)
    ensures FullMatch(p, s) <==>
              p.min <= |s| && WithinLimit(|s|, p.max) && forall i :: 0 <= i < |s| ==> InClass(s[i], p.cls)
  {
  }
}
