/**
 * The two string validators of minet's Twitter command-line helpers, defined
 * through the regular expressions the source compiles (`CHARACTERS`,
 * `NUMBERS`, `TWITTER_SCREEN_NAME`), with lemmas that say, character by
 * character, which strings each one flags.
 */
module TwitterValidators {
  import opened Wrappers
  import opened PyValues
  import opened Regex

  /** `[A-Za-z_]` */
  const Characters: Pattern := Repeat([Range('A', 'Z'), Range('a', 'z'), Range('_', '_')], 1, Some(1))
  /** `[0-9]+` */
  const Numbers: Pattern := Repeat([Range('0', '9')], 1, None)
  /** The longest screen name Twitter allows. */
  const MaxScreenNameLength: nat := 15

  /** `[a-zA-Z0-9_]{1,15}` */
  const TwitterScreenName: Pattern :=
    Repeat([Range('a', 'z'), Range('A', 'Z'), Range('0', '9'), Range('_', '_')], 1, Some(MaxScreenNameLength))

  /** `is_not_user_id`: `re.match(CHARACTERS, item)` found something. */
  predicate IsNotUserId(item: string) {
    Match(Characters, item).Some?
  }

  /** `is_probably_not_user_screen_name`: not a screen name at all, or one made only of digits. */
  predicate IsProbablyNotUserScreenName(item: string) {
    if FullMatch(TwitterScreenName, item) then FullMatch(Numbers, item) else true
  }

  // Reference definitions, written without regular expressions.

  predicate IsAsciiLetter(c: char) {
    'A' <= c <= 'Z' || 'a' <= c <= 'z'
  }

  /** A character that can start a screen name but not a numeric id. */
  predicate IsIdentifierStart(c: char) {
    IsAsciiLetter(c) || c == '_'
  }

  predicate IsScreenNameChar(c: char) {
    IsAsciiLetter(c) || IsDigit(c) || c == '_'
  }

  /** Every character may appear in a screen name, and there are 1 to 15 of them. */
  predicate IsWellFormedScreenName(s: string) {
    1 <= |s| <= MaxScreenNameLength && forall i :: 0 <= i < |s| ==> IsScreenNameChar(s[i])
  }

  lemma CharactersClass(c: char)
    ensures InClass(c, Characters.cls) <==> IsIdentifierStart(c)
  {
    var cls := Characters.cls;
    if 'A' <= c <= 'Z' { assert cls[0].lo <= c <= cls[0].hi; }
    else if 'a' <= c <= 'z' { assert cls[1].lo <= c <= cls[1].hi; }
    else if c == '_' { assert cls[2].lo <= c <= cls[2].hi; }
  }

  lemma NumbersClass(c: char)
    ensures InClass(c, Numbers.cls) <==> IsDigit(c)
  {
    if IsDigit(c) { assert Numbers.cls[0].lo <= c <= Numbers.cls[0].hi; }
  }

  lemma ScreenNameClass(c: char)
    ensures InClass(c, TwitterScreenName.cls) <==> IsScreenNameChar(c)
  {
    var cls := TwitterScreenName.cls;
    if 'a' <= c <= 'z' { assert cls[0].lo <= c <= cls[0].hi; }
    else if 'A' <= c <= 'Z' { assert cls[1].lo <= c <= cls[1].hi; }
    else if IsDigit(c) { assert cls[2].lo <= c <= cls[2].hi; }
    else if c == '_' { assert cls[3].lo <= c <= cls[3].hi; }
  }

  /** `is_not_user_id` holds exactly when the string starts with an ASCII letter or `_`. */
  lemma IsNotUserIdIff(s: string)
    ensures IsNotUserId(s) <==> |s| > 0 && IsIdentifierStart(s[0])
  {
    MatchIff(Characters, s);
    if |s| > 0 { CharactersClass(s[0]); }
  }

  /** Only the first character matters: the pattern is anchored at the start only. */
  lemma IsNotUserIdFirstCharOnly(s: string, t: string)
    requires |s| > 0
    ensures IsNotUserId(s + t) <==> IsNotUserId(s)
  {
    IsNotUserIdIff(s);
    IsNotUserIdIff(s + t);
    assert (s + t)[0] == s[0];
  }

  /** Numeric ids, and the empty string, are never flagged. */
  lemma DigitsAreNotFlaggedAsNonIds(s: string)
    requires AllDigits(s)
    ensures !IsNotUserId(s)
  {
    IsNotUserIdIff(s);
  }

  /**
   * `is_probably_not_user_screen_name` holds exactly for strings that are not
   * well-formed screen names and for well-formed ones made only of digits.
   */
  lemma IsProbablyNotUserScreenNameIff(s: string)
    ensures IsProbablyNotUserScreenName(s) <==> !IsWellFormedScreenName(s) || AllDigits(s)
  {
    FullMatchIff(TwitterScreenName, s);
    FullMatchIff(Numbers, s);
    forall i | 0 <= i < |s|
      ensures InClass(s[i], TwitterScreenName.cls) <==> IsScreenNameChar(s[i])
      ensures InClass(s[i], Numbers.cls) <==> IsDigit(s[i])
    {
      ScreenNameClass(s[i]);
      NumbersClass(s[i]);
    }
    if IsWellFormedScreenName(s) {
      assert FullMatch(TwitterScreenName, s);
      assert FullMatch(Numbers, s) <==> AllDigits(s);
    } else {
      assert !FullMatch(TwitterScreenName, s);
    }
  }
}
