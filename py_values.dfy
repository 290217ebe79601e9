/**
 * The handful of Python values that the Twitter helpers move around: cursors,
 * pagination tokens, user ids and keyword-argument values are each `None`, an
 * `int` or a `str`. Python truthiness, `v or None`, `int(s)` on a string and
 * `str(n)` on an integer are defined here.
 */
module PyValues {
  import opened Wrappers

  datatype PyValue = PyNone | PyInt(i: int) | PyStr(s: string)

  /** Python truthiness: `None`, `0` and `""` are false, everything else true. */
  predicate Truthy(v: PyValue) {
    match v
    case PyNone => false
    case PyInt(i) => i != 0
    case PyStr(s) => s != ""
  }

  /** The expression `v or None`. */
  function OrNone(v: PyValue): (r: PyValue)
    ensures Truthy(v) ==> r == v
    ensures !Truthy(v) ==> r == PyNone
    ensures Truthy(r) == Truthy(v)
  {
    if Truthy(v) then v else PyNone
  }

  predicate IsDigit(c: char) {
    '0' <= c <= '9'
  }

  predicate AllDigits(s: string) {
    forall i :: 0 <= i < |s| ==> IsDigit(s[i])
  }

  function DigitValue(c: char): (d: nat)
    requires IsDigit(c)
    ensures d < 10
  {
    c as int - '0' as int
  }

  function DigitChar(d: nat): (c: char)
    requires d < 10
    ensures IsDigit(c) && DigitValue(c) == d
  {
    ('0' as int + d) as char
  }

  /** The value of a string of decimal digits, most significant first. */
  function DecimalValue(s: string): nat
    requires AllDigits(s)
    decreases |s|
  {
    if s == [] then 0 else DecimalValue(s[..|s| - 1]) * 10 + DigitValue(s[|s| - 1])
  }

  /**
   * Python's `int(s)` on a string: an optional sign followed by at least one
   * ASCII digit; anything else raises `ValueError`, modelled as `None`.
   */
  function ParseInt(s: string): (r: Option<int>)
    ensures r.Some? ==> s != ""
  {
    if s != [] && (s[0] == '-' || s[0] == '+') then
      var digits := s[1..];
      if digits != [] && AllDigits(digits) then
        var magnitude: int := DecimalValue(digits);
        Some(if s[0] == '-' then -magnitude else magnitude)
      else
        None
    else if s != [] && AllDigits(s) then
      Some(DecimalValue(s))
    else
      None
  }

  /** Python's `str(n)` for a natural number: its decimal digits without leading zeros. */
  function ShowNat(n: nat): (s: string)
    ensures s != [] && AllDigits(s)
    ensures |s| > 1 ==> s[0] != '0'
    decreases n
  {
    if n < 10 then [DigitChar(n)] else ShowNat(n / 10) + [DigitChar(n % 10)]
  }

  /** Python's `str(i)` for an integer. */
  function ShowInt(i: int): (s: string)
    ensures s != ""
  {
    if i < 0 then "-" + ShowNat(-i) else ShowNat(i)
  }

  /** Reading back the digits that `ShowNat` writes gives the number again. */
  lemma {:induction false} DecimalValueOfShowNat(n: nat)
    ensures DecimalValue(ShowNat(n)) == n
    decreases n
  {
    var s := ShowNat(n);
    if n >= 10 {
      DecimalValueOfShowNat(n / 10);
      assert s[..|s| - 1] == ShowNat(n / 10);
    }
  }

  /** `int(str(i)) == i`: a cursor written out as text is read back unchanged. */
  lemma ParseIntOfShowInt(i: int)
    ensures ParseInt(ShowInt(i)) == Some(i)
  {
    if i < 0 {
      var s := ShowInt(i);
      assert s[1..] == ShowNat(-i);
      DecimalValueOfShowNat(-i);
    } else {
      DecimalValueOfShowNat(i);
    }
  }
}
