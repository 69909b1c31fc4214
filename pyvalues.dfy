/**
 * The dynamic Python values that reach the configuration code, and the
 * built-in operations it applies to them: `str()`, `int()`, `bool()`,
 * `str.strip()` and the prefix slice `s[:n]`.
 */
module PyValues {
  import opened Wrappers

  /**
   * A value a dictionary entry may hold. `PyObject` stands for every other
   * object (a list, a nested dict, a float, a bytes string, ...) of type
   * `typeName`: `str()` renders it as `text`, its truthiness is `truthy`,
   * `hashable` tells whether looking it up in a set does without raising
   * (a set is retried as a frozenset, a list or a dict raises), and `int()`
   * gives `asInt`, None where it raises (`int(b"4")` and `int(2.7)` are
   * `Some(4)` and `Some(2)`, `int([])` is None).
   */
  datatype PyValue =
    | PyNone
    | PyBool(b: bool)
    | PyInt(i: int)
    | PyStr(s: string)
    | PyObject(typeName: string, text: string, truthy: bool, hashable: bool, asInt: Option<int>)

  /**
   * The most decimal digits CPython converts between `int` and `str`
   * (`sys.get_int_max_str_digits()`, 4300 by default since 3.11).
   */
  const MaxStrDigits: nat := 4300

  /** The ValueError `str()` raises for an integer of more than `MaxStrDigits` digits. */
  const MsgStrDigitsLimit: string :=
    "Exceeds the limit (4300 digits) for integer string conversion; use sys.set_int_max_str_digits() to increase the limit"

  function Abs(i: int): nat {
    if i < 0 then -i else i
  }

  /**
   * `str(v)`, or the ValueError it raises for an integer of more than
   * `MaxStrDigits` digits, that is of magnitude at least `10^4300`.
   */
  function Str(v: PyValue): (r: Result<string>)
    ensures r.Err? ==> v.PyInt? && r.error == MsgStrDigitsLimit
    ensures v.PyStr? ==> r == Ok(v.s)
  {
    match v
    case PyNone => Ok("None")
    case PyBool(b) => Ok(if b then "True" else "False")
    case PyInt(i) => if Abs(i) < Pow10(MaxStrDigits) then Ok(IntToDecimal(i)) else Err(MsgStrDigitsLimit)
    case PyStr(s) => Ok(s)
    case PyObject(_, text, _, _, _) => Ok(text)
  }

  /** Whether looking `v` up in a set (`v in some_set`) does without raising. */
  predicate IsHashable(v: PyValue) {
    !v.PyObject? || v.hashable
  }

  /** The TypeError that looking up an unhashable value (a list, a dict) in a set raises. */
  function UnhashableMessage(v: PyValue): string {
    "unhashable type: '" + (if v.PyObject? then v.typeName else "") + "'"
  }

  /**
   * `bool(v)`: None, False, 0 and the empty string are false. On a number or
   * a boolean it agrees with `int()`: true exactly when that is not 0.
   */
  function Truthy(v: PyValue): (r: bool)
    ensures v.PyInt? || v.PyBool? ==> (r <==> ToInt(v) != Some(0))
    ensures v.PyStr? ==> (r <==> |v.s| > 0)
    ensures v.PyNone? ==> !r
  {
    match v
    case PyNone => false
    case PyBool(b) => b
    case PyInt(i) => i != 0
    case PyStr(s) => s != ""
    case PyObject(_, _, truthy, _, _) => truthy
  }

  /** `int(v)`, or None where Python raises (TypeError or ValueError). */
  function ToInt(v: PyValue): (r: Option<int>)
    ensures v.PyInt? ==> r == Some(v.i)
    ensures v.PyBool? ==> r.Some? && 0 <= r.value <= 1
    ensures v.PyNone? ==> r.None?
    ensures v.PyStr? ==> r == ParseInt(v.s)
  {
    match v
    case PyBool(b) => Some(if b then 1 else 0)
    case PyInt(i) => Some(i)
    case PyStr(s) => ParseInt(s)
    case PyNone => None
    case PyObject(_, _, _, _, asInt) => asInt
  }

  /** The characters for which Python's `str.isspace()` holds. */
  predicate IsSpace(c: char) {
    c == ' ' || ('\t' <= c <= '\r') || ('\U{1c}' <= c <= '\U{1f}') ||
    c == '\U{85}' || c == '\U{a0}' || c == '\U{1680}' ||
    ('\U{2000}' <= c <= '\U{200a}') || c == '\U{2028}' || c == '\U{2029}' ||
    c == '\U{202f}' || c == '\U{205f}' || c == '\U{3000}'
  }

  /**
   * The whitespace `int()` skips around a literal: the same set, except the
   * four ASCII separators U+001C..U+001F, which CPython's parser does not skip.
   */
  predicate IsIntSpace(c: char) {
    IsSpace(c) && !('\U{1c}' <= c <= '\U{1f}')
  }

  /** The first index at or after `i` that does not hold whitespace `ws` (`|s|` if none). */
  function SkipLeading(s: string, i: nat, ws: char -> bool): (j: nat)
    requires i <= |s|
    ensures i <= j <= |s|
    ensures forall k :: i <= k < j ==> ws(s[k])
    ensures j == |s| || !ws(s[j])
    decreases |s| - i
  {
    if i < |s| && ws(s[i]) then SkipLeading(s, i + 1, ws) else i
  }

  /** The end of `s[lo..j]` once its trailing whitespace `ws` is dropped. */
  function SkipTrailing(s: string, lo: nat, j: nat, ws: char -> bool): (e: nat)
    requires lo <= j <= |s|
    ensures lo <= e <= j
    ensures forall k :: e <= k < j ==> ws(s[k])
    ensures e == lo || !ws(s[e - 1])
  {
    if lo < j && ws(s[j - 1]) then SkipTrailing(s, lo, j - 1, ws) else j
  }

  /**
   * `s` without its leading and trailing characters of `ws`: a slice of `s`
   * preceded and followed only by `ws` characters, that neither starts nor
   * ends with one, empty exactly when `s` is all `ws`; a string without
   * surrounding `ws` characters is returned unchanged.
   */
  function StripWith(s: string, ws: char -> bool): (r: string)
    ensures |r| <= |s|
    ensures exists i, j ::
      (0 <= i <= j <= |s| && r == s[i..j] &&
       (forall k :: 0 <= k < i ==> ws(s[k])) && (forall k :: j <= k < |s| ==> ws(s[k])))
    ensures r == [] || (!ws(r[0]) && !ws(r[|r| - 1]))
    ensures r == [] <==> forall k :: 0 <= k < |s| ==> ws(s[k])
    ensures s == [] || (!ws(s[0]) && !ws(s[|s| - 1])) ==> r == s
  {
    var i := SkipLeading(s, 0, ws);
    var j := SkipTrailing(s, i, |s|, ws);
    assert forall k :: 0 <= k < i ==> ws(s[k]);
    s[i..j]
  }

  /** `s.strip()`. */
  function Strip(s: string): string {
    StripWith(s, IsSpace)
  }

  /** `s[:n]` for a non-negative `n`: the longest prefix of `s` of length at most `n`. */
  function Truncate(s: string, n: nat): (r: string)
    ensures r <= s
    ensures |r| == if |s| <= n then |s| else n
  {
    if |s| <= n then s else s[..n]
  }

  predicate IsDigit(c: char) {
    '0' <= c <= '9'
  }

  /**
   * A decimal literal as `int()` accepts it: ASCII digits, where single
   * underscores may separate two digits.
   */
  predicate WellFormedDigits(s: string) {
    |s| > 0 && IsDigit(s[0]) &&
    (|s| == 1 || WellFormedDigits(s[1..]) || (s[1] == '_' && WellFormedDigits(s[2..])))
  }

  /** A non-empty run of digits is a well-formed literal. */
  lemma {:induction false} DigitRunWellFormed(s: string)
    requires s != []
    requires forall k :: 0 <= k < |s| ==> IsDigit(s[k])
    ensures WellFormedDigits(s)
  {
    if |s| > 1 {
      DigitRunWellFormed(s[1..]);
    }
  }

  /** The number the digits of `s` spell, underscores skipped. */
  function DigitsValue(s: string): nat {
    if s == [] then 0
    else if IsDigit(s[|s| - 1]) then DigitsValue(s[..|s| - 1]) * 10 + (s[|s| - 1] as int - '0' as int)
    else DigitsValue(s[..|s| - 1])
  }

  /** The number of digits in `s`, underscores not counted. */
  function DigitCount(s: string): nat {
    if s == [] then 0
    else DigitCount(s[..|s| - 1]) + (if IsDigit(s[|s| - 1]) then 1 else 0)
  }

  /** A literal `int()` converts: well formed and of at most `MaxStrDigits` digits. */
  predicate AcceptedDigits(s: string) {
    WellFormedDigits(s) && DigitCount(s) <= MaxStrDigits
  }

  /**
   * `int(s)` on a string: surrounding `int()` whitespace is ignored, one
   * optional sign, then a decimal literal of at most `MaxStrDigits` digits;
   * anything else is a ValueError (None).
   */
  function ParseInt(s: string): (r: Option<int>)
    ensures StripWith(s, IsIntSpace) == [] ==> r.None?
    ensures r.Some? ==> Abs(r.value) < Pow10(MaxStrDigits)
  {
    var t := StripWith(s, IsIntSpace);
    if |t| > 0 && (t[0] == '+' || t[0] == '-') then
      if AcceptedDigits(t[1..]) then
        DigitsValueBound(t[1..]);
        Pow10Monotone(DigitCount(t[1..]), MaxStrDigits);
        var magnitude: int := DigitsValue(t[1..]);
        Some(if t[0] == '-' then -magnitude else magnitude)
      else None
    else if AcceptedDigits(t) then
      DigitsValueBound(t);
      Pow10Monotone(DigitCount(t), MaxStrDigits);
      Some(DigitsValue(t))
    else None
  }

  /** The digits of `s` spell a number below 10 to the power of their count. */
  lemma {:induction false} DigitsValueBound(s: string)
    ensures DigitsValue(s) < Pow10(DigitCount(s))
  {
    if s != [] {
      var p := s[..|s| - 1];
      DigitsValueBound(p);
      if IsDigit(s[|s| - 1]) {
        assert DigitsValue(p) * 10 <= (Pow10(DigitCount(p)) - 1) * 10;
      }
    }
  }

  lemma {:induction false} Pow10Monotone(a: nat, b: nat)
    requires a <= b
    ensures Pow10(a) <= Pow10(b)
    decreases b
  {
    if a < b {
      Pow10Monotone(a, b - 1);
    }
  }

  function DigitChar(d: nat): (c: char)
    requires d < 10
    ensures IsDigit(c) && c as int - '0' as int == d
  {
    ('0' as int + d) as char
  }

  /** The decimal spelling of a natural number, without leading zeros. */
  function NatToDecimal(n: nat): string {
    if n < 10 then [DigitChar(n)] else NatToDecimal(n / 10) + [DigitChar(n % 10)]
  }

  /** The decimal spelling `str()` gives an integer. */
  function IntToDecimal(i: int): string {
    if i < 0 then "-" + NatToDecimal(-i) else NatToDecimal(i)
  }

  /** The spelling of a natural number is a well-formed literal that spells it back. */
  lemma {:induction false} NatToDecimalSpells(n: nat)
    ensures NatToDecimal(n) != []
    ensures forall k :: 0 <= k < |NatToDecimal(n)| ==> IsDigit(NatToDecimal(n)[k])
    ensures DigitsValue(NatToDecimal(n)) == n
  {
    if n >= 10 {
      NatToDecimalSpells(n / 10);
      var p := NatToDecimal(n / 10);
      var s := NatToDecimal(n);
      assert s == p + [DigitChar(n % 10)];
      assert s[..|s| - 1] == p;
    }
  }

  /** In a run of digits every character counts as a digit. */
  lemma {:induction false} DigitRunCount(s: string)
    requires forall k :: 0 <= k < |s| ==> IsDigit(s[k])
    ensures DigitCount(s) == |s|
  {
    if s != [] {
      DigitRunCount(s[..|s| - 1]);
    }
  }

  function Pow10(k: nat): (p: nat)
    ensures p >= 1
  {
    if k == 0 then 1 else 10 * Pow10(k - 1)
  }

  /** A natural number has at most `k` decimal digits exactly when it is below `10^k`. */
  lemma {:induction false} DecimalLengthBound(m: nat, k: nat)
    requires k >= 1
    ensures |NatToDecimal(m)| <= k <==> m < Pow10(k)
    decreases m
  {
    assert Pow10(k) == 10 * Pow10(k - 1);
    if m >= 10 {
      NatToDecimalSpells(m / 10);
      assert |NatToDecimal(m)| == |NatToDecimal(m / 10)| + 1;
      if k > 1 {
        DecimalLengthBound(m / 10, k - 1);
        assert m / 10 < Pow10(k - 1) <==> m < Pow10(k);
      }
    }
  }

  /** A string with no `ws` character at either end is its own strip. */
  lemma StripKeeps(s: string, ws: char -> bool)
    requires s != [] && !ws(s[0]) && !ws(s[|s| - 1])
    ensures StripWith(s, ws) == s
  {
  }

  /** A run of digits means to `int()` what it spells, when it is not too long. */
  lemma {:induction false} ParseIntDigitLimit(s: string)
    requires s != []
    requires forall k :: 0 <= k < |s| ==> IsDigit(s[k])
    ensures ParseInt(s) == if |s| <= MaxStrDigits then Some(DigitsValue(s)) else None
  {
    DigitRunWellFormed(s);
    DigitRunCount(s);
    assert IsDigit(s[0]) && IsDigit(s[|s| - 1]);
    StripKeeps(s, IsIntSpace);
    assert !(s[0] == '+' || s[0] == '-');
  }

  /** `int()` reads back the spelling of a negative number, when it is not too long. */
  lemma {:induction false} ParseIntOfNegativeDecimal(m: nat)
    ensures ParseInt("-" + NatToDecimal(m)) ==
      if |NatToDecimal(m)| <= MaxStrDigits then Some(-(m as int)) else None
  {
    var digits := NatToDecimal(m);
    var s := "-" + digits;
    NatToDecimalSpells(m);
    DigitRunWellFormed(digits);
    DigitRunCount(digits);
    assert s[1..] == digits;
    assert s[0] == '-' && s[|s| - 1] == digits[|digits| - 1];
    assert IsDigit(s[|s| - 1]);
    StripKeeps(s, IsIntSpace);
  }

  /**
   * `int(str(n)) == n` whenever `str(n)` succeeds, and `int()` refuses the
   * spelling of `n` exactly when `str(n)` does.
   */
  lemma {:induction false} IntStrRoundTrip(n: int)
    ensures Str(PyInt(n)).Ok? ==> ToInt(PyStr(Str(PyInt(n)).value)) == Some(n)
    ensures ParseInt(IntToDecimal(n)) == if Str(PyInt(n)).Ok? then Some(n) else None
  {
    var digits := NatToDecimal(Abs(n));
    StrIntLimit(n);
    if n < 0 {
      assert IntToDecimal(n) == "-" + digits;
      ParseIntOfNegativeDecimal(-n);
    } else {
      assert IntToDecimal(n) == digits;
      NatToDecimalSpells(n);
      ParseIntDigitLimit(digits);
    }
    if Str(PyInt(n)).Ok? {
      assert Str(PyInt(n)).value == IntToDecimal(n);
    }
  }

  /** `str(n)` succeeds exactly when the spelling of `n` has at most 4300 digits. */
  lemma StrIntLimit(n: int)
    ensures Str(PyInt(n)).Ok? <==> |NatToDecimal(Abs(n))| <= MaxStrDigits
  {
    DecimalLengthBound(Abs(n), MaxStrDigits);
  }

  /** `int("abc")` raises a ValueError. */
  lemma ParseIntRejectsLetters()
    ensures ParseInt("abc") == None
  {
    assert StripWith("abc", IsIntSpace) == "abc";
    assert !IsDigit('a');
  }

  /** `int(" 4 ")` ignores the surrounding blanks and is 4. */
  lemma ParseIntIgnoresBlanks()
    ensures ParseInt(" 4 ") == Some(4)
  {
    assert SkipLeading(" 4 ", 0, IsIntSpace) == 1;
    assert SkipTrailing(" 4 ", 1, 3, IsIntSpace) == 2;
    assert StripWith(" 4 ", IsIntSpace) == "4";
    assert WellFormedDigits("4");
    assert DigitCount("4") == 1;
    assert DigitsValue("4") == 4;
  }

  /**
   * `int("\x1c4")` raises although `str.strip()` would remove the U+001C:
   * the separator is whitespace to `str` but not to `int()`.
   */
  lemma ParseIntRejectsSeparatorPadding()
    ensures Strip("\U{1c}4") == "4"
    ensures ParseInt("\U{1c}4") == None
  {
    assert SkipLeading("\U{1c}4", 0, IsSpace) == 1;
    assert StripWith("\U{1c}4", IsIntSpace) == "\U{1c}4";
    assert !IsDigit('\U{1c}');
  }
}
