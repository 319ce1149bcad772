/**
 * The few pieces of Python's dynamic value model that the spritesheet
 * editor relies on: the values stored in a props dictionary or carried by a
 * tokenizer token, their `str()` and truthiness, the built-in `int()` on a
 * string, the exceptions the core can raise, and the mutable `dict` object
 * that commands edit in place.
 */
module PyValues {

  datatype Option<+T> = None | Some(value: T)

  /** An exception a Python call raises instead of returning. */
  datatype Exception =
    | KeyError(key: string)
    | ValueError(message: string)
    | TypeError
    | AttributeError(attribute: string)
    | NameError(identifier: string)
    | RuntimeError
    | ParseError(message: string)

  /** The outcome of a Python call that returns a value or raises. */
  datatype Result<+T> = Ok(value: T) | Raised(exception: Exception)

  /** The outcome of a Python call whose return value is not used. */
  datatype Outcome = Pass | Fail(exception: Exception)

  /**
   * A Python value as it appears in a props dictionary or as a token's value:
   * `None`, an `int`, or a `str` (identifiers, strings, whitespace and the
   * text of any other kind of token).
   */
  datatype Value = NoneValue | Int(i: int) | Text(s: string)

  /** `str(v)`. */
  function Str(v: Value): string
  {
    match v
    case NoneValue => "None"
    case Int(i) => IntToString(i)
    case Text(s) => s
  }

  /** Python truthiness: `None`, `0` and `""` are false. */
  predicate Truthy(v: Value)
  {
    match v
    case NoneValue => false
    case Int(i) => i != 0
    case Text(s) => s != ""
  }

  // ---------------------------------------------------------------------
  // Decimal text of integers: `str(n)` and `int(s)`
  // ---------------------------------------------------------------------

  predicate IsDigit(c: char) { '0' <= c <= '9' }

  function DigitChar(d: nat): (c: char)
    requires d < 10
    ensures IsDigit(c) && (c as int) - ('0' as int) == d
  {
    (('0' as int) + d) as char
  }

  function DigitValue(c: char): (d: nat)
    requires IsDigit(c)
    ensures d < 10 && DigitChar(d) == c
  {
    (c as int) - ('0' as int)
  }

  /** Decimal digits of `n`, most significant first, without leading zeros. */
  function NatToString(n: nat): (s: string)
    ensures |s| > 0
    decreases n
  {
    if n < 10 then [DigitChar(n)] else NatToString(n / 10) + [DigitChar(n % 10)]
  }

  /** `str(i)` for a Python int. */
  function IntToString(i: int): (s: string)
    ensures |s| > 0
  {
    if i < 0 then "-" + NatToString(-i) else NatToString(i)
  }

  lemma {:induction false} NatToStringDigits(n: nat)
    ensures forall k :: 0 <= k < |NatToString(n)| ==> IsDigit(NatToString(n)[k])
    decreases n
  {
    if n >= 10 {
      NatToStringDigits(n / 10);
    }
  }

  /** `str(i)` is made of decimal digits, after a minus sign when `i` is negative. */
  lemma IntToStringChars(i: int)
    ensures forall k :: 0 <= k < |IntToString(i)| ==>
      IsDigit(IntToString(i)[k]) || (k == 0 && i < 0 && IntToString(i)[k] == '-')
  {
    NatToStringDigits(if i < 0 then -i else i);
  }

  /** The characters `str.strip()` and `int()` treat as whitespace. */
  predicate IsSpace(c: char)
  {
    || c == ' ' || '\t' <= c <= '\r' || '\U{1C}' <= c <= '\U{1F}' || c == '\U{85}' || c == '\U{A0}'
    || c == '\U{1680}' || '\U{2000}' <= c <= '\U{200A}' || c == '\U{2028}' || c == '\U{2029}'
    || c == '\U{202F}' || c == '\U{205F}' || c == '\U{3000}'
  }

  function StripLeft(s: string): (r: string)
    ensures r == [] || !IsSpace(r[0])
  {
    if s != [] && IsSpace(s[0]) then StripLeft(s[1..]) else s
  }

  function StripRight(s: string): (r: string)
    ensures r == [] || !IsSpace(r[|r| - 1])
  {
    if s != [] && IsSpace(s[|s| - 1]) then StripRight(s[..|s| - 1]) else s
  }

  function Strip(s: string): string
  {
    StripRight(StripLeft(s))
  }

  /**
   * The digit part `int()` accepts in base 10: digits, where a single
   * underscore may separate two digits.
   */
  predicate WellFormedDigits(s: string)
  {
    && |s| > 0
    && IsDigit(s[0])
    && IsDigit(s[|s| - 1])
    && (forall k :: 0 <= k < |s| ==> IsDigit(s[k]) || s[k] == '_')
    && NoDoubleUnderscore(s)
  }

  predicate NoDoubleUnderscore(s: string)
  {
    |s| < 2 || ((s[0] != '_' || s[1] != '_') && NoDoubleUnderscore(s[1..]))
  }

  /** The number the digits of `s` spell, underscores skipped. */
  function DigitsValue(s: string): nat
    requires forall k :: 0 <= k < |s| ==> IsDigit(s[k]) || s[k] == '_'
  {
    if s == [] then 0
    else if s[|s| - 1] == '_' then DigitsValue(s[..|s| - 1])
    else 10 * DigitsValue(s[..|s| - 1]) + DigitValue(s[|s| - 1])
  }

  /**
   * Python's `int(s)` on a string: surrounding whitespace is ignored, an
   * optional sign is followed by base-10 digits; anything else raises
   * ValueError (here `None`).
   */
  function ParseInt(s: string): Option<int>
  {
    var t := Strip(s);
    var hasSign := |t| > 0 && (t[0] == '-' || t[0] == '+');
    var digits := if hasSign then t[1..] else t;
    if !WellFormedDigits(digits) then None
    else if hasSign && t[0] == '-' then Some(-(DigitsValue(digits) as int))
    else Some(DigitsValue(digits))
  }

  lemma {:induction false} AllDigitsNoDoubleUnderscore(s: string)
    requires forall k :: 0 <= k < |s| ==> IsDigit(s[k])
    ensures NoDoubleUnderscore(s)
  {
    if |s| >= 2 {
      AllDigitsNoDoubleUnderscore(s[1..]);
    }
  }

  lemma {:induction false} NatToStringValue(n: nat)
    ensures WellFormedDigits(NatToString(n))
    ensures DigitsValue(NatToString(n)) == n
    decreases n
  {
    var s := NatToString(n);
    NatToStringDigits(n);
    AllDigitsNoDoubleUnderscore(s);
    if n >= 10 {
      NatToStringValue(n / 10);
      assert s[..|s| - 1] == NatToString(n / 10);
    }
  }

  lemma StripOfNumeral(s: string)
    requires |s| > 0
    requires forall k :: 0 <= k < |s| ==> IsDigit(s[k]) || s[k] == '-'
    ensures Strip(s) == s
  {
  }

  /** `int(str(i)) == i`: the decimal text of an int reads back as that int. */
  lemma IntRoundTrip(i: int)
    ensures ParseInt(IntToString(i)) == Some(i)
  {
    var s := IntToString(i);
    IntToStringChars(i);
    StripOfNumeral(s);
    if i < 0 {
      var n := NatToString(-i);
      NatToStringValue(-i);
      assert s == "-" + n && s[1..] == n;
      ParseIntSigned(s);
    } else {
      NatToStringValue(i);
      assert IsDigit(s[0]);
    }
  }

  lemma ParseIntSigned(s: string)
    requires Strip(s) == s && |s| > 1 && s[0] == '-' && WellFormedDigits(s[1..])
    ensures ParseInt(s) == Some(-(DigitsValue(s[1..]) as int))
  {
  }

  /** `int()` rejects text with no digit at all, such as `""`, `"x"` or `"-"`. */
  lemma ParseIntNeedsDigit(s: string)
    requires forall k :: 0 <= k < |s| ==> !IsDigit(s[k])
    ensures ParseInt(s) == None
  {
    StripLeftKeepsChars(s);
    StripRightKeepsChars(StripLeft(s));
    var t := Strip(s);
    forall k | 0 <= k < |t| ensures !IsDigit(t[k]) {
      assert t[k] in multiset(t);
      assert t[k] in s;
    }
  }

  lemma {:induction false} StripLeftKeepsChars(s: string)
    ensures multiset(StripLeft(s)) <= multiset(s)
  {
    if s != [] && IsSpace(s[0]) {
      StripLeftKeepsChars(s[1..]);
      assert s == [s[0]] + s[1..];
    }
  }

  lemma {:induction false} StripRightKeepsChars(s: string)
    ensures multiset(StripRight(s)) <= multiset(s)
  {
    if s != [] && IsSpace(s[|s| - 1]) {
      StripRightKeepsChars(s[..|s| - 1]);
      assert s == s[..|s| - 1] + [s[|s| - 1]];
    }
  }

  /** A Python `dict` of property values, an object shared by reference. */
  class PropsDict {
    var entries: map<string, Value>

    constructor(entries: map<string, Value>)
      ensures this.entries == entries
    {
      this.entries := entries;
    }
  }
}
