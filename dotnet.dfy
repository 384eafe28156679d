/**
  The parts of the .NET runtime the services rely on: fixed-width integers,
  C#'s truncating division, `string.IsNullOrEmpty`, `int.ToString()`,
  `int.Parse(string)` and the exceptions these throw.
 */
module DotNet {
  import opened Wrappers

  const MinInt32: int := -0x8000_0000
  const MaxInt32: int := 0x7FFF_FFFF
  const MinInt64: int := -0x8000_0000_0000_0000
  const MaxInt64: int := 0x7FFF_FFFF_FFFF_FFFF

  /** C# `int` */
  type Int32 = x: int | MinInt32 <= x <= MaxInt32
  /** C# `long` */
  type Int64 = x: int | MinInt64 <= x <= MaxInt64

  /** A C# `string`, which may be null. */
  type NString = Option<string>

  predicate IsNullOrEmpty(s: NString) {
    s.None? || s.value == ""
  }

  /** The text string interpolation produces for a possibly-null string. */
  function OrEmpty(s: NString): string {
    if s.None? then "" else s.value
  }

  /** The text of an interpolated string: its rendered parts, in order. */
  function Concat(parts: seq<string>): string
    decreases |parts|
  {
    if parts == [] then "" else parts[0] + Concat(parts[1..])
  }

  /**
    A dictionary built by a collection initializer, which adds the pairs in
    order (the keys written in this model are always distinct).
   */
  function DictionaryOf(pairs: seq<(string, string)>): map<string, string>
    decreases |pairs|
  {
    if pairs == [] then map[]
    else
      var last := pairs[|pairs| - 1];
      DictionaryOf(pairs[..|pairs| - 1])[last.0 := last.1]
  }

  /** Absolute value. */
  function Abs(x: int): nat {
    if x < 0 then -x else x
  }

  lemma FloorBounds(a: nat, b: nat)
    requires b >= 1
    ensures (a / b) * b <= a < (a / b) * b + b
  {
  }

  /** C#'s integer `/`, which truncates toward zero. */
  function TruncDiv(a: int, b: int): int
    requires b != 0
  {
    if a == 0 then 0
    else
      var m: int := Abs(a) / Abs(b);
      if (a < 0) == (b < 0) then m else -m
  }

  /**
    Truncating division: the magnitude of the quotient is the largest whose
    multiple of |b| does not exceed |a|, and the quotient is not negative
    when the operands have the same sign and not positive otherwise.
   */
  lemma TruncDivTruncates(a: int, b: int)
    requires b != 0
    ensures var q := TruncDiv(a, b);
      Abs(a) - Abs(b) < Abs(q) * Abs(b) <= Abs(a) &&
      ((a < 0) == (b < 0) ==> q >= 0) &&
      ((a < 0) != (b < 0) ==> q <= 0)
  {
    FloorBounds(Abs(a), Abs(b));
    assert Abs(TruncDiv(a, b)) == Abs(a) / Abs(b);
  }

  // ---------------------------------------------------------------------------
  // Exceptions

  datatype ExceptionKind =
    | StripeException
    | ApplicationException
    | DivideByZeroException
    | OverflowException
    | FormatException
    | KeyNotFoundException
    | NullReferenceException

  /** A thrown exception: its class and its `Message`. */
  datatype Exception = Exception(kind: ExceptionKind, message: string)

  function ApplicationError(message: string): Exception {
    Exception(ApplicationException, message)
  }

  const DivideByZero: Exception :=
    Exception(DivideByZeroException, "Attempted to divide by zero.")

  /** What `long.MinValue / -1` throws. */
  const ArithmeticOverflow: Exception :=
    Exception(OverflowException, "Arithmetic operation resulted in an overflow.")

  const Int32Overflow: Exception :=
    Exception(OverflowException, "Value was either too large or too small for an Int32.")

  const NullReference: Exception :=
    Exception(NullReferenceException, "Object reference not set to an instance of an object.")

  function FormatError(s: string): Exception {
    Exception(FormatException, "The input string '" + s + "' was not in a correct format.")
  }

  function KeyNotFound(key: string): Exception {
    Exception(KeyNotFoundException, "The given key '" + key + "' was not present in the dictionary.")
  }

  /** `dictionary[key]`, which throws when the key is absent. */
  function Lookup(m: map<string, string>, key: string): Result<string, Exception> {
    if key in m then Ok(m[key]) else Err(KeyNotFound(key))
  }

  // ---------------------------------------------------------------------------
  // ASP.NET action results

  /**
    What a controller action answers: 200 with a body, 400 with a message,
    or 500 with a body whose `error` is an exception's message.
   */
  datatype ActionResult<+T> = OkResult(value: T) | BadRequest(message: string) | ServerError(error: string)

  /** An action's `try`/`catch (Exception)` around its service call: every exception becomes a 500. */
  function ActionOf<T>(r: Result<T, Exception>): (a: ActionResult<T>)
    ensures a.OkResult? <==> r.Ok?
    ensures r.Ok? ==> a.value == r.value
    ensures r.Err? ==> a == ServerError(r.error.message)
  {
    match r
    case Ok(v) => OkResult(v)
    case Err(e) => ServerError(e.message)
  }

  // ---------------------------------------------------------------------------
  // Decimal text of integers

  predicate IsDigit(c: char) {
    '0' <= c <= '9'
  }

  predicate AllDigits(s: string) {
    forall i :: 0 <= i < |s| ==> IsDigit(s[i])
  }

  function DigitChar(d: nat): (c: char)
    requires d < 10
    ensures IsDigit(c)
  {
    (('0' as int) + d) as char
  }

  function DigitValue(c: char): (d: nat)
    requires IsDigit(c)
    ensures d < 10 && DigitChar(d) == c
  {
    (c as int) - ('0' as int)
  }

  /** Decimal digits of n, most significant first, without leading zeros. */
  function NatToString(n: nat): string
    decreases n
  {
    if n < 10 then [DigitChar(n)] else NatToString(n / 10) + [DigitChar(n % 10)]
  }

  /** `x.ToString()` for an integer, with the invariant culture's "-" sign. */
  function IntToString(x: int): string {
    if x < 0 then "-" + NatToString(-x) else NatToString(x)
  }

  /** The decimal text of a natural number is a non-empty run of digits with no leading zero. */
  lemma {:induction false} NatToStringDigits(n: nat)
    ensures var s := NatToString(n); |s| >= 1 && AllDigits(s) && (s[0] == '0' ==> |s| == 1)
    decreases n
  {
    if n >= 10 {
      NatToStringDigits(n / 10);
    }
  }

  /** The text of an integer ends in a digit and starts with a digit exactly when it is not negative, with "-" otherwise. */
  lemma IntToStringShape(x: int)
    ensures var s := IntToString(x);
      |s| >= 1 && IsDigit(s[|s| - 1]) && (x >= 0 <==> IsDigit(s[0])) && (x < 0 <==> s[0] == '-')
  {
    NatToStringDigits(Abs(x));
  }

  /** The number a string of decimal digits denotes (leading zeros allowed). */
  function DigitsValue(s: string): nat
    requires AllDigits(s)
    decreases |s|
  {
    if s == [] then 0 else DigitsValue(s[..|s| - 1]) * 10 + DigitValue(s[|s| - 1])
  }

  lemma {:induction false} DigitsValueOfNatToString(n: nat)
    ensures AllDigits(NatToString(n)) && DigitsValue(NatToString(n)) == n
    decreases n
  {
    var s := NatToString(n);
    NatToStringDigits(n);
    if n >= 10 {
      DigitsValueOfNatToString(n / 10);
      assert s[..|s| - 1] == NatToString(n / 10);
    }
  }

  // ---------------------------------------------------------------------------
  // int.Parse(string) with NumberStyles.Integer: optional white space around
  // an optional sign and at least one decimal digit.

  /** The characters .NET's number parser treats as white space. */
  predicate IsWhite(c: char) {
    c == ' ' || '\t' <= c <= '\r'
  }

  function TrimStart(s: string): (t: string)
    ensures |t| <= |s| && t == s[|s| - |t|..]
    ensures t != [] ==> !IsWhite(t[0])
    ensures forall i :: 0 <= i < |s| - |t| ==> IsWhite(s[i])
    decreases |s|
  {
    if s != [] && IsWhite(s[0]) then TrimStart(s[1..]) else s
  }

  function TrimEnd(s: string): (t: string)
    ensures |t| <= |s| && t == s[..|t|]
    ensures t != [] ==> !IsWhite(t[|t| - 1])
    ensures forall i :: |t| <= i < |s| ==> IsWhite(s[i])
    decreases |s|
  {
    if s != [] && IsWhite(s[|s| - 1]) then TrimEnd(s[..|s| - 1]) else s
  }

  /** s without its leading and trailing white space. */
  function Trim(s: string): (t: string)
    ensures forall c :: c in t ==> c in s
  {
    var u := TrimStart(s);
    var t := TrimEnd(u);
    assert forall i :: 0 <= i < |t| ==> t[i] == s[|s| - |u| + i];
    t
  }

  predicate IsSign(c: char) {
    c == '-' || c == '+'
  }

  function Signed(negative: bool, magnitude: nat): int {
    if negative then 0 - magnitude else magnitude
  }

  /** `int.Parse(s)` for a non-null s. */
  function ParseInt32(s: string): (r: Result<Int32, Exception>)
    ensures r.Err? ==> r.error.kind in {FormatException, OverflowException}
  {
    var t := Trim(s);
    var digits := if t != [] && IsSign(t[0]) then t[1..] else t;
    if digits == [] || !AllDigits(digits) then
      Err(FormatError(s))
    else
      var v := Signed(t[0] == '-', DigitsValue(digits));
      if MinInt32 <= v <= MaxInt32 then Ok(v) else Err(Int32Overflow)
  }

  /** Text with no decimal digit in it is rejected as badly formatted. */
  lemma ParseRejectsTextWithoutDigits(s: string)
    requires forall i :: 0 <= i < |s| ==> !IsDigit(s[i])
    ensures ParseInt32(s) == Err(FormatError(s))
  {
    var t := Trim(s);
    var digits := if t != [] && IsSign(t[0]) then t[1..] else t;
    if digits != [] {
      assert digits[0] in t;
      assert !IsDigit(digits[0]);
    }
  }

  lemma TrimOfCanonical(s: string)
    requires s != [] && !IsWhite(s[0]) && !IsWhite(s[|s| - 1])
    ensures Trim(s) == s
  {
  }

  /** Digits after an optional minus sign need no trimming. */
  lemma SignedDigitsTrimmed(s: string, digits: string, negative: bool)
    requires digits != [] && AllDigits(digits)
    requires s == (if negative then "-" else "") + digits
    ensures Trim(s) == s
  {
    assert s[|s| - 1] == digits[|digits| - 1];
    assert IsDigit(s[|s| - 1]);
    if !negative {
      assert s[0] == digits[0];
    }
    TrimOfCanonical(s);
  }

  /** Parsing text that needs no trimming and whose digits follow an optional sign. */
  lemma ParseOfTrimmed(s: string, digits: string, negative: bool)
    requires digits != [] && AllDigits(digits)
    requires s == (if negative then "-" else "") + digits
    requires MinInt32 <= Signed(negative, DigitsValue(digits)) <= MaxInt32
    ensures ParseInt32(s) == Ok(Signed(negative, DigitsValue(digits)))
  {
    SignedDigitsTrimmed(s, digits, negative);
    if negative {
      assert s[1..] == digits;
    } else {
      assert !IsSign(s[0]);
    }
  }

  /** What `ToString` writes, `int.Parse` reads back. */
  lemma {:induction false} ParseIntToString(x: Int32)
    ensures ParseInt32(IntToString(x)) == Ok(x)
  {
    var n: nat := Abs(x);
    NatToStringDigits(n);
    DigitsValueOfNatToString(n);
    assert IntToString(x) == (if x < 0 then "-" else "") + NatToString(n);
    assert Signed(x < 0, DigitsValue(NatToString(n))) == x;
    ParseOfTrimmed(IntToString(x), NatToString(n), x < 0);
  }
}
