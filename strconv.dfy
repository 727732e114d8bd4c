/** `strconv.Atoi` as the handlers use it on path ids, on a 64-bit platform:
    an optional `+` or `-`, then one or more decimal digits, whose value must
    fit in an `int64`; nothing else is accepted (no spaces, no underscores,
    no base prefixes). Digits are read left to right, as Go's `ParseUint`
    does, so that a digit string overflowing 64 bits is reported as out of
    range as soon as it overflows, before any later non-digit is reached. */
module Strconv {
  import opened Common

  const MaxUint64: int := 0xFFFF_FFFF_FFFF_FFFF
  const MaxInt64: int := 0x7FFF_FFFF_FFFF_FFFF
  const MinInt64: int := -0x8000_0000_0000_0000

  predicate IsDigit(c: char)
  {
    '0' <= c <= '9'
  }

  function DigitValue(c: char): (d: nat)
    requires IsDigit(c)
    ensures d <= 9
  {
    (c as int) - ('0' as int)
  }

  predicate AllDigits(s: string)
  {
    forall i :: 0 <= i < |s| ==> IsDigit(s[i])
  }

  /** What the digit loop of `ParseUint` ends with. */
  datatype Parsed = Parsed(n: int) | SyntaxError | RangeError

  /** The digit loop of `ParseUint(s, 10, 64)`, continuing from the value
      `acc` already read. */
  function ScanDigits(s: string, acc: nat): (r: Parsed)
    ensures r.Parsed? ==> acc <= r.n && (s != [] ==> r.n <= MaxUint64)
    decreases |s|
  {
    if s == [] then Parsed(acc)
    else if !IsDigit(s[0]) then SyntaxError
    else if acc * 10 + DigitValue(s[0]) > MaxUint64 then RangeError
    else ScanDigits(s[1..], acc * 10 + DigitValue(s[0]))
  }

  /** `ParseInt(s, 10, 64)`: the sign, the digits, then the `int64` range. */
  function ParseInt(s: string): (r: Parsed)
    ensures r.Parsed? ==> MinInt64 <= r.n <= MaxInt64
    ensures s == [] || s == "+" || s == "-" ==> r == SyntaxError
  {
    if s == [] then SyntaxError
    else
      var neg := s[0] == '-';
      var digits := if s[0] == '+' || s[0] == '-' then s[1..] else s;
      if digits == [] then SyntaxError
      else match ScanDigits(digits, 0)
        case Parsed(u) =>
          if !neg && u > MaxInt64 then RangeError
          else if neg && u > MaxInt64 + 1 then RangeError
          else Parsed(if neg then -u else u)
        case other => other
  }

  /** `strconv.Atoi(s)`, with the message of the `*NumError` it returns
      (the quoting of `s` is shown without Go's escaping). */
  function Atoi(s: string): (r: Result<int>)
    ensures r.Ok? <==> ParseInt(s).Parsed?
    ensures r.Ok? ==> MinInt64 <= r.value <= MaxInt64
    ensures r.Err? ==> AtoiPrefix(s) <= r.error
  {
    match ParseInt(s)
    case Parsed(n) => Ok(n)
    case SyntaxError =>
      assert (AtoiPrefix(s) + "invalid syntax")[..|AtoiPrefix(s)|] == AtoiPrefix(s);
      Err(AtoiPrefix(s) + "invalid syntax")
    case RangeError =>
      assert (AtoiPrefix(s) + "value out of range")[..|AtoiPrefix(s)|] == AtoiPrefix(s);
      Err(AtoiPrefix(s) + "value out of range")
  }

  /** The start of every `*NumError` message from `Atoi`. */
  function AtoiPrefix(s: string): string
  {
    "strconv.Atoi: parsing \"" + s + "\": "
  }

  // ---------------------------------------------------------------------
  // An independent reading of decimal literals

  /** The digits after an optional sign. */
  function Magnitude(s: string): string
  {
    if |s| > 0 && (s[0] == '+' || s[0] == '-') then s[1..] else s
  }

  /** An optional sign followed by at least one decimal digit. */
  predicate IsIntegerLiteral(s: string)
  {
    Magnitude(s) != [] && AllDigits(Magnitude(s))
  }

  /** The value of a digit string, read from its last digit. */
  function DecimalValue(s: string): nat
    requires AllDigits(s)
  {
    if s == [] then 0 else DecimalValue(s[..|s| - 1]) * 10 + DigitValue(s[|s| - 1])
  }

  /** The value a literal denotes. */
  function LiteralValue(s: string): int
    requires IsIntegerLiteral(s)
  {
    if s[0] == '-' then -(DecimalValue(Magnitude(s)) as int) else DecimalValue(Magnitude(s))
  }

  /** Decimal digits of a natural number, without leading zeros. */
  function Digits(n: nat): (s: string)
    ensures s != [] && AllDigits(s)
  {
    if n < 10 then [('0' as int + n) as char]
    else Digits(n / 10) + [('0' as int + n % 10) as char]
  }

  /** `strconv.Itoa`: the canonical decimal form of an integer. */
  function FormatInt(n: int): string
  {
    if n < 0 then "-" + Digits(-n) else Digits(n)
  }

  // ---------------------------------------------------------------------
  // Lemmas

  /** Reading a concatenation is reading the first part and continuing from
      its value. */
  lemma {:induction false} ScanAppend(a: string, b: string, acc: nat)
    ensures ScanDigits(a + b, acc) ==
      match ScanDigits(a, acc)
      case Parsed(v) => ScanDigits(b, v)
      case other => other
    decreases |a|
  {
    if a != [] {
      assert (a + b)[0] == a[0];
      assert (a + b)[1..] == a[1..] + b;
      if IsDigit(a[0]) && acc * 10 + DigitValue(a[0]) <= MaxUint64 {
        ScanAppend(a[1..], b, acc * 10 + DigitValue(a[0]));
      }
    } else {
      assert a + b == b;
    }
  }

  /** Only digit strings scan to a value. */
  lemma {:induction false} ScanOnlyDigits(s: string, acc: nat)
    requires ScanDigits(s, acc).Parsed?
    ensures AllDigits(s)
    decreases |s|
  {
    if s != [] {
      ScanOnlyDigits(s[1..], acc * 10 + DigitValue(s[0]));
      assert forall i :: 1 <= i < |s| ==> s[i] == s[1..][i - 1];
    }
  }

  /** A digit string scans to its decimal value when that fits in 64
      unsigned bits, and is out of range otherwise. */
  lemma {:induction false} ScanValue(s: string)
    requires s != [] && AllDigits(s)
    ensures DecimalValue(s) <= MaxUint64 ==> ScanDigits(s, 0) == Parsed(DecimalValue(s))
    ensures DecimalValue(s) > MaxUint64 ==> ScanDigits(s, 0) == RangeError
    decreases |s|
  {
    var a, c := s[..|s| - 1], s[|s| - 1];
    assert s == a + [c];
    ScanAppend(a, [c], 0);
    if a != [] {
      ScanValue(a);
    } else {
      assert ScanDigits(a, 0) == Parsed(0);
      assert DecimalValue(s) == DigitValue(c);
    }
  }

  /** `Digits` writes exactly the number it is given. */
  lemma {:induction false} DigitsValue(n: nat)
    ensures DecimalValue(Digits(n)) == n
  {
    var s := Digits(n);
    if n >= 10 {
      DigitsValue(n / 10);
      assert s[..|s| - 1] == Digits(n / 10);
    }
  }

  /** Atoi accepts exactly the integer literals whose value is an `int64`,
      and then returns that value. */
  lemma AtoiSpec(s: string)
    ensures Atoi(s).Ok? <==> IsIntegerLiteral(s) && MinInt64 <= LiteralValue(s) <= MaxInt64
    ensures Atoi(s).Ok? ==> Atoi(s).value == LiteralValue(s)
  {
    if s != [] {
      var m := Magnitude(s);
      if m != [] {
        if AllDigits(m) {
          ScanValue(m);
        } else if ScanDigits(m, 0).Parsed? {
          ScanOnlyDigits(m, 0);
        }
      }
    }
  }

  /** Every `int64` survives printing and parsing back. */
  lemma AtoiFormatInt(n: int)
    requires MinInt64 <= n <= MaxInt64
    ensures Atoi(FormatInt(n)) == Ok(n)
  {
    var s := FormatInt(n);
    if n < 0 {
      assert Magnitude(s) == Digits(-n);
      DigitsValue(-n);
    } else {
      assert Magnitude(s) == Digits(n);
      DigitsValue(n);
    }
    AtoiSpec(s);
  }

  /** A literal too large for `int64` is refused as out of range, even
      though it is well formed. */
  lemma AtoiOutOfRange(s: string)
    requires IsIntegerLiteral(s) && !(MinInt64 <= LiteralValue(s) <= MaxInt64)
    ensures Atoi(s) == Err(AtoiPrefix(s) + "value out of range")
  {
    ScanValue(Magnitude(s));
  }
}
