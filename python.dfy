/** Python and ctypes semantics that the two camera modules rely on: exceptions
    as results, floor division, fixed-width integer stores and str() of an int. */
module Python {

  datatype Option<+T> = None | Some(value: T)

  /** The exceptions the modelled code raises or lets through. */
  datatype PyError =
    | RuntimeError(message: string)   // wrappedAndorFunc's errors
    | ValueError                      // bad bin, bad rotation, negative array dimension
    | TypeError                       // int(None), float(None), a non-int stored in a c_int
    | AttributeError                  // an attribute that does not exist yet
    | IndexError                      // indexing an empty list
    | ZeroDivisionError
    | DriverFault                     // a driver call that raised instead of returning
    | Failure(message: string)        // a bare Exception("...") raised by the code itself

  datatype Result<+T> = Ok(value: T) | Raise(error: PyError)

  /** The outcome of a call made for its effect: it returned, or it raised. */
  datatype Outcome = Pass | Fail(error: PyError)

  /** Python's `//`: the quotient rounded towards negative infinity. */
  function FloorDiv(a: int, b: int): (q: int)
    requires b != 0
    ensures b > 0 ==> q * b <= a < q * b + b
    ensures b < 0 ==> q * b + b < a <= q * b
  {
    if b < 0 && a % b != 0 then a / b - 1 else a / b
  }

  /** Python's `%`: the remainder takes the sign of the divisor. */
  function FloorMod(a: int, b: int): (r: int)
    requires b != 0
    ensures a == FloorDiv(a, b) * b + r
    ensures b > 0 ==> 0 <= r < b
    ensures b < 0 ==> b < r <= 0
  {
    a - FloorDiv(a, b) * b
  }

  /** A Python `%` result is zero exactly when Dafny's (Euclidean) remainder is. */
  lemma FloorModZero(a: int, b: int)
    requires b != 0
    ensures FloorMod(a, b) == 0 <==> a % b == 0
  {
  }

  const TWO_32: int := 0x1_0000_0000

  /** The value read back from a ctypes `c_int` (32-bit, two's complement) after storing `x`. */
  function Int32(x: int): (r: int)
    ensures -0x8000_0000 <= r < 0x8000_0000
    ensures (r - x) % TWO_32 == 0
    ensures -0x8000_0000 <= x < 0x8000_0000 ==> r == x
  {
    var m := x % TWO_32;
    if m >= 0x8000_0000 then m - TWO_32 else m
  }

  /** The value read back from a 32-bit `c_ulong` after storing `x`. */
  function UInt32(x: int): (r: nat)
    ensures r < TWO_32
    ensures (r - x) % TWO_32 == 0
    ensures 0 <= x < TWO_32 ==> r == x
  {
    x % TWO_32
  }

  /** The value read back from a numpy `uint16` element after storing `x`. */
  function UInt16(x: int): (r: nat)
    ensures r < 0x1_0000
    ensures (r - x) % 0x1_0000 == 0
    ensures 0 <= x < 0x1_0000 ==> r == x
  {
    x % 0x1_0000
  }

  predicate IsDigit(c: char) { '0' <= c <= '9' }

  function DigitChar(d: nat): (c: char)
    requires d < 10
    ensures IsDigit(c) && c as int - '0' as int == d
  {
    ('0' as int + d) as char
  }

  /** The decimal digits of `n`, most significant first, without leading zeros. */
  function NatDigits(n: nat): (s: string)
    ensures |s| > 0 && forall i | 0 <= i < |s| :: IsDigit(s[i])
    ensures |s| > 1 ==> s[0] != '0'
    decreases n
  {
    if n < 10 then [DigitChar(n)] else NatDigits(n / 10) + [DigitChar(n % 10)]
  }

  /** `str(i)` for an int `i`. */
  function IntStr(i: int): (s: string)
    ensures |s| > 0
    ensures i < 0 <==> s[0] == '-'
  {
    if i < 0 then "-" + NatDigits(-i) else NatDigits(i)
  }

  /** The value of a non-empty string of decimal digits. */
  function DigitsValue(s: string): nat
    requires |s| > 0 && forall i | 0 <= i < |s| :: IsDigit(s[i])
    decreases |s|
  {
    assert IsDigit(s[|s| - 1]);
    var d: nat := s[|s| - 1] as int - '0' as int;
    if |s| == 1 then d else 10 * DigitsValue(s[..|s| - 1]) + d
  }

  /** `int(s)` restricted to the strings `str` produces: an optional minus sign, then digits. */
  function ParseInt(s: string): Option<int> {
    if |s| > 0 && s[0] == '-' then
      var t := s[1..];
      if |t| > 0 && forall i | 0 <= i < |t| :: IsDigit(t[i]) then Some(0 - DigitsValue(t)) else None
    else if |s| > 0 && forall i | 0 <= i < |s| :: IsDigit(s[i]) then Some(DigitsValue(s))
    else None
  }

  lemma {:induction false} DigitsValueOfNatDigits(n: nat)
    ensures DigitsValue(NatDigits(n)) == n
    decreases n
  {
    if n >= 10 {
      var s := NatDigits(n);
      var p := NatDigits(n / 10);
      assert s == p + [DigitChar(n % 10)];
      assert s[..|s| - 1] == p;
      DigitsValueOfNatDigits(n / 10);
    }
  }

  /** `int(str(i)) == i`: the decimal rendering loses nothing. */
  lemma IntStrRoundTrip(i: int)
    ensures ParseInt(IntStr(i)) == Some(i)
  {
    if i < 0 {
      var s := IntStr(i);
      assert s[1..] == NatDigits(-i);
      DigitsValueOfNatDigits(-i);
    } else {
      DigitsValueOfNatDigits(i);
    }
  }

  /** Distinct ints render as distinct strings. */
  lemma IntStrInjective(i: int, j: int)
    requires IntStr(i) == IntStr(j)
    ensures i == j
  {
    IntStrRoundTrip(i);
    IntStrRoundTrip(j);
  }

  /** Concatenation of call logs is associative. */
  lemma Assoc<T>(a: seq<T>, b: seq<T>, c: seq<T>)
    ensures (a + b) + c == a + (b + c)
  {
  }
}
