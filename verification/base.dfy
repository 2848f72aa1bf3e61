/**
 * Shared vocabulary of the model: the exceptions the pipeline raises or lets
 * propagate, a Result type for them, and the two Python built-ins whose
 * integer semantics matter here, `int(x)` on a float (truncation toward
 * zero) and `str(n)` / `int(s)` on decimal text.
 */
module Base {

  /** The Python exceptions raised by the modelled code or by the collaborators it calls. */
  datatype Error =
    | ValueError(message: string)
    | KeyError(key: string)
    | TypeError
    | FileNotFoundError(path: string)
    /** the external EDF loader failed on this recording */
    | LoadError(path: string)
    /** an f-string rendered a float; Python's float repr is not part of this model */
    | FloatRendering

  datatype Option<+T> = None | Some(value: T)

  /** Either a value or the exception that replaced it; usable with `:-`. */
  datatype Result<+T> = Ok(value: T) | Err(error: Error) {
    predicate IsFailure() { Err? }

    function PropagateFailure<U>(): Result<U>
      requires Err?
    {
      Err(error)
    }

    function Extract(): T
      requires Ok?
    {
      value
    }
  }

  /** Python's `int(x)` on a float: the integer part, truncated toward zero. */
  function Trunc(x: real): (r: int)
    ensures 0.0 <= x ==> r as real <= x < r as real + 1.0
    ensures x < 0.0 ==> r as real - 1.0 < x <= r as real
  {
    if x >= 0.0 then x.Floor else -((-x).Floor)
  }

  /** Truncation is monotonic, so a larger duration never gives fewer samples. */
  lemma TruncMonotonic(x: real, y: real)
    requires x <= y
    ensures Trunc(x) <= Trunc(y)
  {
    if x < 0.0 && 0.0 <= y {
    } else if 0.0 <= x {
      assert Trunc(x) as real <= x <= y < Trunc(y) as real + 1.0;
    } else {
      assert Trunc(x) as real - 1.0 < x <= y <= Trunc(y) as real;
    }
  }

  predicate IsDigit(c: char) { '0' <= c <= '9' }

  function DigitChar(d: nat): (c: char)
    requires d < 10
    ensures IsDigit(c) && (c as int) - ('0' as int) == d
  {
    ['0', '1', '2', '3', '4', '5', '6', '7', '8', '9'][d]
  }

  /** Decimal digits of `n` with no leading zeros, as `str(n)` prints them. */
  function NatToString(n: nat): (s: string)
    ensures |s| > 0
    ensures forall i :: 0 <= i < |s| ==> IsDigit(s[i])
    ensures |s| > 1 ==> s[0] != '0'
  {
    if n < 10 then [DigitChar(n)] else NatToString(n / 10) + [DigitChar(n % 10)]
  }

  /** `str(i)` for a Python int: an optional minus sign, then the digits. */
  function IntToString(i: int): string {
    if i < 0 then "-" + NatToString(-i) else NatToString(i)
  }

  /** The value of a string of decimal digits, read most significant first. */
  function DigitsValue(s: string): nat
    requires forall i :: 0 <= i < |s| ==> IsDigit(s[i])
  {
    if s == [] then 0
    else DigitsValue(s[..|s| - 1]) * 10 + DigitValue(s[|s| - 1])
  }

  function DigitValue(c: char): (d: nat)
    requires IsDigit(c)
    ensures d < 10
  {
    (c as int) - ('0' as int)
  }

  /**
   * `int(s)` on text: an optional leading minus and one or more decimal
   * digits; anything else is a ValueError.
   */
  function ParseInt(s: string): (r: Result<int>)
    ensures r.Ok? <==> (|s| > 0 && s[0] != '-' && forall i :: 0 <= i < |s| ==> IsDigit(s[i]))
                       || (|s| > 1 && s[0] == '-' && forall i :: 1 <= i < |s| ==> IsDigit(s[i]))
    ensures r.Ok? && s[0] == '-' ==> r.value <= 0
    ensures r.Ok? && s[0] != '-' ==> r.value >= 0
  {
    if |s| > 1 && s[0] == '-' && forall i :: 1 <= i < |s| ==> IsDigit(s[i]) then
      var v: int := 0 - DigitsValue(s[1..]) as int;
      Ok(v)
    else if |s| > 0 && forall i :: 0 <= i < |s| ==> IsDigit(s[i]) then
      Ok(DigitsValue(s))
    else
      Err(ValueError("invalid literal for int() with base 10"))
  }

  /** Reading back the digits `str(n)` printed gives `n`. */
  lemma {:induction false} NatToStringRoundTrip(n: nat)
    ensures DigitsValue(NatToString(n)) == n
  {
    if n >= 10 {
      var s := NatToString(n);
      NatToStringRoundTrip(n / 10);
      assert s[..|s| - 1] == NatToString(n / 10);
      assert s[|s| - 1] == DigitChar(n % 10);
    }
  }

  /** `int(str(i)) == i`: the decimal text of an int parses back to it. */
  lemma IntToStringRoundTrip(i: int)
    ensures ParseInt(IntToString(i)) == Ok(i)
  {
    var s := IntToString(i);
    if i < 0 {
      var d := NatToString(-i);
      assert s[1..] == d;
      assert forall k :: 1 <= k < |s| ==> IsDigit(s[k]) by {
        forall k | 1 <= k < |s| ensures IsDigit(s[k]) { assert s[k] == d[k - 1]; }
      }
      NatToStringRoundTrip(-i);
    } else {
      assert IsDigit(s[0]);
      NatToStringRoundTrip(i);
    }
  }

  /** Two ints with the same decimal text are equal. */
  lemma IntToStringInjective(i: int, j: int)
    requires IntToString(i) == IntToString(j)
    ensures i == j
  {
    IntToStringRoundTrip(i);
    IntToStringRoundTrip(j);
  }
}
