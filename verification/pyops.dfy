/** The pieces of Python's runtime semantics that the sonification loop leans
    on: `int()` applied to a float, subscripting a list or a str (negative
    indices count from the end, anything else raises `IndexError`), and `str()`
    of an integer, from which the melody labels are built. */
module PyOps {

  /** Value of an expression that may raise. The only exception the modelled
      code can raise is `IndexError`, from a table or string subscript. */
  datatype Result<+T> = Ok(value: T) | IndexError {

    predicate IsFailure() {
      IndexError?
    }

    function PropagateFailure<U>(): Result<U> {
      IndexError
    }

    function Extract(): T
      requires Ok?
    {
      value
    }
  }

  /** `int(x)` on a float: truncation toward zero, so the result is the integer
      at most one unit closer to zero than `x`. */
  function Trunc(x: real): (r: int)
    ensures 0.0 <= x ==> 0 <= r && r as real <= x < r as real + 1.0
    ensures x < 0.0 ==> r <= 0 && r as real - 1.0 < x <= r as real
  {
    if x >= 0.0 then x.Floor else -((-x).Floor)
  }

  /** Truncation never reverses the order of its arguments. */
  lemma TruncMonotone(x: real, y: real)
    requires x <= y
    ensures Trunc(x) <= Trunc(y)
  {
  }

  /** The position that the Python subscript `i` designates in a sequence of
      length `n` (meaningful when `-n <= i < n`). */
  function Position(i: int, n: nat): int {
    if i < 0 then i + n else i
  }

  /** `s[i]` on a Python list or str. */
  function Index<T>(s: seq<T>, i: int): (r: Result<T>)
    ensures r.Ok? <==> -|s| <= i < |s|
    ensures r.Ok? ==> 0 <= Position(i, |s|) < |s| && r.value == s[Position(i, |s|)]
  {
    if 0 <= i < |s| then Ok(s[i])
    else if -|s| <= i < 0 then Ok(s[|s| + i])
    else IndexError
  }

  predicate IsDigit(c: char) {
    '0' <= c <= '9'
  }

  predicate AllDigits(s: string) {
    forall k :: 0 <= k < |s| ==> IsDigit(s[k])
  }

  function Digit(d: nat): (c: char)
    requires d < 10
    ensures IsDigit(c) && c as int - '0' as int == d
  {
    ('0' as int + d) as char
  }

  /** `str(n)` for a non-negative int: decimal digits, no leading zero. */
  function NatString(n: nat): (s: string)
    ensures 1 <= |s| && AllDigits(s)
    ensures 1 < |s| ==> s[0] != '0'
  {
    if n < 10 then [Digit(n)] else NatString(n / 10) + [Digit(n % 10)]
  }

  /** The value a string of decimal digits denotes. */
  function ParseNat(s: string): nat
    requires AllDigits(s)
  {
    if s == [] then 0
    else 10 * ParseNat(s[..|s| - 1]) + (s[|s| - 1] as int - '0' as int)
  }

  /** Reading back the digits of `n` gives `n`. */
  lemma {:induction false} ParseNatString(n: nat)
    ensures ParseNat(NatString(n)) == n
  {
    if n >= 10 {
      var s := NatString(n);
      ParseNatString(n / 10);
      assert s[..|s| - 1] == NatString(n / 10);
    }
  }

  /** `str(i)` for an int: a minus sign for negatives, then the digits. */
  function IntString(i: int): (s: string)
    ensures 1 <= |s|
    ensures s[0] == '-' <==> i < 0
  {
    if i < 0 then "-" + NatString(-i) else NatString(i)
  }

  /** Strings of the shape `str(i)` produces. */
  predicate Numeral(s: string) {
    if |s| > 0 && s[0] == '-' then 1 < |s| && AllDigits(s[1..])
    else 0 < |s| && AllDigits(s)
  }

  function ParseInt(s: string): int
    requires Numeral(s)
  {
    if s[0] == '-' then -(ParseNat(s[1..]) as int) else ParseNat(s)
  }

  /** `str` on ints is injective: the label can be read back. */
  lemma IntStringRoundTrip(i: int)
    ensures Numeral(IntString(i))
    ensures ParseInt(IntString(i)) == i
  {
    var s := IntString(i);
    if i < 0 {
      assert s[1..] == NatString(-i);
      ParseNatString(-i);
    } else {
      assert IsDigit(s[0]);
      ParseNatString(i);
    }
  }
}
