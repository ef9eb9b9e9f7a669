/**
 * Decimal integer text as Go's `strconv` package reads and writes it, for a 64-bit `int`:
 * `Atoi` (also `ParseInt(s, 10, 64)`) and `Itoa`, plus 64-bit two's-complement wrap-around
 * and Go's truncating division, which the pagination arithmetic uses.
 */
module Strconv {
  import opened Wrappers

  const MinInt64: int := -0x8000_0000_0000_0000
  const MaxInt64: int := 0x7fff_ffff_ffff_ffff

  predicate IsInt64(i: int) {
    MinInt64 <= i <= MaxInt64
  }

  /** The value of a Go `int` after an arithmetic result `x` is reduced to 64 bits. */
  function Wrap64(x: int): (r: int)
    ensures IsInt64(r)
    ensures (r - x) % 0x1_0000_0000_0000_0000 == 0
    ensures IsInt64(x) ==> r == x
  {
    (x - MinInt64) % 0x1_0000_0000_0000_0000 + MinInt64
  }

  /** Go's integer division, which truncates toward zero. */
  function TruncDiv(a: int, b: int): (q: int)
    requires b > 0
    ensures a >= 0 ==> q == a / b
    ensures a < 0 ==> q == -((-a) / b)
  {
    if a >= 0 then a / b else -((-a) / b)
  }

  predicate IsDigit(c: char) {
    '0' <= c <= '9'
  }

  predicate AllDigits(s: string) {
    forall i :: 0 <= i < |s| ==> IsDigit(s[i])
  }

  function DigitChar(d: nat): (c: char)
    requires d < 10
    ensures IsDigit(c)
  {
    ('0' as int + d) as char
  }

  function DigitValue(c: char): (d: nat)
    requires IsDigit(c)
    ensures d < 10 && DigitChar(d) == c
  {
    c as int - '0' as int
  }

  /** The number a non-empty run of decimal digits denotes (leading zeros allowed). */
  function DigitsValue(s: string): nat
    requires AllDigits(s)
  {
    if s == [] then 0 else 10 * DigitsValue(s[..|s| - 1]) + DigitValue(s[|s| - 1])
  }

  /** Shortest decimal text of `n`: the way `%d` prints a placeholder number. */
  function NatToString(n: nat): (s: string)
    ensures |s| >= 1 && AllDigits(s)
    ensures n >= 10 <==> |s| >= 2
  {
    if n < 10 then [DigitChar(n)] else NatToString(n / 10) + [DigitChar(n % 10)]
  }

  /** `strconv.Itoa`. */
  function Itoa(i: int): string {
    if i < 0 then "-" + NatToString(-i) else NatToString(i)
  }

  /**
   * `strconv.Atoi`: an optional `+` or `-`, then at least one decimal digit and nothing else;
   * a value outside the 64-bit range is a range error. Every failure is `None`.
   */
  function Atoi(s: string): (r: Option<int>)
    ensures r.Some? ==> IsInt64(r.value)
    ensures r.Some? ==> |s| >= 1 && (IsDigit(s[0]) || s[0] == '+' || s[0] == '-')
    ensures s == [] || s == "+" || s == "-" ==> r.None?
  {
    if s == [] then None
    else
      var body := if s[0] == '+' || s[0] == '-' then s[1..] else s;
      if body == [] || !AllDigits(body) then None
      else
        var d: int := DigitsValue(body);
        var v := if s[0] == '-' then -d else d;
        if IsInt64(v) then Some(v) else None
  }

  lemma {:induction false} DigitsOfNatToString(n: nat)
    ensures DigitsValue(NatToString(n)) == n
  {
    if n >= 10 {
      var s := NatToString(n);
      DigitsOfNatToString(n / 10);
      assert s[..|s| - 1] == NatToString(n / 10);
    }
  }

  /** Reading back what `Itoa` writes gives the same 64-bit integer. */
  lemma AtoiItoa(i: int)
    requires IsInt64(i)
    ensures Atoi(Itoa(i)) == Some(i)
  {
    if i < 0 {
      var body := NatToString(-i);
      DigitsOfNatToString(-i);
      assert Itoa(i) == "-" + body;
      assert Itoa(i)[0] == '-' && Itoa(i)[1..] == body;
      assert DigitsValue(body) == -i;
    } else {
      var body := NatToString(i);
      DigitsOfNatToString(i);
      assert Itoa(i) == body;
      assert IsDigit(body[0]);
      assert DigitsValue(body) == i;
    }
  }

  /** Text that is not a decimal integer is rejected; a leading `+` is accepted. */
  lemma AtoiRejects()
    ensures Atoi("abc") == None
    ensures Atoi("1.5") == None
    ensures Atoi("") == None
    ensures Atoi("+7") == Some(7)
  {
    assert !AllDigits("abc") by { assert !IsDigit("abc"[0]); }
    assert !AllDigits("1.5") by { assert !IsDigit("1.5"[1]); }
    assert "+7"[1..] == "7" && "7"[..0] == [];
    assert DigitsValue("7") == 7;
  }
}
