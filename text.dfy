/**
 * Number formatting as C# string interpolation does it for the values in
 * the automation's messages: decimal (`ToString()`) and upper-case
 * hexadecimal (`:X`), without leading zeros.
 */
module Text {

  /** The character of digit `d`: '0'-'9', then 'A'-'F'. */
  function Digit(d: nat): (c: char)
    requires d < 16
    ensures IsDigit(c) && DigitValue(c) == d
  {
    if d < 10 then ('0' as int + d) as char else ('A' as int + d - 10) as char
  }

  /** `c` is one of the digit characters '0'-'9', 'A'-'F'. */
  predicate IsDigit(c: char)
  {
    '0' <= c <= '9' || 'A' <= c <= 'F'
  }

  /** The value of a digit character; 0 for any other character. */
  function DigitValue(c: char): nat
  {
    if '0' <= c <= '9' then c as int - '0' as int
    else if 'A' <= c <= 'F' then c as int - 'A' as int + 10
    else 0
  }

  /** One step of positional notation. */
  lemma DivMod(n: nat, base: nat)
    requires 2 <= base <= 16 && n >= base
    ensures 0 < n / base < n && 0 <= n % base < base && n == (n / base) * base + n % base
  {
  }

  /** The digits of `n` in `base`, most significant first. */
  function Digits(n: nat, base: nat): (s: string)
    requires 2 <= base <= 16
    ensures |s| >= 1
    ensures forall i :: 0 <= i < |s| ==> IsDigit(s[i]) && DigitValue(s[i]) < base
    decreases n
  {
    if n < base then [Digit(n)]
    else
      DivMod(n, base);
      Digits(n / base, base) + [Digit(n % base)]
  }

  /** The number a digit string denotes in `base`. */
  function Value(s: string, base: nat): nat
  {
    if |s| == 0 then 0 else Value(s[..|s| - 1], base) * base + DigitValue(s[|s| - 1])
  }

  /** Reading the digits back gives the number. */
  lemma {:induction false} DigitsValue(n: nat, base: nat)
    requires 2 <= base <= 16
    ensures Value(Digits(n, base), base) == n
    decreases n
  {
    var s := Digits(n, base);
    if n < base {
      assert s[..0] == [];
    } else {
      DivMod(n, base);
      var q := n / base;
      DigitsValue(q, base);
      assert s[..|s| - 1] == Digits(q, base);
      assert DigitValue(s[|s| - 1]) == n % base;
    }
  }

  /** `ToString()` of an integer: its decimal digits, after a '-' when negative. */
  function Decimal(n: int): (s: string)
    ensures |s| >= 1
    ensures n >= 0 ==> Value(s, 10) == n
    ensures n < 0 ==> |s| >= 2 && s[0] == '-' && Value(s[1..], 10) == -n
  {
    if n < 0 then
      DigitsValue(-n, 10);
      assert ("-" + Digits(-n, 10))[1..] == Digits(-n, 10);
      "-" + Digits(-n, 10)
    else
      DigitsValue(n, 10);
      Digits(n, 10)
  }

  /** `ToString("X")` of an unsigned integer. */
  function Hex(n: nat): (s: string)
    ensures forall i :: 0 <= i < |s| ==> IsDigit(s[i])
    ensures Value(s, 16) == n
  {
    DigitsValue(n, 16);
    Digits(n, 16)
  }
}
