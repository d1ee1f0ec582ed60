/** QString::number(n, base) for the non-negative values the core formats:
    base-10 indices and base-16 byte values, in lower-case digits without
    padding or prefix. Parse is its inverse. */
module Numbers {

  const DigitChars: string := "0123456789abcdef"

  predicate IsDigitOf(c: char, base: nat)
    requires 2 <= base <= 16
  {
    0 <= DigitValue(c) < base
  }

  function Number(n: nat, base: nat): (s: string)
    requires 2 <= base <= 16
    ensures |s| >= 1
    ensures forall i :: 0 <= i < |s| ==> IsDigitOf(s[i], base)
    decreases n
  {
    DigitValueOfDigit(n % base);
    if n < base then [DigitChars[n]]
    else Number(n / base, base) + [DigitChars[n % base]]
  }

  /** The value of a digit character, or -1 if `c` is not a lower-case hex digit. */
  function DigitValue(c: char): (d: int)
    ensures -1 <= d < 16
    ensures 0 <= d ==> DigitChars[d] == c
  {
    if '0' <= c <= '9' then c as int - '0' as int
    else if 'a' <= c <= 'f' then c as int - 'a' as int + 10
    else -1
  }

  /** Reads a digit string back, most significant digit first. */
  function Parse(s: string, base: nat): int
    requires 2 <= base <= 16
    decreases |s|
  {
    if s == [] then 0
    else Parse(s[..|s| - 1], base) * base + DigitValue(s[|s| - 1])
  }

  lemma DigitValueOfDigit(d: nat)
    requires d < 16
    ensures DigitValue(DigitChars[d]) == d
  {
  }

  lemma DivMod(n: nat, base: nat)
    requires 2 <= base
    ensures n == (n / base) * base + n % base
    ensures 0 <= n % base < base
    ensures n >= base ==> n / base < n
  {
  }

  /** Formatting a number and reading it back gives the number. */
  lemma {:induction false} ParseNumber(n: nat, base: nat)
    requires 2 <= base <= 16
    ensures Parse(Number(n, base), base) == n
    decreases n
  {
    var s := Number(n, base);
    if n < base {
      DigitValueOfDigit(n);
      assert s[..|s| - 1] == [];
    } else {
      DivMod(n, base);
      ParseNumber(n / base, base);
      DigitValueOfDigit(n % base);
      assert s[..|s| - 1] == Number(n / base, base);
    }
  }

  /** No padding: zero is the single digit "0" and a positive number's text
      does not start with '0', so the digits and ParseNumber together fix the
      text of every number. */
  lemma {:induction false} NumberNoLeadingZero(n: nat, base: nat)
    requires 2 <= base <= 16
    ensures n == 0 ==> Number(n, base) == "0"
    ensures n > 0 ==> Number(n, base)[0] != '0'
    decreases n
  {
    if n >= base {
      DivMod(n, base);
      NumberNoLeadingZero(n / base, base);
    }
  }

  /** Distinct numbers are formatted differently. */
  lemma NumberInjective(m: nat, n: nat, base: nat)
    requires 2 <= base <= 16
    requires Number(m, base) == Number(n, base)
    ensures m == n
  {
    ParseNumber(m, base);
    ParseNumber(n, base);
  }
}
