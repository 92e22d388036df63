/** Decimal rendering of integers, as Go's `strconv.Itoa` writes them:
    an optional '-' followed by the digits, with no leading zeros. */
module Decimal {

  function DigitChar(d: nat): (c: char)
    requires d < 10
    ensures '0' <= c <= '9'
    ensures c as int - '0' as int == d
  {
    ('0' as int + d) as char
  }

  predicate IsDigit(c: char) {
    '0' <= c <= '9'
  }

  /** The number a string of decimal digits spells, most significant first. */
  function DigitsValue(s: string): int {
    if s == [] then 0 else DigitsValue(s[..|s| - 1]) * 10 + (s[|s| - 1] as int - '0' as int)
  }

  /** The decimal digits of a natural number, most significant first. */
  function NatDigits(n: nat): (s: string)
    ensures |s| >= 1
    ensures forall i :: 0 <= i < |s| ==> IsDigit(s[i])
    ensures n < 10 <==> |s| == 1
    decreases n
  {
    if n < 10 then [DigitChar(n)] else NatDigits(n / 10) + [DigitChar(n % 10)]
  }

  /** `strconv.Itoa`: the digits of the magnitude, after a '-' exactly for
      negative numbers. */
  function Itoa(n: int): (s: string)
    ensures |s| >= 1
    ensures n < 0 <==> s[0] == '-'
  {
    if n < 0 then "-" + NatDigits(-n) else NatDigits(n)
  }

  /** The digits spell the number back, and there is no leading zero. */
  lemma {:induction false} NatDigitsValue(n: nat)
    ensures DigitsValue(NatDigits(n)) == n
    ensures |NatDigits(n)| > 1 ==> NatDigits(n)[0] != '0'
    decreases n
  {
    var s := NatDigits(n);
    if n < 10 {
      assert s[..0] == [];
    } else {
      var prefix := NatDigits(n / 10);
      NatDigitsValue(n / 10);
      assert s == prefix + [DigitChar(n % 10)];
      assert s[..|s| - 1] == prefix;
      assert prefix[0] != '0' by {
        if |prefix| == 1 {
          assert prefix[..0] == [];
        }
      }
    }
  }

  /** `Itoa` of a non-negative number spells it; of a negative number, the
      digits after the sign spell its magnitude. */
  lemma ItoaValue(n: int)
    ensures n >= 0 ==> DigitsValue(Itoa(n)) == n
    ensures n < 0 ==> DigitsValue(Itoa(n)[1..]) == -n
  {
    if n < 0 {
      assert Itoa(n)[1..] == NatDigits(-n);
      NatDigitsValue(-n);
    } else {
      NatDigitsValue(n);
    }
  }

  /** Distinct integers have distinct decimal strings, so a map keyed by
      `Itoa` of a number is in effect keyed by the number. */
  lemma ItoaInjective(a: int, b: int)
    requires Itoa(a) == Itoa(b)
    ensures a == b
  {
    ItoaValue(a);
    ItoaValue(b);
    if a < 0 {
      assert Itoa(a)[1..] == Itoa(b)[1..];
    }
  }

  /** The decimal strings of the port numbers used in the examples. */
  lemma ItoaExamples()
    ensures Itoa(80) == "80" && Itoa(443) == "443" && Itoa(8080) == "8080"
  {
    assert NatDigits(8) == "8" && NatDigits(4) == "4";
    assert NatDigits(80) == "80";
    assert NatDigits(44) == "44";
    assert NatDigits(443) == "443";
    assert NatDigits(808) == "808";
    assert NatDigits(8080) == "8080";
  }
}
