/**
 * Human-readable identifiers: `LN-{branch}-{yy}-{seq:D5}`, `PAY-{yy}-{seq:D6}`,
 * `TXN-{yy}-{seq:D7}` and `SAV-{yy}-{seq:D6}`, where `seq` is a stored count
 * plus one and `D<w>` is .NET's zero-padded decimal format (at least `w`
 * digits, more when the number needs them). The two-digit year is a parameter.
 */
module Codes {
  import opened Domain

  predicate IsDigit(c: char) { '0' as int <= c as int <= '9' as int }

  function DigitChar(d: nat): (c: char)
    requires d < 10
    ensures IsDigit(c) && c as int - '0' as int == d
  {
    ('0' as int + d) as char
  }

  /** Decimal digits of `n`, most significant first, without leading zeros. */
  function NatToDigits(n: nat): (s: string)
    ensures |s| >= 1
    ensures forall i :: 0 <= i < |s| ==> IsDigit(s[i])
    decreases n
  {
    if n < 10 then [DigitChar(n)] else NatToDigits(n / 10) + [DigitChar(n % 10)]
  }

  /** The value of a string of decimal digits. */
  function DigitsValue(s: string): nat
    requires forall i :: 0 <= i < |s| ==> IsDigit(s[i])
  {
    if s == [] then 0
    else
      assert IsDigit(s[|s| - 1]);
      DigitsValue(s[..|s| - 1]) * 10 + (s[|s| - 1] as int - '0' as int)
  }

  function Zeros(k: nat): (z: string)
    ensures |z| == k && forall i :: 0 <= i < k ==> z[i] == '0'
  {
    seq(k, _ => '0')
  }

  /** .NET's `{n:D<width>}`: the digits of `n`, left-padded with zeros to `width`. */
  function FormatD(n: nat, width: nat): (s: string)
    ensures forall i :: 0 <= i < |s| ==> IsDigit(s[i])
  {
    var d := NatToDigits(n);
    if |d| >= width then d else Zeros(width - |d|) + d
  }

  function LoanCode(branchCode: Option<string>, yy: string, branchLoanCount: nat): string
  {
    var b := match branchCode case Some(c) => c case None => "BR";
    "LN-" + b + "-" + yy + "-" + FormatD(branchLoanCount + 1, 5)
  }

  function PaymentCode(yy: string, paymentCount: nat): string
  {
    "PAY-" + yy + "-" + FormatD(paymentCount + 1, 6)
  }

  function TransactionCode(yy: string, savedCount: nat): string
  {
    "TXN-" + yy + "-" + FormatD(savedCount + 1, 7)
  }

  function AccountNumber(yy: string, accountCount: nat): string
  {
    "SAV-" + yy + "-" + FormatD(accountCount + 1, 6)
  }

  lemma {:induction false} DigitsValueSnoc(s: string, c: char)
    requires forall i :: 0 <= i < |s| ==> IsDigit(s[i])
    requires IsDigit(c)
    ensures DigitsValue(s + [c]) == DigitsValue(s) * 10 + (c as int - '0' as int)
  {
    assert (s + [c])[..|s + [c]| - 1] == s;
  }

  /** Parsing the digits back gives the number. */
  lemma {:induction false} NatToDigitsRoundTrip(n: nat)
    ensures DigitsValue(NatToDigits(n)) == n
    decreases n
  {
    if n >= 10 {
      NatToDigitsRoundTrip(n / 10);
      DigitsValueSnoc(NatToDigits(n / 10), DigitChar(n % 10));
    }
  }

  /** Leading zeros do not change the value of a digit string. */
  lemma {:induction false} LeadingZeros(k: nat, s: string)
    requires forall i :: 0 <= i < |s| ==> IsDigit(s[i])
    ensures DigitsValue(Zeros(k) + s) == DigitsValue(s)
    decreases |s|
  {
    var z := Zeros(k);
    if s == [] {
      assert z + s == z;
      AllZeros(k);
    } else {
      var init := s[..|s| - 1];
      assert (z + s)[..|z + s| - 1] == z + init;
      LeadingZeros(k, init);
    }
  }

  lemma {:induction false} AllZeros(k: nat)
    ensures DigitsValue(Zeros(k)) == 0
    decreases k
  {
    if k > 0 {
      assert Zeros(k)[..k - 1] == Zeros(k - 1);
      AllZeros(k - 1);
    }
  }

  /** `FormatD` is undone by reading the digits: the padded code carries its number. */
  lemma FormatDRoundTrip(n: nat, width: nat)
    ensures DigitsValue(FormatD(n, width)) == n
    ensures |FormatD(n, width)| >= width
  {
    NatToDigitsRoundTrip(n);
    var d := NatToDigits(n);
    if |d| < width {
      LeadingZeros(width - |d|, d);
    }
  }

  /** The numbers below 10^w are written with exactly `w` digits. */
  function Pow10(w: nat): nat { if w == 0 then 1 else 10 * Pow10(w - 1) }

  lemma {:induction false} NatToDigitsLength(n: nat, w: nat)
    requires 1 <= w && n < Pow10(w)
    ensures |NatToDigits(n)| <= w
    decreases n
  {
    if n >= 10 {
      NatToDigitsLength(n / 10, w - 1);
    }
  }

  lemma FormatDWidth(n: nat, width: nat)
    requires 1 <= width && n < Pow10(width)
    ensures |FormatD(n, width)| == width
  {
    NatToDigitsLength(n, width);
  }

  /** Two transaction codes of the same year are equal exactly when their counts are. */
  lemma TransactionCodeInjective(yy: string, c1: nat, c2: nat)
    ensures TransactionCode(yy, c1) == TransactionCode(yy, c2) <==> c1 == c2
  {
    SuffixInjective("TXN-" + yy + "-", c1 + 1, c2 + 1, 7);
  }

  /** Two payment codes of the same year are equal exactly when their counts are. */
  lemma PaymentCodeInjective(yy: string, c1: nat, c2: nat)
    ensures PaymentCode(yy, c1) == PaymentCode(yy, c2) <==> c1 == c2
  {
    SuffixInjective("PAY-" + yy + "-", c1 + 1, c2 + 1, 6);
  }

  /** Two savings account numbers of the same year are equal exactly when their counts are. */
  lemma AccountNumberInjective(yy: string, c1: nat, c2: nat)
    ensures AccountNumber(yy, c1) == AccountNumber(yy, c2) <==> c1 == c2
  {
    SuffixInjective("SAV-" + yy + "-", c1 + 1, c2 + 1, 6);
  }

  /** Two loan codes of the same branch code and year are equal exactly when their counts are. */
  lemma LoanCodeInjective(branchCode: Option<string>, yy: string, c1: nat, c2: nat)
    ensures LoanCode(branchCode, yy, c1) == LoanCode(branchCode, yy, c2) <==> c1 == c2
  {
    var b := match branchCode case Some(c) => c case None => "BR";
    assert LoanCode(branchCode, yy, c1) == ("LN-" + b + "-" + yy + "-") + FormatD(c1 + 1, 5);
    assert LoanCode(branchCode, yy, c2) == ("LN-" + b + "-" + yy + "-") + FormatD(c2 + 1, 5);
    SuffixInjective("LN-" + b + "-" + yy + "-", c1 + 1, c2 + 1, 5);
  }

  /** `code` is `prefix` followed by at least `width` characters, all digits, that read back as `n`. */
  predicate ReadsBack(code: string, prefix: string, n: nat, width: nat)
  {
    && |code| >= |prefix| + width
    && code[..|prefix|] == prefix
    && (forall k :: |prefix| <= k < |code| ==> IsDigit(code[k]))
    && DigitsValue(code[|prefix|..]) == n
  }

  /** A code is its prefix followed by at least `width` digits that read back as the number written. */
  lemma CodeReadsBack(prefix: string, n: nat, width: nat)
    ensures ReadsBack(prefix + FormatD(n, width), prefix, n, width)
  {
    var s := prefix + FormatD(n, width);
    assert s[..|prefix|] == prefix;
    assert s[|prefix|..] == FormatD(n, width);
    FormatDRoundTrip(n, width);
  }

  lemma SuffixInjective(prefix: string, n1: nat, n2: nat, width: nat)
    ensures prefix + FormatD(n1, width) == prefix + FormatD(n2, width) <==> n1 == n2
  {
    if prefix + FormatD(n1, width) == prefix + FormatD(n2, width) {
      var a, b := prefix + FormatD(n1, width), prefix + FormatD(n2, width);
      assert a[|prefix|..] == FormatD(n1, width);
      assert b[|prefix|..] == FormatD(n2, width);
      FormatDRoundTrip(n1, width);
      FormatDRoundTrip(n2, width);
    }
  }

  lemma LoanCodeExample()
    ensures LoanCode(None, "26", 41) == "LN-BR-26-00042"
  {
    assert NatToDigits(42) == "42";
  }
}
