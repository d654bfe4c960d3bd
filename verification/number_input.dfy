/** The numeric input validator of the sample script: a line longer than five
    characters is refused first, then the line must consist of one to five
    decimal digits, and is then read as a non-negative number. */
module NumberInput {

  /** Either the number read from the line, or the message of the
      `ValueError` that refused it. */
  datatype Outcome = Number(value: nat) | Rejected(reason: string)

  /** The longest line the length check lets through. */
  const MaxLength: nat := 5

  const TooLong: string := "Input too long"
  const BadFormat: string := "Invalid input format"

  /** What the script prints before the message of a refused line. */
  const RejectionPrefix: string := "Invalid input: "

  predicate IsDigit(c: char) {
    '0' <= c <= '9'
  }

  predicate AllDigits(s: string) {
    forall i :: 0 <= i < |s| ==> IsDigit(s[i])
  }

  /** `re.fullmatch(r"\d{1,5}", s)` succeeds. */
  predicate MatchesDigitPattern(s: string) {
    1 <= |s| <= MaxLength && AllDigits(s)
  }

  function Pow10(k: nat): (p: nat)
    ensures p >= 1
  {
    if k == 0 then 1 else 10 * Pow10(k - 1)
  }

  lemma {:induction false} Pow10Monotone(j: nat, k: nat)
    requires j <= k
    ensures Pow10(j) <= Pow10(k)
  {
    if j < k {
      Pow10Monotone(j, k - 1);
    }
  }

  function DigitValue(c: char): (d: nat)
    requires IsDigit(c)
    ensures d <= 9
  {
    c as int - '0' as int
  }

  /** `int(s)` for a string of decimal digits: leading zeros are allowed and
      the value is below ten to the number of digits. */
  function DecimalValue(s: string): (n: nat)
    requires AllDigits(s)
    ensures n < Pow10(|s|)
  {
    if s == [] then 0 else 10 * DecimalValue(s[..|s| - 1]) + DigitValue(s[|s| - 1])
  }

  /** The validator: the length check comes first, then the pattern, then the
      conversion. A line is accepted exactly when it is one to five digits,
      and an accepted value lies between 0 and 99999. */
  function Validate(input: string): (r: Outcome)
    ensures |input| > MaxLength ==> r == Rejected(TooLong)
    ensures |input| <= MaxLength ==> (r.Number? <==> MatchesDigitPattern(input))
    ensures |input| <= MaxLength && !MatchesDigitPattern(input) ==> r == Rejected(BadFormat)
    ensures r.Number? ==> r.value <= 99999
  {
    if |input| > MaxLength then
      Rejected(TooLong)
    else if !MatchesDigitPattern(input) then
      Rejected(BadFormat)
    else
      Pow10Monotone(|input|, MaxLength);
      Number(DecimalValue(input))
  }

  /** `str(n)`: the decimal digits of `n` without leading zeros. */
  function DecimalString(n: nat): (s: string)
    ensures |s| >= 1 && AllDigits(s)
    ensures s[0] == '0' ==> n == 0 && |s| == 1
  {
    if n < 10 then [('0' as int + n) as char]
    else DecimalString(n / 10) + [('0' as int + n % 10) as char]
  }

  /** The line the script prints for an input line: the number it read, or
      the refusal with its message. */
  function Report(input: string): (line: string)
    ensures Validate(input).Rejected? ==> line == RejectionPrefix + Validate(input).reason
    ensures Validate(input).Number? ==> line == DecimalString(Validate(input).value)
  {
    match Validate(input)
    case Number(n) => DecimalString(n)
    case Rejected(reason) => RejectionPrefix + reason
  }

  /** Reading back the decimal digits of a number gives the number. */
  lemma {:induction false} DecimalValueOfString(n: nat)
    ensures DecimalValue(DecimalString(n)) == n
  {
    if n >= 10 {
      DecimalValueOfString(n / 10);
      var s := DecimalString(n);
      assert s[..|s| - 1] == DecimalString(n / 10);
    }
  }

  /** A number has at most as many digits as the power of ten above it allows. */
  lemma {:induction false} DecimalStringLength(n: nat, k: nat)
    requires n < Pow10(k)
    ensures |DecimalString(n)| <= k || (n < 10 && k == 0)
  {
    if n >= 10 {
      assert k >= 1;
      DecimalStringLength(n / 10, k - 1);
    }
  }

  /** Every number the validator can accept survives printing and
      re-validation: the validator and `str` are inverse on 0..99999. */
  lemma ValidateDecimalString(n: nat)
    requires n <= 99999
    ensures Validate(DecimalString(n)) == Number(n)
  {
    assert Pow10(5) == 100000;
    DecimalStringLength(n, 5);
    DecimalValueOfString(n);
  }

  /** A zero written in front of the digits does not change the value. */
  lemma {:induction false} LeadingZeroIgnored(s: string)
    requires AllDigits(s)
    ensures AllDigits("0" + s) && DecimalValue("0" + s) == DecimalValue(s)
  {
    if s != [] {
      var t := "0" + s;
      assert t[..|t| - 1] == "0" + s[..|s| - 1];
      LeadingZeroIgnored(s[..|s| - 1]);
    }
  }

  /** `k` zero digits. */
  function Zeros(k: nat): (z: string) {
    seq(k, _ => '0')
  }

  /** Any number of zeros written in front of the digits leaves the value as
      it is. */
  lemma {:induction false} LeadingZerosIgnored(k: nat, s: string)
    requires AllDigits(s)
    ensures AllDigits(Zeros(k) + s) && DecimalValue(Zeros(k) + s) == DecimalValue(s)
  {
    if k > 0 {
      LeadingZerosIgnored(k - 1, s);
      LeadingZeroIgnored(Zeros(k - 1) + s);
      assert Zeros(k) + s == "0" + (Zeros(k - 1) + s);
    } else {
      assert Zeros(k) + s == s;
    }
  }

  /** A number padded with leading zeros to at most five characters is
      accepted as that number. */
  lemma AcceptsZeroPaddedNumber(k: nat, n: nat)
    requires k + |DecimalString(n)| <= MaxLength
    ensures Validate(Zeros(k) + DecimalString(n)) == Number(n)
  {
    LeadingZerosIgnored(k, DecimalString(n));
    DecimalValueOfString(n);
  }

  /** Digits whose value is zero are all zeros. */
  lemma {:induction false} ZeroValueIsZeros(t: string)
    requires AllDigits(t) && DecimalValue(t) == 0
    ensures t == Zeros(|t|)
  {
    if t != [] {
      var init := t[..|t| - 1];
      ZeroValueIsZeros(init);
      assert t == init + [t[|t| - 1]];
    }
  }

  /** Every non-empty digit string is its value printed in decimal, with
      zeros in front. */
  lemma {:induction false} DigitsArePaddedDecimal(s: string)
    requires |s| >= 1 && AllDigits(s)
    ensures |DecimalString(DecimalValue(s))| <= |s|
    ensures s == Zeros(|s| - |DecimalString(DecimalValue(s))|) + DecimalString(DecimalValue(s))
  {
    var init, last := s[..|s| - 1], s[|s| - 1];
    assert s == init + [last];
    var m := DecimalValue(init);
    if m == 0 {
      ZeroValueIsZeros(init);
    } else {
      DigitsArePaddedDecimal(init);
      var n := DecimalValue(s);
      assert n / 10 == m && n % 10 == DigitValue(last);
      assert DecimalString(n) == DecimalString(m) + [last];
    }
  }

  /** The other half of the round trip: an accepted line is its number printed
      in decimal with leading zeros, so the only thing printing loses is the
      padding. */
  lemma AcceptedIsPaddedDecimal(s: string)
    requires Validate(s).Number?
    ensures |DecimalString(Validate(s).value)| <= |s|
    ensures s == Zeros(|s| - |DecimalString(Validate(s).value)|) + DecimalString(Validate(s).value)
  {
    DigitsArePaddedDecimal(s);
  }

  /** An accepted line is read as the decimal value of its digits, leading
      zeros included: "007" is 7 and is printed as "7". */
  lemma LeadingZerosExample()
    ensures Validate("007") == Number(7)
    ensures Report("007") == "7"
  {
    LeadingZeroIgnored("7");
    LeadingZeroIgnored("07");
    assert "0" + "7" == "07";
    assert "0" + "07" == "007";
  }

  /** A refused line never prints a number: its output starts with the refusal
      text, which is not a digit. */
  lemma RejectionPrintsNoNumber(input: string)
    requires Validate(input).Rejected?
    ensures |Report(input)| > |RejectionPrefix|
    ensures Report(input)[..|RejectionPrefix|] == RejectionPrefix
    ensures !AllDigits(Report(input))
  {
    var line := Report(input);
    assert line[0] == 'I';
  }

  /** The length check comes first: a long line is refused for its length even
      when it is not made of digits, and even when it is. */
  lemma LengthCheckedFirst(input: string)
    requires |input| > MaxLength
    ensures Report(input) == RejectionPrefix + TooLong
  {
  }
}
