/**
 Timestamps of the HTTP interface: the 30-byte form with the fraction cut after zero to nine
 digits. Reading pads the fraction in a local copy and then reads the 30-byte form.
 */
module HttpTimestamp {
  import opened Wrappers
  import opened Text
  import opened Timestamp

  function Zeros(n: nat): (s: string)
    ensures |s| == n && forall i :: 0 <= i < n ==> s[i] == '0'
  {
    seq(n, i => '0')
  }

  /** A 30-byte text with only the first `digits` digits of its fraction, and no point if there are none. */
  function Abbreviated(text: string, digits: nat): string
    requires |text| == 30 && digits <= 9
  {
    (if digits == 0 then text[..19] else text[..20 + digits]) + "Z"
  }

  /** The 30-byte text a shorter one stands for; other texts stay as they are. */
  function Padded(value: string): string {
    if |value| == 20 && value[19] == 'Z' then value[..19] + "." + Zeros(9) + "Z"
    else if 22 <= |value| <= 30 && value[19] == '.' && value[|value| - 1] == 'Z'
    then value[..|value| - 1] + Zeros(30 - |value|) + "Z"
    else value
  }

  /** `parse_http_timestamp`. */
  method ParseHttp(value: string) returns (result: Result<Instant, TimestampError>)
    ensures result == Parse(Padded(value))
  {
    var text := value;
    if |text| == 20 && text[|text| - 1] == 'Z' {
      text := text[..19] + ".000000000" + text[19..];
      assert ".000000000" == "." + Zeros(9);
      assert text == Padded(value);
    } else if |text| >= 22 && |text| <= 30 && text[19] == '.' && text[|text| - 1] == 'Z' {
      var fractionalDigits := |text| - 21;
      text := text[..|text| - 1] + Zeros(9 - fractionalDigits) + text[|text| - 1..];
      assert text == Padded(value);
    }
    result := Parse(text);
  }

  /** Dropping zeros at the end of the fraction, or the whole zero fraction, loses nothing. */
  lemma PadAbbreviated(text: string, digits: nat)
    requires Shaped(text) && digits <= 9
    requires forall i :: 20 + digits <= i < 29 ==> text[i] == '0'
    ensures Padded(Abbreviated(text, digits)) == text
  {
    var value := Abbreviated(text, digits);
    assert text == text[..20 + digits] + text[20 + digits..29] + "Z";
    assert text[20 + digits..29] == Zeros(9 - digits);
    if digits == 0 {
      assert value[..19] == text[..19] && text[..20] == text[..19] + ".";
      assert Padded(value) == text[..19] + "." + Zeros(9) + "Z";
    } else {
      assert value[..|value| - 1] == text[..20 + digits];
    }
  }

  /** What the interface prints, with any number of trailing zeros of the fraction dropped, reads as the same instant. */
  lemma ReadAbbreviated(t: Instant, digits: nat)
    requires Printable(t) && digits <= 9
    ensures Print(t).Success? && |Print(t).value| == 30
    ensures (forall i :: 20 + digits <= i < 29 ==> Print(t).value[i] == '0')
            ==> Parse(Padded(Abbreviated(Print(t).value, digits))) == Success(t)
  {
    PrintDefined(t);
    ParsePrint(t);
    if forall i :: 20 + digits <= i < 29 ==> Print(t).value[i] == '0' {
      PadAbbreviated(Print(t).value, digits);
    }
  }

  /** A text of any other length is refused. */
  lemma LengthsRead(value: string)
    requires |value| < 20 || |value| == 21 || |value| > 30
    ensures Parse(Padded(value)) == Failure(Malformed)
  {
    assert Padded(value) == value;
  }

  lemma Scale(v: nat, power: nat)
    ensures 10 * (v * power) == v * (10 * power)
  {
  }

  lemma {:induction false} ScaledValue(s: string, zeros: nat)
    requires AllDigits(s)
    ensures AllDigits(s + Zeros(zeros)) && DecimalValue(s + Zeros(zeros)) == DecimalValue(s) * Pow10(zeros)
    decreases zeros
  {
    var padded := s + Zeros(zeros);
    if zeros == 0 {
      assert padded == s;
    } else {
      ScaledValue(s, zeros - 1);
      var init := s + Zeros(zeros - 1);
      assert padded == init + "0" && padded[..|padded| - 1] == init;
      assert DecimalValue(padded) == 10 * DecimalValue(init);
      Scale(DecimalValue(s), Pow10(zeros - 1));
    }
  }

  lemma PaddedFraction(value: string)
    requires 22 <= |value| <= 30 && value[19] == '.' && value[|value| - 1] == 'Z'
    ensures |Padded(value)| == 30
    ensures Padded(value)[20..29] == value[20..|value| - 1] + Zeros(30 - |value|)
    ensures Padded(value)[..19] == value[..19]
  {
    var zeros := Zeros(30 - |value|);
    assert value[..|value| - 1] == value[..20] + value[20..|value| - 1];
    assert Padded(value) == value[..20] + (value[20..|value| - 1] + zeros) + "Z";
  }

  /** A fraction of `d` digits counts units of 10^(9-d) nanoseconds; what precedes it is kept. */
  lemma FractionValue(value: string)
    requires 22 <= |value| <= 30 && value[19] == '.' && value[|value| - 1] == 'Z'
    requires AllDigits(value[20..|value| - 1])
    ensures |Padded(value)| == 30 && Padded(value)[..19] == value[..19]
    ensures var nano := CutFields(Padded(value)).nano;
      AllDigits(nano) && DecimalValue(nano) == DecimalValue(value[20..|value| - 1]) * Pow10(30 - |value|)
  {
    PaddedFraction(value);
    ScaledValue(value[20..|value| - 1], 30 - |value|);
  }
}
