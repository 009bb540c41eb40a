/**
 The 30-byte UTC timestamp of section 5.6 of RFC 3339, the form in which every stored
 document keeps its times. Instants are signed 64-bit nanosecond counts; the arithmetic
 that C++ leaves undefined on overflow is the `Overflow` error.
 */
module Timestamp {
  import opened Wrappers
  import opened Text
  import opened Calendar

  const INT64_MIN := -0x8000_0000_0000_0000
  const INT64_MAX := 0x7FFF_FFFF_FFFF_FFFF
  const SECOND := 1_000_000_000
  const DAY := 86_400_000_000_000

  type Instant = t: int | INT64_MIN <= t <= INT64_MAX

  datatype TimestampError = Malformed | OutOfRange | Overflow

  datatype Fields = Fields(date: Date, hour: int, minute: int, second: int, nano: int)

  predicate ValidFields(f: Fields) {
    && Ok(f.date) && 0 <= f.date.year <= 9999
    && 0 <= f.hour <= 23 && 0 <= f.minute <= 59 && 0 <= f.second <= 59
    && 0 <= f.nano < SECOND
  }

  function SecondsOf(date: Date, hour: int, minute: int, second: int): int
    requires Ok(date)
  {
    DayNumber(date) * 86400 + hour * 3600 + minute * 60 + second
  }

  function TimeOf(f: Fields): int
    requires Ok(f.date)
  {
    SecondsOf(f.date, f.hour, f.minute, f.second) * SECOND + f.nano
  }

  lemma Clock(seconds: int)
    requires 0 <= seconds < 86400
    ensures 0 <= seconds / 3600 <= 23
    ensures seconds == seconds / 3600 * 3600 + seconds / 60 % 60 * 60 + seconds % 60
  {
  }

  /** `floor<days>` and `hh_mm_ss`. */
  function FieldsOf(t: int): (f: Fields)
    ensures Ok(f.date) && TimeOf(f) == t
    ensures 0 <= f.hour <= 23 && 0 <= f.minute <= 59 && 0 <= f.second <= 59 && 0 <= f.nano < SECOND
  {
    var days, rest := t / DAY, t % DAY;
    var seconds, nano := rest / SECOND, rest % SECOND;
    Clock(seconds);
    assert t == (days * 86400 + seconds) * SECOND + nano;
    Fields(DateOf(days), seconds / 3600, seconds / 60 % 60, seconds % 60, nano)
  }

  function Midnight(t: int): int {
    t / DAY * DAY
  }

  /** The instants whose UTC midnight is representable too: the printer subtracts it. */
  predicate Printable(t: int) {
    INT64_MIN <= Midnight(t) && t <= INT64_MAX
  }

  function FormatYear(year: int): string {
    if year >= 0 then Decimal(year, 4) else "-" + Decimal(-year, 3)
  }

  function FormatTime(f: Fields): string
    requires f.hour >= 0 && f.minute >= 0 && f.second >= 0 && f.nano >= 0
  {
    Decimal(f.hour, 2) + ":" + (Decimal(f.minute, 2) + ":" + (Decimal(f.second, 2) + "." + (Decimal(f.nano, 9) + "Z")))
  }

  function Format(f: Fields): string
    requires f.date.month >= 0 && f.date.day >= 0
    requires f.hour >= 0 && f.minute >= 0 && f.second >= 0 && f.nano >= 0
  {
    FormatYear(f.date.year) + "-" + (Decimal(f.date.month, 2) + "-" + (Decimal(f.date.day, 2) + "T" + FormatTime(f)))
  }

  /** `reservation_timestamp_to_string`. */
  function Print(t: Instant): Result<string, TimestampError> {
    if Midnight(t) < INT64_MIN then Failure(Overflow)
    else
      var text := Format(FieldsOf(t));
      if |text| != 30 then Failure(OutOfRange) else Success(text)
  }

  /** `std::from_chars` on a whole field: a minus sign is accepted, a plus sign is not. */
  function FromChars(s: string): Option<int> {
    if s != "" && AllDigits(s) then Some(DecimalValue(s))
    else if |s| > 1 && s[0] == '-' && AllDigits(s[1..]) then Some(0 - DecimalValue(s[1..]))
    else None
  }

  predicate Shaped(text: string) {
    && |text| == 30 && text[4] == '-' && text[7] == '-' && text[10] == 'T'
    && text[13] == ':' && text[16] == ':' && text[19] == '.' && text[29] == 'Z'
  }

  /** The seven fields cut out of a text of the right shape. */
  datatype Cut = Cut(year: string, month: string, day: string, hour: string, minute: string, second: string, nano: string)

  function CutFields(text: string): Cut
    requires |text| == 30
  {
    Cut(text[0..4], text[5..7], text[8..10], text[11..13], text[14..16], text[17..19], text[20..29])
  }

  /** `month` and `day` keep eight bits of the number they are built from. */
  function ReadFields(cut: Cut): Option<Fields> {
    var year, month, day := FromChars(cut.year), FromChars(cut.month), FromChars(cut.day);
    var hour, minute, second, nano := FromChars(cut.hour), FromChars(cut.minute), FromChars(cut.second), FromChars(cut.nano);
    if year.Some? && month.Some? && day.Some? && hour.Some? && minute.Some? && second.Some? && nano.Some?
    then Some(Fields(Date(year.value, month.value % 256, day.value % 256),
                     hour.value, minute.value, second.value, nano.value))
    else None
  }

  function ParseFields(text: string): Option<Fields> {
    if Shaped(text) then ReadFields(CutFields(text)) else None
  }

  predicate DigitCut(cut: Cut) {
    && AllDigits(cut.year) && AllDigits(cut.month) && AllDigits(cut.day) && AllDigits(cut.hour)
    && AllDigits(cut.minute) && AllDigits(cut.second) && AllDigits(cut.nano)
  }

  function DecimalCut(f: Fields): Cut
    requires ValidFields(f)
  {
    Cut(Decimal(f.date.year, 4), Decimal(f.date.month, 2), Decimal(f.date.day, 2), Decimal(f.hour, 2),
        Decimal(f.minute, 2), Decimal(f.second, 2), Decimal(f.nano, 9))
  }

  /** The range checks and the sum of the parts, whose seconds are scaled to nanoseconds before the last addition. */
  function Assemble(f: Fields): Result<Instant, TimestampError> {
    if !Ok(f.date) || f.hour > 23 || f.minute > 59 || f.second > 59 then Failure(Malformed)
    else
      var seconds := SecondsOf(f.date, f.hour, f.minute, f.second) * SECOND;
      if INT64_MIN <= seconds <= INT64_MAX && INT64_MIN <= seconds + f.nano <= INT64_MAX
      then Success(seconds + f.nano) else Failure(Overflow)
  }

  /** `reservation_timestamp_from_string`. */
  function Parse(text: string): Result<Instant, TimestampError> {
    match ParseFields(text)
    case Some(f) => Assemble(f)
    case None => Failure(Malformed)
  }

  /** Every one of the seven numeric fields consists of digits. */
  predicate DigitFields(text: string)
    requires |text| == 30
  {
    DigitCut(CutFields(text))
  }

  // ----- Fields and instants -----

  lemma FieldsOfTime(f: Fields)
    requires ValidFields(f)
    ensures FieldsOf(TimeOf(f)) == f
  {
    var day := DayNumber(f.date);
    var seconds := f.hour * 3600 + f.minute * 60 + f.second;
    var t := TimeOf(f);
    assert t == day * DAY + (seconds * SECOND + f.nano);
    assert t / DAY == day && t % DAY == seconds * SECOND + f.nano;
    assert t % DAY / SECOND == seconds;
    DateOfDayNumber(f.date);
  }

  predicate FieldsLess(a: Fields, b: Fields) {
    DateLess(a.date, b.date) || (a.date == b.date &&
    (a.hour < b.hour || (a.hour == b.hour &&
    (a.minute < b.minute || (a.minute == b.minute &&
    (a.second < b.second || (a.second == b.second && a.nano < b.nano)))))))
  }

  lemma FieldsOrder(a: Fields, b: Fields)
    requires ValidFields(a) && ValidFields(b)
    ensures TimeOf(a) < TimeOf(b) <==> FieldsLess(a, b)
  {
    DayOrder(a.date, b.date);
    DayOrder(b.date, a.date);
  }

  /** Every 64-bit instant falls in the years 1677 to 2262. */
  lemma YearsOfInstants(t: Instant)
    ensures 1677 <= FieldsOf(t).date.year <= 2262
  {
    var date := FieldsOf(t).date;
    assert DayNumber(date) == t / DAY;
    assert -106752 <= t / DAY <= 106751;
    DayWithinYear(date);
    if date.year < 1677 { YearsMonotone(date.year, 1677); }
    if date.year > 2262 { YearsMonotone(2262, date.year); }
  }

  // ----- The text of valid fields -----

  lemma FieldRead(v: nat, width: nat, limit: nat)
    requires width in {2, 4, 9} && limit == (if width == 2 then 100 else if width == 4 then 10_000 else SECOND)
    requires v < limit
    ensures FromChars(Decimal(v, width)) == Some(v) && AllDigits(Decimal(v, width)) && |Decimal(v, width)| == width
  {
    Powers();
    DecimalRoundTrip(v, width);
  }

  lemma Peel(head: string, separator: char, tail: string)
    ensures var whole := head + [separator] + tail;
      && |whole| == |head| + 1 + |tail| && whole[0..|head|] == head && whole[|head|] == separator
      && forall i, j | 0 <= i <= j <= |tail| :: whole[|head| + 1 + i..|head| + 1 + j] == tail[i..j]
  {
    var whole := head + [separator] + tail;
    assert whole[0..|head|] == head;
  }

  lemma TimeTexts(f: Fields)
    requires ValidFields(f)
    ensures var text := FormatTime(f);
      && |text| == 19 && text[2] == ':' && text[5] == ':' && text[8] == '.' && text[18] == 'Z'
      && text[0..2] == Decimal(f.hour, 2) && text[3..5] == Decimal(f.minute, 2)
      && text[6..8] == Decimal(f.second, 2) && text[9..18] == Decimal(f.nano, 9)
  {
    FieldRead(f.hour, 2, 100);
    FieldRead(f.minute, 2, 100);
    FieldRead(f.second, 2, 100);
    FieldRead(f.nano, 9, SECOND);
    TimeCut(Decimal(f.hour, 2), Decimal(f.minute, 2), Decimal(f.second, 2), Decimal(f.nano, 9));
  }

  lemma TimeCut(hour: string, minute: string, second: string, nano: string)
    requires |hour| == |minute| == |second| == 2 && |nano| == 9
    ensures var text := hour + ":" + (minute + ":" + (second + "." + (nano + "Z")));
      && |text| == 19 && text[2] == ':' && text[5] == ':' && text[8] == '.' && text[18] == 'Z'
      && text[0..2] == hour && text[3..5] == minute && text[6..8] == second && text[9..18] == nano
  {
  }

  lemma FieldTexts(f: Fields)
    requires ValidFields(f)
    ensures Shaped(Format(f)) && CutFields(Format(f)) == DecimalCut(f)
  {
    Powers();
    DecimalRoundTrip(f.date.year, 4);
    DecimalRoundTrip(f.date.month, 2);
    DecimalRoundTrip(f.date.day, 2);
    TimeTexts(f);
    var time := FormatTime(f);
    var day := Decimal(f.date.day, 2) + "T" + time;
    var month := Decimal(f.date.month, 2) + "-" + day;
    Peel(Decimal(f.date.day, 2), 'T', time);
    Peel(Decimal(f.date.month, 2), '-', day);
    Peel(Decimal(f.date.year, 4), '-', month);
    var text := Format(f);
    assert text == Decimal(f.date.year, 4) + "-" + month;
    assert forall k | 0 <= k < |month| :: text[5 + k] == month[k];
    assert forall k | 0 <= k < |day| :: text[8 + k] == day[k];
    assert forall k | 0 <= k < |time| :: text[11 + k] == time[k];
    assert text[11..13] == time[0..2] && text[14..16] == time[3..5];
    assert text[17..19] == time[6..8] && text[20..29] == time[9..18];
  }

  lemma FieldsRead(f: Fields, cut: Cut)
    requires FromChars(cut.year) == Some(f.date.year) && FromChars(cut.month) == Some(f.date.month)
    requires FromChars(cut.day) == Some(f.date.day) && FromChars(cut.hour) == Some(f.hour)
    requires FromChars(cut.minute) == Some(f.minute) && FromChars(cut.second) == Some(f.second)
    requires FromChars(cut.nano) == Some(f.nano)
    requires 0 <= f.date.month < 256 && 0 <= f.date.day < 256
    ensures ReadFields(cut) == Some(f)
  {
  }

  lemma ReadCut(f: Fields)
    requires ValidFields(f)
    ensures ReadFields(DecimalCut(f)) == Some(f) && DigitCut(DecimalCut(f))
  {
    var cut := DecimalCut(f);
    FieldRead(f.date.year, 4, 10_000);
    FieldRead(f.date.month, 2, 100);
    FieldRead(f.date.day, 2, 100);
    FieldRead(f.hour, 2, 100);
    FieldRead(f.minute, 2, 100);
    FieldRead(f.second, 2, 100);
    FieldRead(f.nano, 9, SECOND);
    FieldsRead(f, cut);
  }

  /** Reading the text of valid fields gives the fields back, each of them written in digits. */
  lemma ParseFieldsFormat(f: Fields)
    requires ValidFields(f)
    ensures Shaped(Format(f)) && DigitFields(Format(f)) && ParseFields(Format(f)) == Some(f)
  {
    FieldTexts(f);
    ReadCut(f);
  }

  lemma Powers()
    ensures Pow10(2) == 100 && Pow10(4) == 10_000 && Pow10(9) == SECOND
  {
    assert Pow10(2) == 10 * Pow10(1) && Pow10(1) == 10 * Pow10(0);
    assert Pow10(4) == 10 * Pow10(3) && Pow10(3) == 10 * Pow10(2);
    assert Pow10(9) == 10 * Pow10(8) && Pow10(8) == 10 * Pow10(7) && Pow10(7) == 10 * Pow10(6);
    assert Pow10(6) == 10 * Pow10(5) && Pow10(5) == 10 * Pow10(4);
  }

  lemma HeadLess(a: string, b: string, separator: char, x: string, y: string)
    requires |a| == |b| && AllDigits(a) && AllDigits(b)
    ensures Less(a + [separator] + x, b + [separator] + y)
            <==> DecimalValue(a) < DecimalValue(b) || (DecimalValue(a) == DecimalValue(b) && Less(x, y))
  {
    DigitsOrder(a, b);
    ConcatLess(a, b, [separator], [separator]);
    ConcatLess(a + [separator], b + [separator], x, y);
    assert !Less([separator], [separator]);
    assert (a + [separator])[..|a|] == a && (b + [separator])[..|b|] == b;
  }

  /** Splits the order of two field texts at a separator. */
  lemma FieldLess(v: nat, w: nat, width: nat, separator: char, x: string, y: string)
    requires 1 <= width && v < Pow10(width) && w < Pow10(width)
    ensures Less(Decimal(v, width) + [separator] + x, Decimal(w, width) + [separator] + y)
            <==> v < w || (v == w && Less(x, y))
  {
    DecimalRoundTrip(v, width);
    DecimalRoundTrip(w, width);
    HeadLess(Decimal(v, width), Decimal(w, width), separator, x, y);
  }

  lemma TimeTextOrder(a: Fields, b: Fields)
    requires ValidFields(a) && ValidFields(b)
    ensures Less(FormatTime(a), FormatTime(b)) <==>
      (a.hour < b.hour || (a.hour == b.hour &&
      (a.minute < b.minute || (a.minute == b.minute &&
      (a.second < b.second || (a.second == b.second && a.nano < b.nano))))))
  {
    Powers();
    FieldLess(a.nano, b.nano, 9, 'Z', "", "");
    assert Decimal(a.nano, 9) + "Z" + "" == Decimal(a.nano, 9) + "Z";
    assert Decimal(b.nano, 9) + "Z" + "" == Decimal(b.nano, 9) + "Z";
    var nanoA, nanoB := Decimal(a.nano, 9) + "Z", Decimal(b.nano, 9) + "Z";
    FieldLess(a.second, b.second, 2, '.', nanoA, nanoB);
    var secondA, secondB := Decimal(a.second, 2) + "." + nanoA, Decimal(b.second, 2) + "." + nanoB;
    FieldLess(a.minute, b.minute, 2, ':', secondA, secondB);
    FieldLess(a.hour, b.hour, 2, ':', Decimal(a.minute, 2) + ":" + secondA, Decimal(b.minute, 2) + ":" + secondB);
  }

  /** Byte order of the texts of valid fields is the order of the instants they denote. */
  lemma TextOrder(a: Fields, b: Fields)
    requires ValidFields(a) && ValidFields(b)
    ensures Less(Format(a), Format(b)) <==> TimeOf(a) < TimeOf(b)
  {
    Powers();
    TimeTextOrder(a, b);
    FieldsOrder(a, b);
    var timeA, timeB := FormatTime(a), FormatTime(b);
    FieldLess(a.date.day, b.date.day, 2, 'T', timeA, timeB);
    var dayA, dayB := Decimal(a.date.day, 2) + "T" + timeA, Decimal(b.date.day, 2) + "T" + timeB;
    FieldLess(a.date.month, b.date.month, 2, '-', dayA, dayB);
    var monthA, monthB := Decimal(a.date.month, 2) + "-" + dayA, Decimal(b.date.month, 2) + "-" + dayB;
    FieldLess(a.date.year, b.date.year, 4, '-', monthA, monthB);
  }

  // ----- The codec -----

  /** Printing succeeds exactly on the printable instants, always with 30 bytes of digits and separators. */
  lemma PrintDefined(t: Instant)
    ensures Print(t).Success? <==> Printable(t)
    ensures Print(t).Failure? ==> Print(t).error == Overflow
    ensures Printable(t) ==> ValidFields(FieldsOf(t)) && Print(t) == Success(Format(FieldsOf(t)))
    ensures Printable(t) ==> Shaped(Print(t).value) && DigitFields(Print(t).value)
  {
    YearsOfInstants(t);
    ParseFieldsFormat(FieldsOf(t));
  }

  lemma AssembleFields(t: Instant)
    requires Printable(t)
    ensures Assemble(FieldsOf(t)) == Success(t)
  {
    var f := FieldsOf(t);
    var seconds := SecondsOf(f.date, f.hour, f.minute, f.second);
    assert t == seconds * SECOND + f.nano;
    assert DayNumber(f.date) == t / DAY;
    assert Midnight(t) == DayNumber(f.date) * DAY;
    assert Midnight(t) <= seconds * SECOND <= t;
  }

  /** Parsing undoes printing. */
  lemma ParsePrint(t: Instant)
    requires Printable(t)
    ensures Print(t).Success? && Parse(Print(t).value) == Success(t)
  {
    PrintDefined(t);
    ParseFieldsFormat(FieldsOf(t));
    AssembleFields(t);
  }

  /** Section 5.1 of RFC 3339: the stored texts sort as strings the way the instants sort in time. */
  lemma PrintOrder(s: Instant, t: Instant)
    requires Printable(s) && Printable(t)
    ensures Print(s).Success? && Print(t).Success?
    ensures Less(Print(s).value, Print(t).value) <==> s < t
  {
    PrintDefined(s);
    PrintDefined(t);
    TextOrder(FieldsOf(s), FieldsOf(t));
  }

  lemma DigitRead(s: string)
    requires AllDigits(s) && s != ""
    ensures FromChars(s) == Some(DecimalValue(s)) && DecimalValue(s) < Pow10(|s|)
    ensures Decimal(DecimalValue(s), |s|) == s
  {
    DecimalOfValue(s);
  }

  function ValueFields(cut: Cut): Fields
    requires DigitCut(cut)
  {
    Fields(Date(DecimalValue(cut.year), DecimalValue(cut.month), DecimalValue(cut.day)),
           DecimalValue(cut.hour), DecimalValue(cut.minute), DecimalValue(cut.second), DecimalValue(cut.nano))
  }

  lemma DigitCutRead(cut: Cut)
    requires DigitCut(cut)
    requires |cut.year| == 4 && |cut.month| == |cut.day| == |cut.hour| == |cut.minute| == |cut.second| == 2
    requires |cut.nano| == 9
    ensures var f := ValueFields(cut);
      && ReadFields(cut) == Some(f) && f.date.year < 10_000 && f.date.month < 100 && f.date.day < 100
      && f.nano < SECOND
  {
    Powers();
    DigitRead(cut.year);
    DigitRead(cut.month);
    DigitRead(cut.day);
    DigitRead(cut.hour);
    DigitRead(cut.minute);
    DigitRead(cut.second);
    DigitRead(cut.nano);
    FieldsRead(ValueFields(cut), cut);
  }

  /** The fields of a text of digits, once in range, are valid and print as the text. */
  lemma DigitCutFields(cut: Cut, f: Fields)
    requires DigitCut(cut) && ReadFields(cut) == Some(f)
    requires |cut.year| == 4 && |cut.month| == |cut.day| == |cut.hour| == |cut.minute| == |cut.second| == 2
    requires |cut.nano| == 9
    requires Ok(f.date) && f.hour <= 23 && f.minute <= 59 && f.second <= 59
    ensures ValidFields(f) && DecimalCut(f) == cut
  {
    DigitCutRead(cut);
    DigitRead(cut.year);
    DigitRead(cut.month);
    DigitRead(cut.day);
    DigitRead(cut.hour);
    DigitRead(cut.minute);
    DigitRead(cut.second);
    DigitRead(cut.nano);
  }

  lemma SameText(a: string, b: string)
    requires Shaped(a) && Shaped(b) && CutFields(a) == CutFields(b)
    ensures a == b
  {
    forall k | 0 <= k < 30
      ensures a[k] == b[k]
    {
      if k < 4 { assert a[0..4][k] == b[0..4][k]; }
      else if 5 <= k < 7 { assert a[5..7][k - 5] == b[5..7][k - 5]; }
      else if 8 <= k < 10 { assert a[8..10][k - 8] == b[8..10][k - 8]; }
      else if 11 <= k < 13 { assert a[11..13][k - 11] == b[11..13][k - 11]; }
      else if 14 <= k < 16 { assert a[14..16][k - 14] == b[14..16][k - 14]; }
      else if 17 <= k < 19 { assert a[17..19][k - 17] == b[17..19][k - 17]; }
      else if 20 <= k < 29 { assert a[20..29][k - 20] == b[20..29][k - 20]; }
    }
  }

  lemma DigitTextFields(text: string, f: Fields)
    requires ParseFields(text) == Some(f) && DigitFields(text) && Assemble(f).Success?
    ensures ValidFields(f) && Format(f) == text && TimeOf(f) == Assemble(f).value
  {
    DigitCutFields(CutFields(text), f);
    FieldTexts(f);
    SameText(Format(f), text);
  }

  /** On texts of digits the order of the texts is the order of the parsed instants. */
  lemma ParseOrder(a: string, b: string)
    requires Parse(a).Success? && DigitFields(a) && Parse(b).Success? && DigitFields(b)
    ensures Less(a, b) <==> Parse(a).value < Parse(b).value
  {
    var f, g := ParseFields(a).value, ParseFields(b).value;
    DigitTextFields(a, f);
    DigitTextFields(b, g);
    TextOrder(f, g);
  }

  /** Printing undoes parsing exactly on texts of digits whose midnight is representable. */
  lemma PrintParse(text: string)
    requires Parse(text).Success?
    ensures Print(Parse(text).value) == Success(text) <==> DigitFields(text) && Printable(Parse(text).value)
  {
    var t := Parse(text).value;
    PrintDefined(t);
    if DigitFields(text) {
      var f := ParseFields(text).value;
      DigitTextFields(text, f);
      FieldsOfTime(f);
    }
  }

  /** The date a text of digits names. */
  function DateIn(text: string): Date
    requires |text| == 30 && DigitFields(text)
  {
    Date(DecimalValue(text[0..4]), DecimalValue(text[5..7]), DecimalValue(text[8..10]))
  }

  /** The nanoseconds before the fraction of its second. */
  function WholeSeconds(text: string): int
    requires |text| == 30 && DigitFields(text) && Ok(DateIn(text))
  {
    DayNumber(DateIn(text)) * 86_400_000_000_000 + DecimalValue(text[11..13]) * 3_600_000_000_000
    + DecimalValue(text[14..16]) * 60_000_000_000 + DecimalValue(text[17..19]) * 1_000_000_000
  }

  /** The date exists and the clock shows the time. */
  predicate NamesTime(text: string)
    requires |text| == 30 && DigitFields(text)
  {
    && Ok(DateIn(text)) && DecimalValue(text[11..13]) <= 23 && DecimalValue(text[14..16]) <= 59
    && DecimalValue(text[17..19]) <= 59
  }

  /** The printed text names the instant: its date, its time of day, and nine digits of nanoseconds. */
  lemma PrintExact(t: Instant)
    requires Printable(t)
    ensures Print(t).Success? && Shaped(Print(t).value) && DigitFields(Print(t).value)
    ensures var text := Print(t).value; NamesTime(text) && t == WholeSeconds(text) + DecimalValue(text[20..29])
  {
    PrintDefined(t);
    ParsePrint(t);
    DigitTextParses(Print(t).value);
  }

  /** A text of digits is malformed exactly if it names no time, and then an overflow exactly if 64 bits do not hold it. */
  lemma DigitTextParses(text: string)
    requires Shaped(text) && DigitFields(text)
    ensures !NamesTime(text) ==> Parse(text) == Failure(Malformed)
    ensures NamesTime(text) ==>
      var t := WholeSeconds(text) + DecimalValue(text[20..29]);
      Parse(text) == if WholeSeconds(text) < -0x8000_0000_0000_0000 || t > 0x7fff_ffff_ffff_ffff then Failure(Overflow)
                     else Success(t)
  {
    DigitCutRead(CutFields(text));
    hide DayNumber, DecimalValue, FromChars, ReadFields;
  }

  // ----- What the parser accepts -----

  /** Digits, or a minus sign and digits. */
  predicate SignedDigits(s: string) {
    (s != "" && AllDigits(s)) || (|s| > 1 && s[0] == '-' && AllDigits(s[1..]))
  }

  function SignedValue(s: string): int
    requires SignedDigits(s)
  {
    if AllDigits(s) then DecimalValue(s) else 0 - DecimalValue(s[1..])
  }

  /** A date written in digits, and a clock whose fields may carry a sign; the fields may not exceed the clock. */
  predicate Accepted(text: string) {
    && Shaped(text) && AllDigits(text[0..4]) && AllDigits(text[5..7]) && AllDigits(text[8..10])
    && Ok(Date(DecimalValue(text[0..4]), DecimalValue(text[5..7]), DecimalValue(text[8..10])))
    && SignedDigits(text[11..13]) && SignedDigits(text[14..16]) && SignedDigits(text[17..19]) && SignedDigits(text[20..29])
    && SignedValue(text[11..13]) <= 23 && SignedValue(text[14..16]) <= 59 && SignedValue(text[17..19]) <= 59
  }

  function AcceptedSeconds(text: string): int
    requires Accepted(text)
  {
    DayNumber(Date(DecimalValue(text[0..4]), DecimalValue(text[5..7]), DecimalValue(text[8..10]))) * 86400
    + SignedValue(text[11..13]) * 3600 + SignedValue(text[14..16]) * 60 + SignedValue(text[17..19])
  }

  /** Of all texts, the parser takes exactly those that are accepted and whose seconds and sum fit 64 bits, as that sum. */
  lemma ParseExactly(text: string, t: Instant)
    ensures Parse(text) == Success(t) <==>
      && Accepted(text) && t == AcceptedSeconds(text) * 1_000_000_000 + SignedValue(text[20..29])
      && -0x8000_0000_0000_0000 <= AcceptedSeconds(text) * 1_000_000_000 <= 0x7fff_ffff_ffff_ffff
  {
    hide DayNumber, DecimalValue, AllDigits, FromChars, ReadFields, DaysInMonth, SignedDigits, SignedValue;
    if Shaped(text) {
      var cut := CutFields(text);
      ReadExactly(cut);
      DigitsAreSigned(cut.year);
      DigitsAreSigned(cut.month);
      DigitsAreSigned(cut.day);
      if SignedCut(cut) {
        TwoDigitField(cut.month);
        TwoDigitField(cut.day);
        if !AllDigits(cut.year) { SignedYear(cut.year); }
        var date := Date(SignedValue(cut.year), SignedValue(cut.month) % 256, SignedValue(cut.day) % 256);
        if Ok(date) && date.year <= 0 { BeforeRange(date); }
      }
    }
  }

  predicate SignedCut(cut: Cut) {
    && SignedDigits(cut.year) && SignedDigits(cut.month) && SignedDigits(cut.day) && SignedDigits(cut.hour)
    && SignedDigits(cut.minute) && SignedDigits(cut.second) && SignedDigits(cut.nano)
  }

  lemma ReadExactly(cut: Cut)
    ensures ReadFields(cut) ==
      if SignedCut(cut)
      then Some(Fields(Date(SignedValue(cut.year), SignedValue(cut.month) % 256, SignedValue(cut.day) % 256),
                       SignedValue(cut.hour), SignedValue(cut.minute), SignedValue(cut.second), SignedValue(cut.nano)))
      else None
  {
    hide FromChars, SignedDigits, SignedValue;
    FromCharsExactly(cut.year);
    FromCharsExactly(cut.month);
    FromCharsExactly(cut.day);
    FromCharsExactly(cut.hour);
    FromCharsExactly(cut.minute);
    FromCharsExactly(cut.second);
    FromCharsExactly(cut.nano);
  }

  lemma DigitsAreSigned(s: string)
    ensures AllDigits(s) && s != "" ==> SignedDigits(s) && SignedValue(s) == DecimalValue(s)
  {
    hide DecimalValue;
  }

  lemma SignedYear(s: string)
    requires SignedDigits(s) && !AllDigits(s)
    ensures SignedValue(s) <= 0
  {
    hide DecimalValue;
  }

  lemma FromCharsExactly(s: string)
    ensures FromChars(s) == if SignedDigits(s) then Some(SignedValue(s)) else None
  {
    hide DecimalValue;
  }

  /** Eight bits keep a number of two digits, and make an impossible month or day of a signed one. */
  lemma TwoDigitField(s: string)
    requires |s| == 2 && SignedDigits(s)
    ensures AllDigits(s) ==> SignedValue(s) % 256 == DecimalValue(s)
    ensures !AllDigits(s) ==> SignedValue(s) % 256 == 0 || SignedValue(s) % 256 > 31
  {
    Powers();
    if AllDigits(s) { DigitRead(s); } else { DigitRead(s[1..]); assert Pow10(1) == 10 * Pow10(0); }
  }

  /** The years before the first are out of range. */
  lemma BeforeRange(date: Date)
    requires Ok(date) && date.year <= 0
    ensures DayNumber(date) < -719_000
  {
    DayWithinYear(date);
    YearsMonotone(date.year, 1);
  }

  /** The instants that can be printed: all but the last fraction of a day before the first whole one. */
  lemma PrintableExactly(t: Instant)
    ensures Printable(t) <==> t >= -9_223_286_400_000_000_000
  {
    assert t / DAY >= -106751 <==> t >= -106751 * DAY;
  }

  /**
   The parser also takes a signed hour, counted back from midnight, and the printer writes
   another text for the instant it yields: 1970-01-02T-1:00 is 23:00 of the day before.
   */
  lemma SignedHourParses()
    ensures var text := Format(Fields(Date(1970, 1, 2), 1, 0, 0, 0))[11 := '-'];
      Parse(text) == Success(82_800_000_000_000) && Print(82_800_000_000_000) != Success(text)
  {
    var f := Fields(Date(1970, 1, 2), 1, 0, 0, 0);
    var text := Format(f)[11 := '-'];
    SignedHourFields(f);
    DayNumbersFollowCalendar(Date(1970, 1, 1));
    assert Assemble(f.(hour := -1)) == Success(82_800_000_000_000);
    PrintParse(text);
  }

  lemma HourSign(text: string, sign: char)
    requires Shaped(text)
    ensures Shaped(text[11 := sign])
    ensures CutFields(text[11 := sign]) == CutFields(text).(hour := [sign, CutFields(text).hour[1]])
  {
    var changed := text[11 := sign];
    assert changed[0..4] == text[0..4] && changed[5..7] == text[5..7] && changed[8..10] == text[8..10];
    assert changed[11..13] == [sign, text[11..13][1]];
    assert changed[14..16] == text[14..16] && changed[17..19] == text[17..19] && changed[20..29] == text[20..29];
  }

  lemma SignedHourFields(f: Fields)
    requires ValidFields(f) && 1 <= f.hour <= 9
    ensures |Format(f)| == 30
    ensures var text := Format(f)[11 := '-']; ParseFields(text) == Some(f.(hour := -f.hour)) && !DigitFields(text)
  {
    FieldTexts(f);
    HourSign(Format(f), '-');
    ReadCut(f);
    ReadSigned(f, DecimalCut(f));
  }

  lemma OneDigit(d: nat)
    requires d < 10
    ensures AllDigits([Digit(d)]) && DecimalValue([Digit(d)]) == d
  {
    assert [Digit(d)][..0] == "";
  }

  lemma LastDigit(d: nat)
    requires d < 10
    ensures |Decimal(d, 2)| == 2 && Decimal(d, 2)[1] == Digit(d)
  {
    var tens := Decimal(d / 10, 1);
    assert d / 10 == 0 && d % 10 == d;
    assert Decimal(d, 2) == tens + [Digit(d)];
    assert tens == [Digit(0)];
  }

  lemma SignedDigit(s: string)
    requires |s| == 2 && s[0] == '-' && AllDigits([s[1]])
    ensures FromChars(s) == Some(0 - DecimalValue([s[1]])) && !AllDigits(s)
  {
    assert s[1..] == [s[1]];
  }

  lemma ReadSigned(f: Fields, cut: Cut)
    requires 0 <= f.hour <= 9 && cut.hour == Decimal(f.hour, 2) && ReadFields(cut) == Some(f)
    ensures |cut.hour| == 2
    ensures var signed := cut.(hour := ['-', cut.hour[1]]);
      ReadFields(signed) == Some(f.(hour := -f.hour)) && !DigitCut(signed)
  {
    LastDigit(f.hour);
    OneDigit(f.hour);
    SignedDigit(['-', cut.hour[1]]);
  }
}
