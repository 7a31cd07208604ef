/**
 * The timer label of the recorder screen: an interval in whole seconds is split
 * into hours, minutes and seconds and written as `[H:]MM:SS`.
 * Source: AudioRecorder/ViewModel/RecorderViewModel.swift.
 */
module RecorderViewModel {
  import opened Wrappers

  /** The hour, minute and second fields a calendar reports for an interval. */
  datatype Components = Components(hour: int, minute: int, second: int)

  /**
   * Splits a whole-second interval into hours, minutes and seconds. A negative
   * interval gives every field the sign of the interval (each field is
   * truncated toward zero), as the calendar does for a later start date.
   */
  function DateComponents(interval: int): (c: Components)
    ensures c.hour * 3600 + c.minute * 60 + c.second == interval
    ensures interval >= 0 ==> 0 <= c.hour && 0 <= c.minute < 60 && 0 <= c.second < 60
    ensures interval < 0 ==> c.hour <= 0 && -60 < c.minute <= 0 && -60 < c.second <= 0
  {
    var n := if interval >= 0 then interval else -interval;
    var minutes := n / 60;
    assert minutes * 60 + n % 60 == n;
    assert (minutes / 60) * 60 + minutes % 60 == minutes;
    if interval >= 0 then Components(minutes / 60, minutes % 60, n % 60)
    else Components(-(minutes / 60), -(minutes % 60), -(n % 60))
  }

  /** For a nonnegative interval the fields are the only ones in range that add up to it. */
  lemma ComponentsUnique(interval: int, c: Components)
    requires interval >= 0
    requires 0 <= c.hour && 0 <= c.minute < 60 && 0 <= c.second < 60
    requires c.hour * 3600 + c.minute * 60 + c.second == interval
    ensures c == DateComponents(interval)
  {
    var d := DateComponents(interval);
    assert c.minute * 60 + c.second < 3600;
    assert d.minute * 60 + d.second < 3600;
    assert c.hour == d.hour;
    assert c.minute == d.minute;
  }

  // ---- Decimal numerals (string interpolation of an Int) ----

  predicate IsDigit(ch: char)
  {
    '0' <= ch <= '9'
  }

  predicate AllDigits(s: string)
  {
    forall i :: 0 <= i < |s| ==> IsDigit(s[i])
  }

  function DigitChar(d: int): (ch: char)
    requires 0 <= d < 10
    ensures IsDigit(ch)
  {
    (d + '0' as int) as char
  }

  function DigitValue(ch: char): (d: nat)
    requires IsDigit(ch)
    ensures d < 10
  {
    ch as int - '0' as int
  }

  /** The decimal numeral of a natural number: no leading zero, one digit exactly below ten. */
  function NaturalNumeral(n: nat): (s: string)
    ensures 1 <= |s| && AllDigits(s)
    ensures |s| == 1 <==> n < 10
    ensures s[0] == '0' <==> n == 0
    decreases n
  {
    if n < 10 then [DigitChar(n)] else NaturalNumeral(n / 10) + [DigitChar(n % 10)]
  }

  /** The numeral of an integer, with a minus sign when it is negative. */
  function Numeral(i: int): (s: string)
    ensures ':' !in s
    ensures i >= 0 ==> s == NaturalNumeral(i)
    ensures i < 0 ==> |s| > 1 && s[0] == '-'
  {
    if i < 0 then "-" + NaturalNumeral(-i) else NaturalNumeral(i)
  }

  /** The number a string of digits denotes (leading zeros allowed). */
  function NumeralValue(s: string): nat
    requires AllDigits(s)
  {
    if s == [] then 0 else NumeralValue(s[..|s| - 1]) * 10 + DigitValue(s[|s| - 1])
  }

  lemma {:induction false} NumeralRoundTrip(n: nat)
    ensures NumeralValue(NaturalNumeral(n)) == n
    decreases n
  {
    if n >= 10 {
      var s := NaturalNumeral(n);
      assert s[..|s| - 1] == NaturalNumeral(n / 10);
      NumeralRoundTrip(n / 10);
    }
  }

  // ---- getTimerLabelText ----

  /** The hour segment: present only for a positive hour, unpadded, followed by ':'. */
  function HourSegment(hour: int): (s: string)
    ensures s == [] <==> hour <= 0
    ensures hour > 0 ==> s[..|s| - 1] == NaturalNumeral(hour) && s[|s| - 1] == ':'
  {
    if hour > 0 then
      var n := Numeral(hour);
      assert (n + ":")[..|n|] == n;
      n + ":"
    else ""
  }

  /**
   * A minute or second field: a single '0' in front of any value below ten.
   * A value in 0..99 is written with exactly two digits.
   */
  function PaddedField(v: int): (s: string)
    ensures ':' !in s
    ensures 0 <= v < 100 ==> |s| == 2 && AllDigits(s) && (s[0] == '0' <==> v < 10)
  {
    var n := Numeral(v);
    if v < 10 then
      assert "0" + n == ['0'] + n;
      "0" + n
    else
      assert 10 <= v < 100 ==> |NaturalNumeral(v / 10)| == 1;
      n
  }

  /**
   * The label text for the fields of an interval: `[H:]MM:SS`. With minutes
   * and seconds in 0..99 it is the hour segment followed by five characters,
   * the seconds after the last ':'.
   */
  function TimerLabelText(c: Components): (text: string)
    ensures 0 <= c.minute < 100 && 0 <= c.second < 100 ==>
      |text| == |HourSegment(c.hour)| + 5 && text[|text| - 3] == ':'
  {
    HourSegment(c.hour) + PaddedField(c.minute) + ":" + PaddedField(c.second)
  }

  // ---- Reading a label back ----

  /** The pieces of `s` between its ':' separators (one piece when there is none). */
  function Fields(s: string): (r: seq<string>)
    ensures |r| >= 1
  {
    if s == [] then [""]
    else
      var rest := Fields(s[1..]);
      if s[0] == ':' then [""] + rest else [[s[0]] + rest[0]] + rest[1..]
  }

  lemma {:induction false} FieldsOfPlain(a: string)
    requires ':' !in a
    ensures Fields(a) == [a]
  {
    if a != [] {
      FieldsOfPlain(a[1..]);
      assert [a[0]] + a[1..] == a;
    }
  }

  lemma {:induction false} FieldsOfJoin(a: string, b: string)
    requires ':' !in a
    ensures Fields(a + ":" + b) == [a] + Fields(b)
  {
    var s := a + ":" + b;
    if a == [] {
      assert s[0] == ':' && s[1..] == b;
    } else {
      assert s[0] == a[0];
      assert s[1..] == a[1..] + ":" + b;
      FieldsOfJoin(a[1..], b);
      assert [a[0]] + a[1..] == a;
    }
  }

  predicate IsNumeral(s: string)
  {
    |s| > 0 && AllDigits(s)
  }

  /**
   * The number of seconds a label shows: `H:MM:SS` or `MM:SS`, every field a
   * nonempty run of digits; None for any other text.
   */
  function LabelSeconds(text: string): Option<int>
  {
    FieldsSeconds(Fields(text))
  }

  /** The seconds shown by the fields of a label. */
  function FieldsSeconds(f: seq<string>): Option<int>
  {
    if |f| == 3 && IsNumeral(f[0]) && IsNumeral(f[1]) && IsNumeral(f[2]) then
      Some(NumeralValue(f[0]) * 3600 + NumeralValue(f[1]) * 60 + NumeralValue(f[2]))
    else if |f| == 2 && IsNumeral(f[0]) && IsNumeral(f[1]) then
      Some(NumeralValue(f[0]) * 60 + NumeralValue(f[1]))
    else
      None
  }

  // ---- Properties of the label ----

  /** The label splits at its colons into the hour (only when positive), the minutes and the seconds. */
  lemma LabelFields(c: Components)
    ensures c.hour > 0 ==>
      Fields(TimerLabelText(c)) == [Numeral(c.hour), PaddedField(c.minute), PaddedField(c.second)]
    ensures c.hour <= 0 ==>
      Fields(TimerLabelText(c)) == [PaddedField(c.minute), PaddedField(c.second)]
  {
    var m, s := PaddedField(c.minute), PaddedField(c.second);
    if c.hour > 0 {
      assert TimerLabelText(c) == Numeral(c.hour) + ":" + m + ":" + s;
      FieldsOfTriple(Numeral(c.hour), m, s);
    } else {
      assert TimerLabelText(c) == m + ":" + s;
      FieldsOfPair(m, s);
    }
  }

  lemma FieldsOfPair(m: string, s: string)
    requires ':' !in m && ':' !in s
    ensures Fields(m + ":" + s) == [m, s]
  {
    FieldsOfPlain(s);
    FieldsOfJoin(m, s);
  }

  lemma FieldsOfTriple(h: string, m: string, s: string)
    requires ':' !in h && ':' !in m && ':' !in s
    ensures Fields(h + ":" + m + ":" + s) == [h, m, s]
  {
    FieldsOfPair(m, s);
    FieldsOfJoin(h, m + ":" + s);
    assert h + ":" + m + ":" + s == h + ":" + (m + ":" + s);
  }

  /** The hour segment is written exactly when the hour is positive. */
  lemma HourSegmentPresent(c: Components)
    ensures |Fields(TimerLabelText(c))| == 3 <==> c.hour > 0
    ensures c.hour > 0 ==> Fields(TimerLabelText(c))[0] == NaturalNumeral(c.hour)
  {
    LabelFields(c);
  }

  /** A minute or second field in 0..99 reads back as the value. */
  lemma PaddedFieldShape(v: int)
    requires 0 <= v < 100
    ensures NumeralValue(PaddedField(v)) == v
  {
    var p := PaddedField(v);
    if v < 10 {
      assert p == ['0', DigitChar(v)];
      assert p[..1] == ['0'];
      assert p[..1][..0] == [];
      assert NumeralValue(p[..1]) == 0;
      assert DigitValue(p[1]) == v;
    } else {
      NumeralRoundTrip(v);
      assert NaturalNumeral(v / 10) == [DigitChar(v / 10)];
    }
  }

  /** Reading the label of a nonnegative interval gives back the interval. */
  lemma LabelRoundTrip(interval: int)
    requires interval >= 0
    ensures LabelSeconds(IntervalLabel(interval)) == Some(interval)
  {
    var c := DateComponents(interval);
    LabelFields(c);
    PaddedFieldShape(c.minute);
    PaddedFieldShape(c.second);
    if c.hour > 0 {
      NumeralRoundTrip(c.hour);
    }
  }

  /** Under one hour the label is `MM:SS`: five characters, the third a colon. */
  lemma LabelUnderAnHour(interval: int)
    requires 0 <= interval < 3600
    ensures var text := TimerLabelText(DateComponents(interval));
      |text| == 5 && text[2] == ':' && AllDigits(text[..2]) && AllDigits(text[3..])
  {
    var c := DateComponents(interval);
    PaddedFieldShape(c.minute);
    PaddedFieldShape(c.second);
    var text := TimerLabelText(c);
    assert text == PaddedField(c.minute) + ":" + PaddedField(c.second);
    assert text[..2] == PaddedField(c.minute);
    assert text[3..] == PaddedField(c.second);
  }

  /** A timer started this second shows "00:00". */
  lemma FreshTimerShowsZero(now: int)
    ensures ElapsedTime(Some(now), now) == Some("00:00")
  {
    var c := DateComponents(now - now);
    assert c.hour == 0 && c.minute == 0 && c.second == 0;
    assert PaddedField(0) == "00";
    assert TimerLabelText(c) == "00:00";
    assert ElapsedTime(Some(now), now) == Some(IntervalLabel(now - now));
  }

  lemma TimerLabelExamples()
    ensures TimerLabelText(DateComponents(75)) == "01:15"
    ensures TimerLabelText(DateComponents(3661)) == "1:01:01"
  {
    assert DateComponents(75) == Components(0, 1, 15);
    assert DateComponents(3661) == Components(1, 1, 1);
    assert NaturalNumeral(15) == NaturalNumeral(1) + [DigitChar(5)];
  }

  /**
   * After the end the remaining interval is negative: each field gets its
   * own '0' and minus sign, so 75 seconds past the end reads "0-1:0-15".
   */
  lemma NegativeIntervalLabel()
    ensures IntervalLabel(-75) == "0-1:0-15"
  {
    assert DateComponents(-75) == Components(0, -1, -15);
    assert NaturalNumeral(15) == NaturalNumeral(1) + [DigitChar(5)];
  }

  // ---- getElapsedTime / getRemainingTime ----

  /**
   * The text of the label for a whole-second interval: five characters
   * `MM:SS` under one hour, longer from one hour on.
   */
  function IntervalLabel(interval: int): (text: string)
    ensures 0 <= interval < 3600 ==> |text| == 5 && text[2] == ':'
    ensures interval >= 3600 ==> |text| >= 7
  {
    TimerLabelText(DateComponents(interval))
  }

  /** The time since `startDate`; None exactly when there is no start date. */
  function ElapsedTime(startDate: Option<int>, now: int): (text: Option<string>)
    ensures text.None? <==> startDate.None?
  {
    match startDate
    case None => None
    case Some(start) => Some(IntervalLabel(now - start))
  }

  lemma ElapsedTimeReadsBack(startDate: Option<int>, now: int)
    requires startDate.Some? && startDate.value <= now
    ensures LabelSeconds(ElapsedTime(startDate, now).value) == Some(now - startDate.value)
  {
    var interval := now - startDate.value;
    assert ElapsedTime(startDate, now) == Some(IntervalLabel(interval));
    LabelRoundTrip(interval);
  }

  /** The time left until `startDate + duration`; None when either is missing. */
  function RemainingTime(startDate: Option<int>, duration: Option<int>, now: int): (text: Option<string>)
    ensures text.None? <==> duration.None? || startDate.None?
  {
    if duration.None? || startDate.None? then None
    else Some(IntervalLabel(startDate.value + duration.value - now))
  }

  lemma RemainingTimeReadsBack(startDate: Option<int>, duration: Option<int>, now: int)
    requires startDate.Some? && duration.Some? && now <= startDate.value + duration.value
    ensures LabelSeconds(RemainingTime(startDate, duration, now).value) == Some(startDate.value + duration.value - now)
  {
    var interval := startDate.value + duration.value - now;
    assert RemainingTime(startDate, duration, now) == Some(IntervalLabel(interval));
    LabelRoundTrip(interval);
  }
}
