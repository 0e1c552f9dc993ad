/**
 The calendar values `TimeSheet` carries (Python `date` and naive `datetime`)
 and the ISO 8601 text it writes for them with `isoformat()`, together with the
 inverse reading `datetime.fromisoformat` gives that text.
 */
module Dates {
  import opened JsonValue
  import opened Text

  datatype Date = Date(year: nat, month: nat, day: nat)

  predicate IsLeapYear(y: nat)
  {
    y % 4 == 0 && (y % 100 != 0 || y % 400 == 0)
  }

  function DaysInMonth(y: nat, m: nat): nat
  {
    if m == 2 then (if IsLeapYear(y) then 29 else 28)
    else if m in {4, 6, 9, 11} then 30
    else 31
  }

  /** The values Python's `date` accepts: years 1 to 9999 of the proleptic
      Gregorian calendar. */
  predicate ValidDate(d: Date)
  {
    1 <= d.year <= 9999 && 1 <= d.month <= 12 && 1 <= d.day <= DaysInMonth(d.year, d.month)
  }

  type CalendarDate = d: Date | ValidDate(d) witness Date(1, 1, 1)

  /** A naive `datetime`: a date and a time of day down to the microsecond. */
  datatype DateTime = DateTime(date: Date, hour: nat, minute: nat, second: nat, microsecond: nat)

  predicate ValidDateTime(t: DateTime)
  {
    ValidDate(t.date) && t.hour < 24 && t.minute < 60 && t.second < 60 && t.microsecond < 1000000
  }

  type Timestamp = t: DateTime | ValidDateTime(t) witness DateTime(Date(1, 1, 1), 0, 0, 0, 0)

  /** `datetime.combine(d, datetime.min.time())`: the start of a day. */
  function Midnight(d: CalendarDate): (r: Timestamp)
    ensures r.date == d && r.hour == 0 && r.minute == 0 && r.second == 0 && r.microsecond == 0
  {
    DateTime(d, 0, 0, 0, 0)
  }

  lemma PadExact(n: nat, w: nat)
    requires 1 <= w && n < Pow10(w)
    ensures |PadNat(n, w)| == w
  {
    NatToStringShort(n, w);
  }

  /** `a`, the separator `x`, then `b`: the pieces come back by position. */
  lemma Joined(a: string, x: char, b: string)
    ensures var s := a + [x] + b;
      && |s| == |a| + 1 + |b| && s[..|a|] == a && s[|a|] == x && s[|a| + 1..] == b
  {
    var s := a + [x] + b;
    assert s[..|a|] == a;
    assert s[|a| + 1..] == b;
  }

  /** Three fields of known widths joined by two separators. */
  function Join3(a: string, x: char, b: string, y: char, c: string): string
  {
    a + [x] + (b + [y] + c)
  }

  /** The inverse of `Join3` for fields of widths `wa` and `wb`: the separators
      must be where they belong and every field must be all digits. */
  function Split3(s: string, wa: nat, x: char, wb: nat, y: char): (r: Option<(nat, nat, nat)>)
  {
    if |s| < wa + wb + 2 || s[wa] != x || s[wa + 1 + wb] != y then None
    else
      var a, b, c := s[..wa], s[wa + 1..wa + 1 + wb], s[wa + wb + 2..];
      if AllDigits(a) && AllDigits(b) && AllDigits(c) then Some((DigitsValue(a), DigitsValue(b), DigitsValue(c)))
      else None
  }

  lemma Split3OfJoin3(a: string, x: char, b: string, y: char, c: string)
    requires AllDigits(a) && AllDigits(b) && AllDigits(c)
    ensures Split3(Join3(a, x, b, y, c), |a|, x, |b|, y) == Some((DigitsValue(a), DigitsValue(b), DigitsValue(c)))
  {
    var s := Join3(a, x, b, y, c);
    Joined(a, x, b + [y] + c);
    Joined(b, y, c);
    var rest := s[|a| + 1..];
    assert rest == b + [y] + c;
    assert s[|a| + 1..|a| + 1 + |b|] == rest[..|b|];
    assert s[|a| + |b| + 2..] == rest[|b| + 1..];
  }

  function Pad2(n: nat): (r: string)
    requires n < 100
    ensures |r| == 2 && AllDigits(r) && DigitsValue(r) == n
  {
    assert Pow10(2) == 100;
    PadExact(n, 2);
    PadNat(n, 2)
  }

  /** `date.isoformat()`: `YYYY-MM-DD`. */
  function DateText(d: CalendarDate): (r: string)
    ensures |r| == 10
    ensures Split3(r, 4, '-', 2, '-') == Some((d.year, d.month, d.day))
  {
    assert Pow10(4) == 10000;
    PadExact(d.year, 4);
    Split3OfJoin3(PadNat(d.year, 4), '-', Pad2(d.month), '-', Pad2(d.day));
    Join3(PadNat(d.year, 4), '-', Pad2(d.month), '-', Pad2(d.day))
  }

  /** The time of day: `HH:MM:SS`. */
  function TimeText(t: Timestamp): (r: string)
    ensures |r| == 8
    ensures Split3(r, 2, ':', 2, ':') == Some((t.hour, t.minute, t.second))
  {
    Split3OfJoin3(Pad2(t.hour), ':', Pad2(t.minute), ':', Pad2(t.second));
    Join3(Pad2(t.hour), ':', Pad2(t.minute), ':', Pad2(t.second))
  }

  /** The fraction: empty for a whole second, else `.ffffff`. */
  function FractionText(micro: nat): (r: string)
    requires micro < 1000000
    ensures micro == 0 ==> r == []
    ensures micro != 0 ==> |r| == 7 && r[0] == '.' && AllDigits(r[1..]) && DigitsValue(r[1..]) == micro
  {
    if micro == 0 then []
    else
      assert Pow10(6) == 1000000;
      PadExact(micro, 6);
      var r := "." + PadNat(micro, 6);
      assert r[1..] == PadNat(micro, 6);
      r
  }

  /** `datetime.isoformat()` for a naive value: `YYYY-MM-DDTHH:MM:SS`, followed by
      `.ffffff` only when the microsecond is not zero. */
  function IsoFormat(t: Timestamp): (r: string)
    ensures |r| == if t.microsecond == 0 then 19 else 26
  {
    DateText(t.date) + ['T'] + (TimeText(t) + FractionText(t.microsecond))
  }

  /** `datetime.fromisoformat` on the two layouts `isoformat()` writes; any other
      text, or a field out of range, is rejected. */
  function FromIsoFormat(s: string): (r: Option<Timestamp>)
    ensures r.Some? ==> (|s| == 19 || |s| == 26) && s[10] == 'T'
  {
    if (|s| != 19 && |s| != 26) || s[10] != 'T' then None
    else
      var date, time := Split3(s[..10], 4, '-', 2, '-'), Split3(s[11..19], 2, ':', 2, ':');
      var micro :=
        if |s| == 19 then Some(0)
        else if s[19] == '.' && AllDigits(s[20..]) then Some(DigitsValue(s[20..]))
        else None;
      if date.None? || time.None? || micro.None? then None
      else
        var t := DateTime(Date(date.value.0, date.value.1, date.value.2),
                          time.value.0, time.value.1, time.value.2, micro.value);
        if ValidDateTime(t) then Some(t) else None
  }

  /** Where `isoformat()` puts each part of a timestamp. */
  lemma IsoFormatPieces(t: Timestamp)
    ensures var s := IsoFormat(t);
      && |s| >= 19 && s[..10] == DateText(t.date) && s[10] == 'T' && s[11..19] == TimeText(t)
      && (t.microsecond == 0 ==> |s| == 19)
      && (t.microsecond != 0 ==> |s| == 26 && s[19] == '.' && s[20..] == FractionText(t.microsecond)[1..])
  {
    var s := IsoFormat(t);
    var d, tm, f := DateText(t.date), TimeText(t), FractionText(t.microsecond);
    Joined(d, 'T', tm + f);
    assert s[11..] == tm + f;
    assert s[11..19] == tm;
    if t.microsecond != 0 {
      assert s[19..] == f;
      assert s[20..] == f[1..];
    }
  }

  /** Reading back what `isoformat()` wrote gives the same moment. */
  lemma IsoFormatRoundTrip(t: Timestamp)
    ensures FromIsoFormat(IsoFormat(t)) == Some(t)
  {
    IsoFormatPieces(t);
  }

  /** Distinct moments are written as distinct text. */
  lemma IsoFormatInjective(a: Timestamp, b: Timestamp)
    requires IsoFormat(a) == IsoFormat(b)
    ensures a == b
  {
    IsoFormatRoundTrip(a);
    IsoFormatRoundTrip(b);
  }

  /** How `TimeSheet.to_dict` writes an optional date: the ISO text of its
      midnight, which is never empty, or `None`. */
  function DateField(d: Option<CalendarDate>): (r: Json)
    ensures d.None? <==> r == JNull
    ensures d.Some? ==> r.JStr? && |r.s| == 19
  {
    match d
    case None => JNull
    case Some(day) => JStr(IsoFormat(Midnight(day)))
  }

  /** How `TimeSheet.to_dict` writes the optional document timestamp. */
  function TimestampField(t: Option<Timestamp>): (r: Json)
    ensures t.None? <==> r == JNull
    ensures t.Some? ==> r.JStr? && |r.s| >= 19
  {
    match t
    case None => JNull
    case Some(v) => JStr(IsoFormat(v))
  }

  /** A written date reads back as the start of that day. */
  lemma DateFieldRoundTrip(d: Option<CalendarDate>)
    requires d.Some?
    ensures FromIsoFormat(DateField(d).s) == Some(Midnight(d.value))
  {
    IsoFormatRoundTrip(Midnight(d.value));
  }

  /** A written timestamp reads back as the same moment. */
  lemma TimestampFieldRoundTrip(t: Option<Timestamp>)
    requires t.Some?
    ensures FromIsoFormat(TimestampField(t).s) == Some(t.value)
  {
    IsoFormatRoundTrip(t.value);
  }
}
