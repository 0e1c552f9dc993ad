/**
 `TimeSheetRecord` and `TimeSheetLine` of client_1c_timesheet/models.py: the
 dense encoding of a timesheet line as three fixed keys plus five keys for each
 of the days 1..31, the day number written into the key name.
 */
module TimeSheetLines {
  import opened JsonValue
  import opened Errors
  import opened Text
  import opened Models
  import opened Collections

  // ---------------------------------------------------------------- hours

  /** Python's `int(x)` on a real: truncation toward zero. */
  function Trunc(x: real): (r: int)
    ensures 0.0 <= x ==> r as real <= x < r as real + 1.0
    ensures x < 0.0 ==> r as real - 1.0 < x <= r as real
  {
    if x >= 0.0 then x.Floor else -((-x).Floor)
  }

  /** A value with at most one decimal place. */
  predicate IsTenth(h: real)
  {
    (h * 10.0).Floor as real == h * 10.0
  }

  /** `int(hours*10)` in `TimeSheetRecord.__init__`, for whatever JSON value the
      wire held: a number is truncated, a bool counts as 0 or 1, a string is
      repeated ten times and read as an integer, anything else is a TypeError. */
  function HoursTenths(hours: Json): (r: Result<int>)
    ensures hours.JNum? ==> r.Ok? && Trunc(hours.n * 10.0) == r.value
    ensures hours.JNum? && IsTenth(hours.n) ==> r == Ok((hours.n * 10.0).Floor)
    ensures hours.JBool? ==> r == Ok(if hours.b then 10 else 0)
    ensures hours.JNull? || hours.JArr? || hours.JObj? ==> r == Err(Untyped(TypeError))
    ensures hours.JStr? ==> (r.Ok? <==> hours.s != [] && AllDigits(hours.s))
    ensures r.Err? ==> r.error.Untyped?
  {
    match hours
    case JNum(h) => Ok(Trunc(h * 10.0))
    case JBool(b) => Ok(if b then 10 else 0)
    case JStr(s) =>
      if s != [] && AllDigits(s) then Ok(DigitsValue(Repeat(s, 10))) else Err(Untyped(ValueError))
    case _ => Err(Untyped(TypeError))
  }

  /** `get_hours`: the stored tenths as hours, which always have at most one
      decimal place and scale back to the tenths. */
  function GetHours(tenths: int): (r: real)
    ensures r * 10.0 == tenths as real
    ensures IsTenth(r)
  {
    tenths as real / 10.0
  }

  /** A one-decimal value survives storage exactly: `get_hours()` returns it. */
  lemma HoursExact(h: real)
    requires IsTenth(h)
    ensures HoursTenths(JNum(h)).Ok? && GetHours(HoursTenths(JNum(h)).value) == h
  {
  }

  /** Re-constructing a record from its own `get_hours()` stores the same tenths. */
  lemma TenthsStable(tenths: int)
    ensures HoursTenths(JNum(GetHours(tenths))) == Ok(tenths)
  {
  }

  lemma EightPointThree()
    ensures HoursTenths(JNum(8.3)) == Ok(83) && GetHours(83) == 8.3
  {
  }

  // ---------------------------------------------------------------- records

  datatype TimeSheetRecord = TimeSheetRecord(
    day: int,
    tenths: int,
    timeGroup: ObjectId,
    territory: ObjectId,
    workingConditions: ObjectId,
    workShift: Json)

  /** `TimeSheetRecord(day, hours, ...)`: fails only when `int(hours*10)` does. */
  function MakeRecord(day: int, hours: Json, timeGroup: ObjectId, territory: ObjectId,
                      workingConditions: ObjectId, workShift: Json): (r: Result<TimeSheetRecord>)
    ensures r.Ok? <==> HoursTenths(hours).Ok?
    ensures r.Ok? ==> r.value.day == day && Ok(r.value.tenths) == HoursTenths(hours)
    ensures r.Ok? ==> && r.value.timeGroup == timeGroup && r.value.territory == territory
                      && r.value.workingConditions == workingConditions && r.value.workShift == workShift
    ensures r.Err? ==> r.error == HoursTenths(hours).error
  {
    var tenths :- HoursTenths(hours);
    Ok(TimeSheetRecord(day, tenths, timeGroup, territory, workingConditions, workShift))
  }

  // ---------------------------------------------------------------- wire keys

  /** The five per-day sub-fields of a line. */
  datatype DayField = Hours | TimeGroupRef | Territory | WorkingConditions | WorkShift

  const LineNumberKey: string := "LineNumber"
  const EmployeeKey: string := "Сотрудник_Key"

  /** `f'Часов{day}'`, `f'ВидВремени{day}_Key'`, ...: the wire key of one sub-field. */
  function DayKey(f: DayField, day: int): string
  {
    match f
    case Hours => "Часов" + IntToString(day)
    case TimeGroupRef => "ВидВремени" + IntToString(day) + "_Key"
    case Territory => "Территория" + IntToString(day) + "_Key"
    case WorkingConditions => "УсловияТруда" + IntToString(day) + "_Key"
    case WorkShift => "ПереходящаяЧастьСмены" + IntToString(day)
  }

  /** Each family of day keys starts with its own letter. */
  function Initial(f: DayField): char
  {
    match f
    case Hours => 'Ч'
    case TimeGroupRef => 'В'
    case Territory => 'Т'
    case WorkingConditions => 'У'
    case WorkShift => 'П'
  }

  lemma DayKeyInitial(f: DayField, day: int)
    ensures |DayKey(f, day)| > 0 && DayKey(f, day)[0] == Initial(f)
  {
  }

  /** The number printed inside a day key. */
  lemma DayKeyDigits(f: DayField, day: int)
    ensures var k := DayKey(f, day);
      match f
      case Hours => k[5..] == IntToString(day)
      case TimeGroupRef => |k| >= 14 && k[10..|k| - 4] == IntToString(day)
      case Territory => |k| >= 14 && k[10..|k| - 4] == IntToString(day)
      case WorkingConditions => |k| >= 16 && k[12..|k| - 4] == IntToString(day)
      case WorkShift => k[21..] == IntToString(day)
  {
  }

  /** Distinct (sub-field, day) pairs have distinct wire keys. */
  lemma DayKeyInjective(f: DayField, d: int, g: DayField, e: int)
    requires DayKey(f, d) == DayKey(g, e)
    ensures f == g && d == e
  {
    DayKeyInitial(f, d);
    DayKeyInitial(g, e);
    DayKeyDigits(f, d);
    DayKeyDigits(g, e);
    IntToStringInjective(d, e);
  }

  /** No day key collides with one of the three fixed keys. */
  lemma DayKeyNotFixed(f: DayField, day: int)
    ensures DayKey(f, day) != RefKey && DayKey(f, day) != LineNumberKey && DayKey(f, day) != EmployeeKey
  {
    DayKeyInitial(f, day);
    assert RefKey[0] == 'R' && LineNumberKey[0] == 'L' && EmployeeKey[0] == 'С';
  }

  /** A key of a line's wire dict before it is spelled out: the three fixed keys
      and one key per sub-field and day. */
  datatype LineSlot = IdSlot | NumberSlot | EmployeeSlot | DaySlot(field: DayField, day: int)

  /** The wire spelling of a key. */
  function KeyName(k: LineSlot): string
  {
    match k
    case IdSlot => RefKey
    case NumberSlot => LineNumberKey
    case EmployeeSlot => EmployeeKey
    case DaySlot(f, d) => DayKey(f, d)
  }

  /** Distinct keys are spelled differently. */
  lemma KeyNameInjective(a: LineSlot, b: LineSlot)
    requires KeyName(a) == KeyName(b)
    ensures a == b
  {
    assert RefKey[0] == 'R' && LineNumberKey[0] == 'L' && EmployeeKey[0] == 'С';
    match a
    case DaySlot(f, d) =>
      DayKeyNotFixed(f, d);
      if b.DaySlot? {
        DayKeyInjective(f, d, b.field, b.day);
      }
    case _ =>
      if b.DaySlot? {
        DayKeyNotFixed(b.field, b.day);
      }
  }

  lemma KeyNamesInjective()
    ensures forall a, b | KeyName(a) == KeyName(b) :: a == b
  {
    forall a, b | KeyName(a) == KeyName(b) ensures a == b {
      KeyNameInjective(a, b);
    }
  }

  /** The spellings of a set of keys. */
  function Names(ks: set<LineSlot>): set<string>
  {
    Image(ks, KeyName)
  }

  const FixedSlots: set<LineSlot> := {IdSlot, NumberSlot, EmployeeSlot}

  const AllFields: set<DayField> := {Hours, TimeGroupRef, Territory, WorkingConditions, WorkShift}

  /** All five sub-field keys for a set of days. */
  function DaySlots(days: set<int>): (r: set<LineSlot>)
    ensures forall k :: k in r <==> k.DaySlot? && k.day in days
  {
    forall f ensures f in AllFields {
      FieldListed(f);
    }
    set f, d | f in AllFields && d in days :: DaySlot(f, d)
  }

  lemma FieldListed(f: DayField)
    ensures f in AllFields
  {
    match f
    case Hours =>
    case TimeGroupRef =>
    case Territory =>
    case WorkingConditions =>
    case WorkShift =>
  }

  predicate InRange(lo: int, hi: int, d: int)
  {
    lo <= d <= hi
  }

  /** `range(lo, hi + 1)` as a set. The bound is repeated through `InRange`
      only to give the comprehension a trigger, which a bare comparison lacks. */
  function Range(lo: int, hi: int): set<int>
  {
    set d | lo <= d <= hi && InRange(lo, hi, d)
  }

  const Days: set<int> := Range(1, 31)

  /** The keys of a complete line, spelled out. */
  function LineKeys(): set<string>
  {
    Names(FixedSlots + DaySlots(Days))
  }

  // ---------------------------------------------------------------- parsing

  function DayKeySeq(day: int): seq<string>
  {
    [DayKey(Hours, day), DayKey(TimeGroupRef, day), DayKey(Territory, day),
     DayKey(WorkingConditions, day), DayKey(WorkShift, day)]
  }

  ghost predicate DayPresent(m: map<string, Json>, day: int)
  {
    forall f :: DayKey(f, day) in m
  }

  ghost predicate DayParses(m: map<string, Json>, day: int)
  {
    DayPresent(m, day) && HoursTenths(m[DayKey(Hours, day)]).Ok?
  }

  /** The value a record contributes under sub-field `f`; hours via `get_hours`. */
  function FieldValue(f: DayField, rec: TimeSheetRecord): Json
  {
    match f
    case Hours => JNum(GetHours(rec.tenths))
    case TimeGroupRef => rec.timeGroup.id
    case Territory => rec.territory.id
    case WorkingConditions => rec.workingConditions.id
    case WorkShift => rec.workShift
  }

  /** `rec` is what the wire dict says about day `rec.day`. */
  ghost predicate RecordMatches(m: map<string, Json>, rec: TimeSheetRecord)
  {
    && DayPresent(m, rec.day)
    && HoursTenths(m[DayKey(Hours, rec.day)]) == Ok(rec.tenths)
    && forall f | f != Hours :: FieldValue(f, rec) == m[DayKey(f, rec.day)]
  }

  lemma FirstMissingOfFive(dictIn: Json, day: int)
    ensures dictIn.JObj? ==>
      var m := dictIn.fields;
      FirstMissing(m, DayKeySeq(day)) ==
        if DayKey(Hours, day) !in m then Some(DayKey(Hours, day))
        else if DayKey(TimeGroupRef, day) !in m then Some(DayKey(TimeGroupRef, day))
        else if DayKey(Territory, day) !in m then Some(DayKey(Territory, day))
        else if DayKey(WorkingConditions, day) !in m then Some(DayKey(WorkingConditions, day))
        else if DayKey(WorkShift, day) !in m then Some(DayKey(WorkShift, day))
        else None
  {
    var ks := DayKeySeq(day);
    assert ks[1..] == [ks[1], ks[2], ks[3], ks[4]];
    FirstMissingOfFour(dictIn, ks[1], ks[2], ks[3], ks[4]);
  }

  lemma DayPresentByCases(dictIn: Json, day: int)
    ensures dictIn.JObj? ==>
      (DayPresent(dictIn.fields, day) <==> forall i | 0 <= i < 5 :: DayKeySeq(day)[i] in dictIn.fields)
  {
    if dictIn.JObj? && forall i | 0 <= i < 5 :: DayKeySeq(day)[i] in dictIn.fields {
      forall f ensures DayKey(f, day) in dictIn.fields {
        match f
        case Hours => assert DayKeySeq(day)[0] == DayKey(f, day);
        case TimeGroupRef => assert DayKeySeq(day)[1] == DayKey(f, day);
        case Territory => assert DayKeySeq(day)[2] == DayKey(f, day);
        case WorkingConditions => assert DayKeySeq(day)[3] == DayKey(f, day);
        case WorkShift => assert DayKeySeq(day)[4] == DayKey(f, day);
      }
    }
  }

  /** One element of the list comprehension in `TimeSheetLine.init_from_dict`: the
      five lookups in order, then the record constructor. */
  function ParseRecord(dictIn: Json, day: int): (r: Result<TimeSheetRecord>)
    ensures !dictIn.JObj? ==> r == Err(Untyped(TypeError))
    ensures dictIn.JObj? && FirstMissing(dictIn.fields, DayKeySeq(day)).Some? ==>
              r == Err(ObjectParse(FirstMissing(dictIn.fields, DayKeySeq(day)).value))
    ensures dictIn.JObj? && DayPresent(dictIn.fields, day) && !DayParses(dictIn.fields, day) ==>
              r == Err(HoursTenths(dictIn.fields[DayKey(Hours, day)]).error)
    ensures r.Ok? <==> dictIn.JObj? && DayParses(dictIn.fields, day)
    ensures r.Ok? ==> r.value.day == day && RecordMatches(dictIn.fields, r.value)
  {
    FirstMissingOfFive(dictIn, day);
    DayPresentByCases(dictIn, day);
    var hours :- GetItem(dictIn, DayKey(Hours, day), true);
    var timeGroup :- GetItem(dictIn, DayKey(TimeGroupRef, day), true);
    var territory :- GetItem(dictIn, DayKey(Territory, day), true);
    var conditions :- GetItem(dictIn, DayKey(WorkingConditions, day), true);
    var shift :- GetItem(dictIn, DayKey(WorkShift, day), true);
    MakeRecord(day, hours, ObjectId(timeGroup), ObjectId(territory), ObjectId(conditions), shift)
  }

  /** Records for days `from`..31, stopping at the first day that fails. */
  function ParseDays(dictIn: Json, from: int): (r: Result<seq<TimeSheetRecord>>)
    requires 1 <= from <= 32
    ensures r.Ok? <==> (from <= 31 ==> dictIn.JObj?) &&
                       forall d | from <= d <= 31 :: DayParses(dictIn.fields, d)
    ensures r.Ok? ==> |r.value| == 32 - from
    ensures r.Ok? ==> forall i | 0 <= i < |r.value| ::
                        r.value[i].day == from + i && RecordMatches(dictIn.fields, r.value[i])
    ensures r.Err? ==> exists d | from <= d <= 31 ::
                         && ParseRecord(dictIn, d).Err? && r.error == ParseRecord(dictIn, d).error
                         && forall e | from <= e < d :: ParseRecord(dictIn, e).Ok?
    decreases 32 - from
  {
    if from == 32 then Ok([])
    else
      var rec :- ParseRecord(dictIn, from);
      var rest :- ParseDays(dictIn, from + 1);
      Ok([rec] + rest)
  }

  // ---------------------------------------------------------------- lines

  datatype TimeSheetLine = TimeSheetLine(id: Json, number: Json, employee: ObjectId, records: seq<TimeSheetRecord>)

  /** The shape `init_from_dict` always produces: 31 records for days 1..31 in order. */
  predicate WellFormedLine(l: TimeSheetLine)
  {
    |l.records| == 31 && forall i | 0 <= i < 31 :: l.records[i].day == i + 1
  }

  ghost predicate AllDaysParse(m: map<string, Json>)
  {
    forall d | 1 <= d <= 31 :: DayParses(m, d)
  }

  /** `TimeSheetLine.init_from_dict`. */
  function LineFromDict(dictIn: Json): (r: Result<TimeSheetLine>)
    ensures !dictIn.JObj? ==> r == Err(Untyped(TypeError))
    ensures dictIn.JObj? && FirstMissing(dictIn.fields, [RefKey, LineNumberKey, EmployeeKey]).Some? ==>
              r == Err(ObjectParse(FirstMissing(dictIn.fields, [RefKey, LineNumberKey, EmployeeKey]).value))
    ensures r.Ok? <==> dictIn.JObj? && Names(FixedSlots) <= dictIn.fields.Keys && AllDaysParse(dictIn.fields)
    ensures r.Err? && r.error.ObjectParse? ==> dictIn.JObj? && r.error.key in LineKeys() - dictIn.fields.Keys
    ensures r.Err? && dictIn.JObj? && !r.error.ObjectParse? ==>
              exists d | 1 <= d <= 31 :: DayPresent(dictIn.fields, d) && !DayParses(dictIn.fields, d)
    ensures r.Ok? ==> var m := dictIn.fields; var l := r.value;
              && WellFormedLine(l)
              && l.id == m[RefKey] && l.number == m[LineNumberKey] && l.employee == ObjectId(m[EmployeeKey])
              && forall i | 0 <= i < 31 :: RecordMatches(m, l.records[i])
  {
    FirstMissingOfThree(dictIn, RefKey, LineNumberKey, EmployeeKey);
    var id :- GetItem(dictIn, RefKey, true);
    var number :- GetItem(dictIn, LineNumberKey, true);
    var employee :- GetItem(dictIn, EmployeeKey, true);
    var recs := ParseDays(dictIn, 1);
    if recs.Err? then
      ParseFailureKey(dictIn, recs);
      Err(recs.error)
    else
      Ok(TimeSheetLine(id, number, ObjectId(employee), recs.value))
  }

  lemma FirstMissingOfThree(dictIn: Json, a: string, b: string, c: string)
    ensures dictIn.JObj? ==>
      FirstMissing(dictIn.fields, [a, b, c]) ==
        if a !in dictIn.fields then Some(a)
        else if b !in dictIn.fields then Some(b)
        else if c !in dictIn.fields then Some(c)
        else None
  {
    assert [a, b, c][1..] == [b, c];
    FirstMissingOfTwo(dictIn, b, c);
  }

  /** A failing day reports a missing key of that day, or the hours conversion error. */
  lemma ParseFailureKey(dictIn: Json, recs: Result<seq<TimeSheetRecord>>)
    requires dictIn.JObj? && recs == ParseDays(dictIn, 1) && recs.Err?
    ensures recs.error.ObjectParse? ==> recs.error.key in LineKeys() - dictIn.fields.Keys
    ensures !recs.error.ObjectParse? ==>
              exists d | 1 <= d <= 31 :: DayPresent(dictIn.fields, d) && !DayParses(dictIn.fields, d)
  {
    var d :| 1 <= d <= 31 && ParseRecord(dictIn, d).Err? && recs.error == ParseRecord(dictIn, d).error;
    var m := dictIn.fields;
    FirstMissingOfFive(dictIn, d);
    var missing := FirstMissing(m, DayKeySeq(d));
    if missing.Some? {
      assert recs.error == ObjectParse(missing.value);
      var f := if DayKey(Hours, d) !in m then Hours
        else if DayKey(TimeGroupRef, d) !in m then TimeGroupRef
        else if DayKey(Territory, d) !in m then Territory
        else if DayKey(WorkingConditions, d) !in m then WorkingConditions
        else WorkShift;
      assert missing.value == DayKey(f, d) && DayKey(f, d) !in m;
      DayKeyInLineKeys(f, d);
    } else {
      DayPresentByCases(dictIn, d);
      assert DayPresent(m, d) && !DayParses(m, d);
      assert recs.error == HoursTenths(m[DayKey(Hours, d)]).error;
    }
  }

  /** Every sub-field key of days 1..31 is a key of a complete line. */
  lemma DayKeyInLineKeys(f: DayField, d: int)
    requires 1 <= d <= 31
    ensures DayKey(f, d) in LineKeys()
  {
    assert DaySlot(f, d) in DaySlots(Days);
    assert KeyName(DaySlot(f, d)) == DayKey(f, d);
  }

  /** The days the records are for. */
  function RecordDays(records: seq<TimeSheetRecord>): set<int>
  {
    set i | 0 <= i < |records| :: records[i].day
  }

  /** Appending a record adds its day. */
  lemma RecordDaysSnoc(records: seq<TimeSheetRecord>)
    requires records != []
    ensures RecordDays(records) == RecordDays(records[..|records| - 1]) + {records[|records| - 1].day}
  {
    var init := records[..|records| - 1];
    forall d | d in RecordDays(records) ensures d in RecordDays(init) + {records[|records| - 1].day} {
      var i :| 0 <= i < |records| && records[i].day == d;
      if i < |init| {
        assert init[i] == records[i];
      }
    }
    forall d | d in RecordDays(init) ensures d in RecordDays(records) {
      var i :| 0 <= i < |init| && init[i].day == d;
      assert records[i] == init[i];
    }
  }

  /** `{tsr.day: tsr for tsr in self.time_sheet_records}`: a later record for the
      same day replaces an earlier one. */
  function ByDay(records: seq<TimeSheetRecord>): (r: map<int, TimeSheetRecord>)
    ensures r.Keys == RecordDays(records)
    ensures forall i | 0 <= i < |records| && LastOfDay(records, i) :: r[records[i].day] == records[i]
  {
    if records == [] then map[]
    else
      var init := records[..|records| - 1];
      var last := records[|records| - 1];
      RecordDaysSnoc(records);
      ByDayStep(ByDay(init), records);
      ByDay(init)[last.day := last]
  }

  /** The inductive step of `ByDay`: if `m` maps each day of all but the final
      record to the last record for it, then overwriting the final record's day
      does the same for all the records. */
  lemma ByDayStep(m: map<int, TimeSheetRecord>, records: seq<TimeSheetRecord>)
    requires records != []
    requires var init := records[..|records| - 1];
      forall i | 0 <= i < |init| && LastOfDay(init, i) :: init[i].day in m && m[init[i].day] == init[i]
    ensures var last := records[|records| - 1];
      forall i | 0 <= i < |records| && LastOfDay(records, i) ::
        records[i].day in m[last.day := last] && m[last.day := last][records[i].day] == records[i]
  {
    var init, last := records[..|records| - 1], records[|records| - 1];
    forall i | 0 <= i < |records| && LastOfDay(records, i)
      ensures records[i].day in m[last.day := last] && m[last.day := last][records[i].day] == records[i]
    {
      if i < |init| {
        LastOfDayInInit(records, i);
      }
    }
  }

  /** A record that is the last of its day stays so without the final record,
      which is for another day. */
  lemma LastOfDayInInit(records: seq<TimeSheetRecord>, i: int)
    requires 0 <= i < |records| - 1 && LastOfDay(records, i)
    ensures var init := records[..|records| - 1];
      && init[i] == records[i] && LastOfDay(init, i) && records[|records| - 1].day != records[i].day
  {
  }

  /** No later record has the same day as record `i`. */
  predicate LastOfDay(records: seq<TimeSheetRecord>, i: int)
    requires 0 <= i < |records|
  {
    forall j | i < j < |records| :: records[j].day != records[i].day
  }

  /** The five per-day dict comprehensions of `TimeSheetLine.to_dict`, merged:
      their key sets are disjoint, so the merge holds every sub-field of every day
      of `byDay`. */
  function AllDayEntries(byDay: map<int, TimeSheetRecord>): (r: map<LineSlot, Json>)
    ensures r.Keys == DaySlots(byDay.Keys)
    ensures forall f, d | d in byDay :: r[DaySlot(f, d)] == FieldValue(f, byDay[d])
  {
    map k | k in DaySlots(byDay.Keys) :: FieldValue(k.field, byDay[k.day])
  }

  /** The dict `TimeSheetLine.to_dict` builds, under unspelled keys: the fixed
      entries merged with the per-day entries of the last record of each day. */
  function LineEntries(l: TimeSheetLine): (r: map<LineSlot, Json>)
    ensures r.Keys == FixedSlots + DaySlots(ByDay(l.records).Keys)
    ensures r[IdSlot] == l.id && r[NumberSlot] == l.number && r[EmployeeSlot] == l.employee.id
    ensures forall f, d | d in ByDay(l.records) :: r[DaySlot(f, d)] == FieldValue(f, ByDay(l.records)[d])
  {
    map[IdSlot := l.id, NumberSlot := l.number, EmployeeSlot := l.employee.id] + AllDayEntries(ByDay(l.records))
  }

  /** A dict with its keys spelled out. */
  function Spell(m: map<LineSlot, Json>): (r: map<string, Json>)
    ensures r.Keys == Names(m.Keys)
    ensures forall k | k in m :: r[KeyName(k)] == m[k]
  {
    KeyNamesInjective();
    map k | k in m :: KeyName(k) := m[k]
  }

  /** `TimeSheetLine.to_dict`: the fixed keys plus all five sub-fields of every
      day that has a record, with no truthiness filter. */
  function LineToDict(l: TimeSheetLine): (r: map<string, Json>)
    ensures r.Keys == Names(FixedSlots + DaySlots(ByDay(l.records).Keys))
    ensures && RefKey in r && r[RefKey] == l.id
            && LineNumberKey in r && r[LineNumberKey] == l.number
            && EmployeeKey in r && r[EmployeeKey] == l.employee.id
    ensures forall f, d | d in ByDay(l.records) ::
              DayKey(f, d) in r && r[DayKey(f, d)] == FieldValue(f, ByDay(l.records)[d])
  {
    var e := LineEntries(l);
    SpelledFixed(e);
    SpelledDays(e);
    Spell(e)
  }

  lemma SpelledFixed(e: map<LineSlot, Json>)
    requires FixedSlots <= e.Keys
    ensures var r := Spell(e);
      && RefKey in r && r[RefKey] == e[IdSlot]
      && LineNumberKey in r && r[LineNumberKey] == e[NumberSlot]
      && EmployeeKey in r && r[EmployeeKey] == e[EmployeeSlot]
  {
    assert KeyName(IdSlot) == RefKey && KeyName(NumberSlot) == LineNumberKey && KeyName(EmployeeSlot) == EmployeeKey;
  }

  lemma SpelledDays(e: map<LineSlot, Json>)
    ensures forall f, d | DaySlot(f, d) in e :: DayKey(f, d) in Spell(e) && Spell(e)[DayKey(f, d)] == e[DaySlot(f, d)]
  {
    forall f, d | DaySlot(f, d) in e
      ensures DayKey(f, d) in Spell(e) && Spell(e)[DayKey(f, d)] == e[DaySlot(f, d)]
    {
      assert KeyName(DaySlot(f, d)) == DayKey(f, d);
    }
  }

  // ---------------------------------------------------------------- key count

  /** Five sub-field keys per day. */
  lemma {:induction false} DaySlotsCard(lo: int, hi: int)
    requires lo <= hi + 1
    ensures |DaySlots(Range(lo, hi))| == 5 * (hi - lo + 1)
    decreases hi - lo
  {
    if lo <= hi {
      DaySlotsCard(lo, hi - 1);
      DaySlotsStep(Range(lo, hi), hi);
      assert Range(lo, hi) - {hi} == Range(lo, hi - 1);
    } else {
      assert DaySlots(Range(lo, hi)) == {};
    }
  }

  /** Adding a day adds its five sub-field keys and nothing else. */
  lemma DaySlotsStep(days: set<int>, day: int)
    requires day in days
    ensures var added := {DaySlot(Hours, day), DaySlot(TimeGroupRef, day), DaySlot(Territory, day),
                          DaySlot(WorkingConditions, day), DaySlot(WorkShift, day)};
      && DaySlots(days) == DaySlots(days - {day}) + added
      && DaySlots(days - {day}) !! added
      && |added| == 5
  {
  }

  /** A complete line has 3 + 5 * 31 = 158 keys. */
  lemma LineKeyCount()
    ensures |LineKeys()| == 158
  {
    DaySlotsCard(1, 31);
    assert FixedSlots !! DaySlots(Days);
    KeyNamesInjective();
    ImageCard(FixedSlots + DaySlots(Days), KeyName);
  }

  // ---------------------------------------------------------------- round trips

  /** In a well-formed line every day has exactly one record, so building
      `tsr_dict` loses nothing. */
  lemma ByDayOfWellFormed(l: TimeSheetLine)
    requires WellFormedLine(l)
    ensures ByDay(l.records).Keys == Days
    ensures forall d | 1 <= d <= 31 :: ByDay(l.records)[d] == l.records[d - 1]
  {
    var rs := l.records;
    forall d | 1 <= d <= 31 ensures d in ByDay(rs) && ByDay(rs)[d] == rs[d - 1] {
      assert rs[d - 1].day == d;
      assert LastOfDay(rs, d - 1);
    }
    forall d | d in ByDay(rs) ensures d in Days {
      var i :| 0 <= i < |rs| && rs[i].day == d;
    }
  }

  /** Two records that both match the wire dict for the same day are equal. */
  lemma RecordMatchesUnique(m: map<string, Json>, a: TimeSheetRecord, b: TimeSheetRecord)
    requires RecordMatches(m, a) && RecordMatches(m, b) && a.day == b.day
    ensures a == b
  {
    assert FieldValue(TimeGroupRef, a) == FieldValue(TimeGroupRef, b);
    assert FieldValue(Territory, a) == FieldValue(Territory, b);
    assert FieldValue(WorkingConditions, a) == FieldValue(WorkingConditions, b);
    assert FieldValue(WorkShift, a) == FieldValue(WorkShift, b);
  }

  /** Every record of a well-formed line matches the dict the line serialises to. */
  lemma RecordsMatchOwnDict(l: TimeSheetLine)
    requires WellFormedLine(l)
    ensures forall i | 0 <= i < 31 :: RecordMatches(LineToDict(l), l.records[i])
  {
    ByDayOfWellFormed(l);
    var m := LineToDict(l);
    forall i | 0 <= i < 31 ensures RecordMatches(m, l.records[i]) {
      var rec := l.records[i];
      assert rec.day == i + 1 && ByDay(l.records)[rec.day] == rec;
      TenthsStable(rec.tenths);
      assert m[DayKey(Hours, rec.day)] == JNum(GetHours(rec.tenths));
    }
  }

  /** The dict a well-formed line serialises to parses without error. */
  lemma OwnDictParses(l: TimeSheetLine)
    requires WellFormedLine(l)
    ensures LineFromDict(JObj(LineToDict(l))).Ok?
  {
    OwnDictDaysParse(l);
    FixedNames();
  }

  lemma OwnDictDaysParse(l: TimeSheetLine)
    requires WellFormedLine(l)
    ensures AllDaysParse(LineToDict(l))
  {
    forall d | 1 <= d <= 31 ensures DayParses(LineToDict(l), d) {
      OwnDictDayParses(l, d);
    }
  }

  lemma OwnDictDayParses(l: TimeSheetLine, d: int)
    requires WellFormedLine(l) && 1 <= d <= 31
    ensures DayParses(LineToDict(l), d)
  {
    RecordsMatchOwnDict(l);
    assert RecordMatches(LineToDict(l), l.records[d - 1]) && l.records[d - 1].day == d;
  }

  lemma FixedNames()
    ensures Names(FixedSlots) == {RefKey, LineNumberKey, EmployeeKey}
  {
    assert KeyName(IdSlot) == RefKey && KeyName(NumberSlot) == LineNumberKey && KeyName(EmployeeSlot) == EmployeeKey;
  }

  /** `TimeSheetLine.init_from_dict(line.to_dict())` rebuilds the line. */
  lemma LineRoundTrip(l: TimeSheetLine)
    requires WellFormedLine(l)
    ensures LineFromDict(JObj(LineToDict(l))) == Ok(l)
  {
    var m := LineToDict(l);
    OwnDictParses(l);
    var l' := LineFromDict(JObj(m)).value;
    RecordsMatchOwnDict(l);
    SameRecords(m, l', l);
  }

  lemma SameRecords(m: map<string, Json>, a: TimeSheetLine, b: TimeSheetLine)
    requires WellFormedLine(a) && WellFormedLine(b)
    requires forall i | 0 <= i < 31 :: RecordMatches(m, a.records[i]) && RecordMatches(m, b.records[i])
    ensures a.records == b.records
  {
    forall i | 0 <= i < 31 ensures a.records[i] == b.records[i] {
      RecordMatchesUnique(m, a.records[i], b.records[i]);
    }
  }

  /** `line.to_dict()` of a parsed line has exactly the 158 keys of a complete line. */
  lemma ParsedLineKeys(m: map<string, Json>)
    requires LineFromDict(JObj(m)).Ok?
    ensures LineToDict(LineFromDict(JObj(m)).value).Keys == LineKeys()
  {
    ByDayOfWellFormed(LineFromDict(JObj(m)).value);
  }

  /** `line.to_dict()` of a parsed line gives back the values it was parsed
      from, except the hours, which come back as `int(hours*10)/10`. */
  lemma ParsedLineToDict(m: map<string, Json>)
    requires LineFromDict(JObj(m)).Ok?
    ensures var r := LineToDict(LineFromDict(JObj(m)).value);
      && RefKey in m && r[RefKey] == m[RefKey]
      && LineNumberKey in m && r[LineNumberKey] == m[LineNumberKey]
      && EmployeeKey in m && r[EmployeeKey] == m[EmployeeKey]
    ensures forall f, d | 1 <= d <= 31 :: ParsedDayValue(m, f, d)
  {
    ParsedLineFixed(m);
    forall f, d | 1 <= d <= 31 ensures ParsedDayValue(m, f, d) {
      ParsedDay(m, f, d);
    }
  }

  lemma ParsedLineFixed(m: map<string, Json>)
    requires LineFromDict(JObj(m)).Ok?
    ensures var r := LineToDict(LineFromDict(JObj(m)).value);
      && RefKey in m && r[RefKey] == m[RefKey]
      && LineNumberKey in m && r[LineNumberKey] == m[LineNumberKey]
      && EmployeeKey in m && r[EmployeeKey] == m[EmployeeKey]
  {
    FixedNames();
  }

  /** What `to_dict` of the parsed line holds under one sub-field key of day `d`:
      the parsed value, or for the hours `int(hours*10)/10`. */
  ghost predicate ParsedDayValue(m: map<string, Json>, f: DayField, d: int)
    requires LineFromDict(JObj(m)).Ok? && 1 <= d <= 31
  {
    var r := LineToDict(LineFromDict(JObj(m)).value);
    && DayKey(f, d) in r && DayKey(f, d) in m
    && if f == Hours then
         HoursTenths(m[DayKey(f, d)]).Ok? && r[DayKey(f, d)] == JNum(GetHours(HoursTenths(m[DayKey(f, d)]).value))
       else r[DayKey(f, d)] == m[DayKey(f, d)]
  }

  lemma ParsedDay(m: map<string, Json>, f: DayField, d: int)
    requires LineFromDict(JObj(m)).Ok? && 1 <= d <= 31
    ensures ParsedDayValue(m, f, d)
  {
    var l := LineFromDict(JObj(m)).value;
    ByDayOfWellFormed(l);
    var rec := l.records[d - 1];
    assert rec.day == d && ByDay(l.records)[d] == rec;
    assert RecordMatches(m, rec);
  }

  /** When every hours value already has at most one decimal place, parsing and
      serialising again gives back exactly the line's part of the dict. */
  lemma ParsedLineToDictExact(m: map<string, Json>)
    requires LineFromDict(JObj(m)).Ok?
    requires forall d | 1 <= d <= 31 :: DayKey(Hours, d) in m && m[DayKey(Hours, d)].JNum? && IsTenth(m[DayKey(Hours, d)].n)
    ensures LineToDict(LineFromDict(JObj(m)).value) == Restrict(m, LineKeys())
  {
    ParsedLineKeys(m);
    var r := LineToDict(LineFromDict(JObj(m)).value);
    forall s | s in FixedSlots + DaySlots(Days) ensures KeyName(s) in m && KeyName(s) in r && r[KeyName(s)] == m[KeyName(s)] {
      ExactAt(m, s);
    }
    RestrictOfImage(r, m, FixedSlots + DaySlots(Days), KeyName);
  }

  lemma ExactAt(m: map<string, Json>, s: LineSlot)
    requires LineFromDict(JObj(m)).Ok?
    requires forall d | 1 <= d <= 31 :: DayKey(Hours, d) in m && m[DayKey(Hours, d)].JNum? && IsTenth(m[DayKey(Hours, d)].n)
    requires s in FixedSlots + DaySlots(Days)
    ensures var r := LineToDict(LineFromDict(JObj(m)).value);
      KeyName(s) in r && KeyName(s) in m && r[KeyName(s)] == m[KeyName(s)]
  {
    if s.DaySlot? {
      var f, d := s.field, s.day;
      assert d in Range(1, 31) && KeyName(s) == DayKey(f, d);
      ParsedDay(m, f, d);
      var r := LineToDict(LineFromDict(JObj(m)).value);
      if f == Hours {
        var h := m[DayKey(Hours, d)];
        HoursExact(h.n);
        assert h == JNum(h.n);
        assert r[DayKey(f, d)] == JNum(GetHours(HoursTenths(h).value)) == h;
      } else {
        assert r[DayKey(f, d)] == m[DayKey(f, d)];
      }
    } else {
      ParsedLineFixed(m);
      assert KeyName(s) in {RefKey, LineNumberKey, EmployeeKey};
    }
  }
}
