/**
 `TimeSheet` of client_1c_timesheet/models.py: the timesheet document whose
 lines are `TimeSheetLine`s. Its constructor clears a falsy document number, and
 its `to_dict` writes dates as ISO text and drops every falsy entry.
 */
module TimeSheets {
  import opened JsonValue
  import opened Errors
  import opened Models
  import opened Dates
  import opened TimeSheetLines
  import opened Collections

  const NumberKey: string := "Number"
  const DateKey: string := "Date"
  const PeriodKey: string := "ПериодРегистрации"
  const OrganizationRefKey: string := "Организация_Key"
  const OrgUnitKey: string := "Подразделение_Key"
  const PeriodStartKey: string := "ДатаНачалаПериода"
  const PeriodEndKey: string := "ДатаОкончанияПериода"
  const LinesKey: string := "ДанныеОВремени"

  /** Dates, the timestamp and the organisation unit are Python objects that are
      always truthy, so the only way for them to be absent is `None`. */
  datatype TimeSheet = TimeSheet(
    id: Json,
    period: Option<CalendarDate>,
    organization: ObjectId,
    dateStart: Option<CalendarDate>,
    dateEnd: Option<CalendarDate>,
    lines: seq<TimeSheetLine>,
    number: Json,
    stamp: Option<Timestamp>,
    orgunit: Option<ObjectId>)

  /** The state `__init__` leaves: the number is `None` unless it was truthy. */
  predicate Normalised(t: TimeSheet)
  {
    t.number == JNull || !Falsy(t.number)
  }

  /** `TimeSheet.__init__` on the arguments held in `given`. */
  function Construct(given: TimeSheet): (r: TimeSheet)
    ensures Normalised(r)
    ensures Falsy(given.number) ==> r.number == JNull
    ensures !Falsy(given.number) ==> r.number == given.number
    ensures r.(number := given.number) == given
  {
    if Falsy(given.number) then given.(number := JNull) else given
  }

  /** Construction leaves an already normalised timesheet as it is, so it is
      idempotent. */
  lemma ConstructIdempotent(t: TimeSheet)
    ensures Normalised(t) ==> Construct(t) == t
    ensures Construct(Construct(t)) == Construct(t)
  {
  }

  /** The serialised lines, in order. */
  function LinesJson(lines: seq<TimeSheetLine>): (r: seq<Json>)
    ensures |r| == |lines|
  {
    seq(|lines|, i requires 0 <= i < |lines| => JObj(LineToDict(lines[i])))
  }

  /** Solver helper: the `i`-th serialised line is the `i`-th line's own dict. */
  lemma LinesJsonAt(lines: seq<TimeSheetLine>, i: int)
    requires 0 <= i < |lines|
    ensures LinesJson(lines)[i] == JObj(LineToDict(lines[i]))
  {
  }

  function OrgUnitId(orgunit: Option<ObjectId>): Json
  {
    if orgunit.Some? then orgunit.value.id else JNull
  }

  /** The entries of the document dict, before their keys are spelled out. */
  datatype SheetField =
    | IdField | NumberField | StampField | PeriodField | OrganizationField
    | OrgUnitField | StartField | EndField | LinesField

  const AllSheetFields: set<SheetField> :=
    {IdField, NumberField, StampField, PeriodField, OrganizationField, OrgUnitField, StartField, EndField, LinesField}

  lemma SheetFieldListed(f: SheetField)
    ensures f in AllSheetFields
  {
  }

  function SheetKey(f: SheetField): string
  {
    match f
    case IdField => RefKey
    case NumberField => NumberKey
    case StampField => DateKey
    case PeriodField => PeriodKey
    case OrganizationField => OrganizationRefKey
    case OrgUnitField => OrgUnitKey
    case StartField => PeriodStartKey
    case EndField => PeriodEndKey
    case LinesField => LinesKey
  }

  /** The nine keys are spelled differently: by length and first two letters. */
  lemma SheetKeyInjective(a: SheetField, b: SheetField)
    requires SheetKey(a) == SheetKey(b)
    ensures a == b
  {
    var s, u := SheetKey(a), SheetKey(b);
    assert |s| == |u| && s[0] == u[0] && s[1] == u[1];
  }

  lemma SheetKeysInjective()
    ensures forall a, b | SheetKey(a) == SheetKey(b) :: a == b
  {
    forall a, b | SheetKey(a) == SheetKey(b) ensures a == b {
      SheetKeyInjective(a, b);
    }
  }

  /** The value `to_dict` computes for each entry, before filtering. */
  function EntryValue(t: TimeSheet, f: SheetField): Json
  {
    match f
    case IdField => t.id
    case NumberField => t.number
    case StampField => TimestampField(t.stamp)
    case PeriodField => DateField(t.period)
    case OrganizationField => t.organization.id
    case OrgUnitField => OrgUnitId(t.orgunit)
    case StartField => DateField(t.dateStart)
    case EndField => DateField(t.dateEnd)
    case LinesField => JArr(LinesJson(t.lines))
  }

  /** Every entry `to_dict` builds, before the falsy ones are dropped. */
  function Entries(t: TimeSheet): (r: map<SheetField, Json>)
    ensures forall f :: f in r && r[f] == EntryValue(t, f)
  {
    forall f ensures f in AllSheetFields {
      SheetFieldListed(f);
    }
    map f | f in AllSheetFields :: EntryValue(t, f)
  }

  /** A dict with its keys spelled out. */
  function SpellSheet(m: map<SheetField, Json>): (r: map<string, Json>)
    ensures forall f :: SheetKey(f) in r <==> f in m
    ensures forall f | f in m :: r[SheetKey(f)] == m[f]
  {
    SheetKeysInjective();
    map f | f in m :: SheetKey(f) := m[f]
  }

  /** What `to_dict` keeps of one entry: present exactly when truthy, and then
      unchanged. */
  predicate Emits(r: map<string, Json>, t: TimeSheet, f: SheetField)
  {
    EmitsTruthy(r, SheetKey(f), EntryValue(t, f))
  }

  /** A date entry: present exactly when the date is set, and then its text. */
  predicate HoldsDate(r: map<string, Json>, key: string, d: Option<CalendarDate>)
  {
    (key in r <==> d.Some?) && (key in r ==> r[key] == DateField(d))
  }

  predicate HoldsStamp(r: map<string, Json>, key: string, t: Option<Timestamp>)
  {
    (key in r <==> t.Some?) && (key in r ==> r[key] == TimestampField(t))
  }

  /** `TimeSheet.to_dict`: every entry that is truthy, under its key. */
  function TimeSheetToDict(t: TimeSheet): (r: map<string, Json>)
    ensures forall f :: Emits(r, t, f)
  {
    var r := SpellSheet(FilterFalsy(Entries(t)));
    forall f ensures Emits(r, t, f) {
      SheetFieldListed(f);
    }
    r
  }

  /** Nothing but the nine document keys is ever written. */
  lemma TimeSheetDictKeys(t: TimeSheet)
    ensures TimeSheetToDict(t).Keys <= Image(AllSheetFields, SheetKey)
  {
    var m := FilterFalsy(Entries(t));
    assert m.Keys <= AllSheetFields;
    assert SpellSheet(m).Keys == Image(m.Keys, SheetKey);
  }

  /** The identifier, the number and the organisation are kept exactly when
      truthy; the organisation unit exactly when it is set and its identifier is
      truthy. */
  lemma TimeSheetDictIds(t: TimeSheet)
    ensures var r := TimeSheetToDict(t);
      && EmitsTruthy(r, RefKey, t.id)
      && EmitsTruthy(r, NumberKey, t.number)
      && EmitsTruthy(r, OrganizationRefKey, t.organization.id)
      && (OrgUnitKey in r <==> t.orgunit.Some? && !Falsy(t.orgunit.value.id))
      && (OrgUnitKey in r ==> r[OrgUnitKey] == t.orgunit.value.id)
  {
    EmittedAt(t, IdField);
    EmittedAt(t, NumberField);
    EmittedAt(t, OrganizationField);
    EmittedAt(t, OrgUnitField);
    IdEntries(t);
    EmitsOrgUnit(TimeSheetToDict(t), t.orgunit);
  }

  /** Solver helper: the key and the pre-filter value of the identifier entries,
      stated apart so that the proofs using them do not unfold `EntryValue`. */
  lemma IdEntries(t: TimeSheet)
    ensures SheetKey(IdField) == RefKey && EntryValue(t, IdField) == t.id
    ensures SheetKey(NumberField) == NumberKey && EntryValue(t, NumberField) == t.number
    ensures SheetKey(OrganizationField) == OrganizationRefKey && EntryValue(t, OrganizationField) == t.organization.id
    ensures SheetKey(OrgUnitField) == OrgUnitKey && EntryValue(t, OrgUnitField) == OrgUnitId(t.orgunit)
  {
  }

  /** Solver helper over a plain dict: an optional reference written through the
      falsy filter is present exactly when it is set with a truthy identifier. */
  lemma EmitsOrgUnit(r: map<string, Json>, orgunit: Option<ObjectId>)
    requires EmitsTruthy(r, OrgUnitKey, OrgUnitId(orgunit))
    ensures OrgUnitKey in r <==> orgunit.Some? && !Falsy(orgunit.value.id)
    ensures OrgUnitKey in r ==> r[OrgUnitKey] == orgunit.value.id
  {
  }

  /** The three dates and the timestamp are present exactly when they are set,
      as their ISO text. */
  lemma TimeSheetDictDates(t: TimeSheet)
    ensures var r := TimeSheetToDict(t);
      && HoldsStamp(r, DateKey, t.stamp)
      && HoldsDate(r, PeriodKey, t.period)
      && HoldsDate(r, PeriodStartKey, t.dateStart)
      && HoldsDate(r, PeriodEndKey, t.dateEnd)
  {
    EmittedAt(t, StampField);
    EmittedAt(t, PeriodField);
    EmittedAt(t, StartField);
    EmittedAt(t, EndField);
    StampEntry(t);
    DateEntries(t);
    var r := TimeSheetToDict(t);
    EmitsStamp(r, DateKey, t.stamp);
    EmitsDate(r, PeriodKey, t.period);
    EmitsDate(r, PeriodStartKey, t.dateStart);
    EmitsDate(r, PeriodEndKey, t.dateEnd);
  }

  /** Solver helper: the key and pre-filter value of the timestamp entry. */
  lemma StampEntry(t: TimeSheet)
    ensures SheetKey(StampField) == DateKey && EntryValue(t, StampField) == TimestampField(t.stamp)
  {
  }

  /** Solver helper: the keys and pre-filter values of the three date entries. */
  lemma DateEntries(t: TimeSheet)
    ensures SheetKey(PeriodField) == PeriodKey && EntryValue(t, PeriodField) == DateField(t.period)
    ensures SheetKey(StartField) == PeriodStartKey && EntryValue(t, StartField) == DateField(t.dateStart)
    ensures SheetKey(EndField) == PeriodEndKey && EntryValue(t, EndField) == DateField(t.dateEnd)
  {
  }

  /** Solver helper over a plain dict: a written timestamp is never falsy, so the filter keeps exactly the set ones. */
  lemma EmitsStamp(r: map<string, Json>, key: string, v: Option<Timestamp>)
    requires EmitsTruthy(r, key, TimestampField(v))
    ensures HoldsStamp(r, key, v)
  {
  }

  /** Solver helper over a plain dict: a written date is never falsy, so the filter keeps exactly the set ones. */
  lemma EmitsDate(r: map<string, Json>, key: string, d: Option<CalendarDate>)
    requires EmitsTruthy(r, key, DateField(d))
    ensures HoldsDate(r, key, d)
  {
  }

  /** The lines are present exactly when there are some, each one as its own
      `to_dict`, in order. */
  lemma TimeSheetDictLines(t: TimeSheet)
    ensures var r := TimeSheetToDict(t);
      && (LinesKey in r <==> |t.lines| > 0)
      && (LinesKey in r ==> r[LinesKey] == JArr(LinesJson(t.lines)))
  {
    EmittedAt(t, LinesField);
    LinesEntry(t);
    EmitsList(TimeSheetToDict(t), LinesKey, LinesJson(t.lines), |t.lines|);
  }

  /** Solver helper: the key and pre-filter value of the lines entry. */
  lemma LinesEntry(t: TimeSheet)
    ensures SheetKey(LinesField) == LinesKey && EntryValue(t, LinesField) == JArr(LinesJson(t.lines))
  {
  }

  /** Solver helper over a plain dict: a list entry of a falsy-dropping dict is present exactly when the list has
      elements. */
  lemma EmitsList(r: map<string, Json>, key: string, xs: seq<Json>, n: nat)
    requires EmitsTruthy(r, key, JArr(xs)) && |xs| == n
    ensures (key in r <==> n > 0) && (key in r ==> r[key] == JArr(xs))
  {
  }

  /** Solver helper: one entry of `TimeSheetToDict`, through the filter. */
  lemma EmittedAt(t: TimeSheet, f: SheetField)
    ensures EmitsTruthy(TimeSheetToDict(t), SheetKey(f), EntryValue(t, f))
  {
    assert Emits(TimeSheetToDict(t), t, f);
  }

  /** Every line the document carries reads back as the line it was written from. */
  lemma {:induction false} LinesRoundTrip(t: TimeSheet)
    requires forall i | 0 <= i < |t.lines| :: WellFormedLine(t.lines[i])
    ensures var r := TimeSheetToDict(t);
      LinesKey in r ==>
        && r[LinesKey].JArr?
        && |r[LinesKey].items| == |t.lines|
        && forall i | 0 <= i < |t.lines| :: LineFromDict(r[LinesKey].items[i]) == Ok(t.lines[i])
  {
    TimeSheetDictLines(t);
    forall i | 0 <= i < |t.lines|
      ensures LineFromDict(LinesJson(t.lines)[i]) == Ok(t.lines[i])
    {
      LineElementRoundTrip(t.lines, i);
    }
  }

  lemma LineElementRoundTrip(lines: seq<TimeSheetLine>, i: int)
    requires 0 <= i < |lines| && WellFormedLine(lines[i])
    ensures LineFromDict(LinesJson(lines)[i]) == Ok(lines[i])
  {
    LinesJsonAt(lines, i);
    LineRoundTrip(lines[i]);
  }

  /** Clearing a falsy number in the constructor is invisible in the dict: the
      filter would have dropped it anyway. */
  lemma ConstructKeepsDict(t: TimeSheet)
    ensures TimeSheetToDict(Construct(t)) == TimeSheetToDict(t)
  {
    var a, b := FilterFalsy(Entries(Construct(t))), FilterFalsy(Entries(t));
    forall f ensures f in a <==> f in b {
      assert EntryValue(Construct(t), f) == EntryValue(t, f) || f == NumberField;
    }
    forall f | f in a ensures a[f] == b[f] {
      assert EntryValue(Construct(t), f) == EntryValue(t, f) || f == NumberField;
    }
    assert a == b;
  }
}
