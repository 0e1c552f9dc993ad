/**
 `TimeEntry` of client_1c_timesheet/models.py: the `truncate` helper its
 `__str__` uses, the optional-field logic of `to_dict`, and the matching
 optional-field reads of `init_from_dict`. The start and end instants are held
 as the wire text the datetime adapter would produce; that adapter is not part
 of this model.
 */
module TimeEntries {
  import opened JsonValue
  import opened Errors
  import opened Text
  import opened Models

  // ------------------------------------------------------------------ truncate

  const Ellipsis: string := "..."

  /** `truncate(msg, length)`: a message with anything beyond `length` loses its
      tail and gets `...`, cut so the result is `length` long; Python slice
      rules apply to a negative or tiny `length`. */
  function Truncate(msg: string, length: int): (r: string)
    ensures r == msg || (|r| >= 3 && r[|r| - 3..] == Ellipsis && r[..|r| - 3] <= msg)
    ensures 0 <= length && |msg| <= length ==> r == msg
    ensures 3 <= length < |msg| ==> |r| == length && r[..length - 3] == msg[..length - 3] && r[length - 3..] == Ellipsis
  {
    if SliceFrom(msg, length) != [] then
      var head := SliceTo(msg, length - 3);
      assert (head + Ellipsis)[..|head|] == head;
      head + Ellipsis
    else msg
  }

  /** `truncate` with its default length of 30. */
  function TruncateDefault(msg: string): (r: string)
    ensures |r| <= 30
    ensures |msg| <= 30 ==> r == msg
  {
    Truncate(msg, 30)
  }

  /** Truncating twice to the same length of at least 3 changes nothing more. */
  lemma TruncateIdempotent(msg: string, length: int)
    requires length >= 3
    ensures Truncate(Truncate(msg, length), length) == Truncate(msg, length)
  {
  }

  /** Below a length of 3 the cut position `length - 3` is negative and counts
      from the end: a message that does not fit keeps all but its last
      `3 - length` characters and gains the ellipsis, so the result is longer
      than `length`. A negative `length` also counts from the end, so every
      non-empty message is cut. */
  lemma TruncateShortLength(msg: string, length: int)
    requires length < 3
    ensures (if length >= 0 then length < |msg| else msg != []) ==>
              var cut := if |msg| + length >= 3 then |msg| + length - 3 else 0;
              Truncate(msg, length) == msg[..cut] + Ellipsis && |Truncate(msg, length)| > length
    ensures (if length >= 0 then |msg| <= length else msg == []) ==> Truncate(msg, length) == msg
  {
  }

  /** With length 0, a six-letter message keeps three letters and gains the
      ellipsis. */
  lemma TruncateToZero()
    ensures Truncate("abcdef", 0) == "abc..."
  {
  }

  // ------------------------------------------------------------------ to_dict

  const IdKey: string := "id"
  const StartKey: string := "start"
  const DescriptionField: string := "description"
  const UserIdKey: string := "userId"
  const EndKey: string := "end"
  const ProjectIdKey: string := "projectId"
  const TaskIdKey: string := "taskId"
  const TagIdsKey: string := "tagIds"

  /** A time entry. `start` and `end` are the wire text of the instants; the
      project, task and tag references are optional objects, always truthy when
      present; `tags` may also be an empty list. */
  datatype TimeEntry = TimeEntry(
    id: Json,
    start: string,
    user: ObjectId,
    description: Json,
    project: Option<ObjectId>,
    task: Option<ObjectId>,
    tags: Option<seq<ObjectId>>,
    end: Option<string>)

  function Ids(objs: seq<ObjectId>): (r: seq<Json>)
    ensures |r| == |objs|
    ensures forall i | 0 <= i < |objs| :: r[i] == objs[i].id
  {
    seq(|objs|, i requires 0 <= i < |objs| => objs[i].id)
  }

  predicate HasTags(e: TimeEntry)
  {
    e.tags.Some? && e.tags.value != []
  }

  /** The dict `to_dict` assembles before filtering: the four fixed entries, and
      each optional entry only when its object is truthy. */
  function EntryDict(e: TimeEntry): map<string, Json>
  {
    var base := map[IdKey := e.id, StartKey := JStr(e.start), DescriptionField := e.description, UserIdKey := e.user.id];
    var withEnd := if e.end.Some? then base[EndKey := JStr(e.end.value)] else base;
    var withProject := if e.project.Some? then withEnd[ProjectIdKey := e.project.value.id] else withEnd;
    var withTask := if e.task.Some? then withProject[TaskIdKey := e.task.value.id] else withProject;
    if HasTags(e) then withTask[TagIdsKey := JArr(Ids(e.tags.value))] else withTask
  }

  /** `TimeEntry.to_dict`: each optional entry is written when its object is set
      and what it holds is truthy; falsy fixed entries are dropped too. */
  function TimeEntryToDict(e: TimeEntry): (r: map<string, Json>)
    ensures r.Keys <= {IdKey, StartKey, DescriptionField, UserIdKey, EndKey, ProjectIdKey, TaskIdKey, TagIdsKey}
    ensures forall k | k in r :: !Falsy(r[k])
    ensures EmitsTruthy(r, IdKey, e.id)
    ensures EmitsTruthy(r, StartKey, JStr(e.start))
    ensures EmitsTruthy(r, DescriptionField, e.description)
    ensures EmitsTruthy(r, UserIdKey, e.user.id)
  {
    FilterFalsy(EntryDict(e))
  }

  /** The end instant is written when it is set and its text is not empty. */
  lemma TimeEntryDictEnd(e: TimeEntry)
    ensures var r := TimeEntryToDict(e);
      && (EndKey in r <==> e.end.Some? && e.end.value != [])
      && (EndKey in r ==> r[EndKey] == JStr(e.end.value))
  {
  }

  /** A project or task reference is written when it is set and its identifier
      is truthy. */
  lemma TimeEntryDictReferences(e: TimeEntry)
    ensures var r := TimeEntryToDict(e);
      && (ProjectIdKey in r <==> e.project.Some? && !Falsy(e.project.value.id))
      && (ProjectIdKey in r ==> r[ProjectIdKey] == e.project.value.id)
      && (TaskIdKey in r <==> e.task.Some? && !Falsy(e.task.value.id))
      && (TaskIdKey in r ==> r[TaskIdKey] == e.task.value.id)
  {
  }

  /** The tag identifiers are written, in order, exactly when the tag list is
      set and not empty. */
  lemma TimeEntryDictTags(e: TimeEntry)
    ensures var r := TimeEntryToDict(e);
      && (TagIdsKey in r <==> HasTags(e))
      && (TagIdsKey in r ==> r[TagIdsKey] == JArr(Ids(e.tags.value)))
  {
  }

  // ------------------------------------------------------- init_from_dict reads

  /** The fields `init_from_dict` reads with `raise_error=False`. */
  datatype OptionalFields = OptionalFields(
    user: ObjectId,
    description: Json,
    project: Option<ObjectId>,
    task: Option<ObjectId>,
    tags: Option<seq<ObjectId>>)

  /** An optional reference: absent or falsy gives `None`. */
  function OptionalId(dictIn: Json, key: string): (r: Result<Option<ObjectId>>)
    ensures !dictIn.JObj? ==> r == Err(Untyped(TypeError))
    ensures dictIn.JObj? ==> r.Ok?
    ensures dictIn.JObj? ==>
      r.value == if key in dictIn.fields && !Falsy(dictIn.fields[key]) then Some(ObjectId(dictIn.fields[key])) else None
  {
    var v :- GetItem(dictIn, key, false);
    Ok(if Falsy(v) then None else Some(ObjectId(v)))
  }

  /** `[APIObjectID(t) for t in tag_ids] if tag_ids else None`: a truthy list
      gives one reference per element and a truthy string one per character;
      numbers and booleans are not iterable. */
  function OptionalTags(dictIn: Json): (r: Result<Option<seq<ObjectId>>>)
    ensures !dictIn.JObj? ==> r == Err(Untyped(TypeError))
    ensures dictIn.JObj? && (TagIdsKey !in dictIn.fields || Falsy(dictIn.fields[TagIdsKey])) ==> r == Ok(None)
    ensures dictIn.JObj? && TagIdsKey in dictIn.fields && dictIn.fields[TagIdsKey].JArr? && dictIn.fields[TagIdsKey].items != [] ==>
              r.Ok? && r.value.Some? && Ids(r.value.value) == dictIn.fields[TagIdsKey].items
  {
    var v :- GetItem(dictIn, TagIdsKey, false);
    if Falsy(v) then Ok(None)
    else if v.JArr? then
      var objs := seq(|v.items|, i requires 0 <= i < |v.items| => ObjectId(v.items[i]));
      assert Ids(objs) == v.items;
      Ok(Some(objs))
    else if v.JStr? then
      Ok(Some(seq(|v.s|, i requires 0 <= i < |v.s| => ObjectId(JStr([v.s[i]])))))
    else Err(Untyped(TypeError))
  }

  /** `tagIds` is absent, falsy, or something a `for` loop can walk. */
  predicate TagsIterable(m: map<string, Json>)
  {
    TagIdsKey !in m || Falsy(m[TagIdsKey]) || m[TagIdsKey].JArr? || m[TagIdsKey].JStr?
  }

  /** `get_item(dict_in, key, raise_error=False)` on a dict: the value, or
      `None` when the key is absent. */
  function ValueOrNone(m: map<string, Json>, key: string): (r: Json)
    ensures r == GetItem(JObj(m), key, false).value
  {
    if key in m then m[key] else JNull
  }

  /** The optional reads of `init_from_dict`, in its order. On a dict only the
      tag list can fail. */
  function ReadOptionalFields(dictIn: Json): (r: Result<OptionalFields>)
    ensures r.Ok? <==> dictIn.JObj? && TagsIterable(dictIn.fields)
    ensures !dictIn.JObj? ==> r == Err(Untyped(TypeError))
    ensures r.Ok? ==> var m := dictIn.fields;
              && r.value.user == ObjectId(if UserIdKey in m then m[UserIdKey] else JNull)
              && r.value.description == (if DescriptionField in m then m[DescriptionField] else JNull)
              && r.value.project == (if ProjectIdKey in m && !Falsy(m[ProjectIdKey]) then Some(ObjectId(m[ProjectIdKey])) else None)
              && r.value.task == (if TaskIdKey in m && !Falsy(m[TaskIdKey]) then Some(ObjectId(m[TaskIdKey])) else None)
              && r.value.tags == OptionalTags(dictIn).value
  {
    match dictIn
    case JObj(m) =>
      var tags :- OptionalTags(dictIn);
      Ok(OptionalFields(
        ObjectId(ValueOrNone(m, UserIdKey)),
        ValueOrNone(m, DescriptionField),
        OptionalId(dictIn, ProjectIdKey).value,
        OptionalId(dictIn, TaskIdKey).value,
        tags))
    case _ => Err(Untyped(TypeError))
  }

  /** What survives a trip through `to_dict`: falsy values come back as `None`,
      and a reference whose identifier is falsy, or an empty tag list, is lost. */
  function Surviving(e: TimeEntry): OptionalFields
  {
    OptionalFields(
      ObjectId(if Falsy(e.user.id) then JNull else e.user.id),
      if Falsy(e.description) then JNull else e.description,
      if e.project.Some? && !Falsy(e.project.value.id) then e.project else None,
      if e.task.Some? && !Falsy(e.task.value.id) then e.task else None,
      if HasTags(e) then e.tags else None)
  }

  /** Reading the optional fields back from `to_dict` recovers them, up to the
      values the truthiness filter drops. */
  lemma OptionalFieldsRoundTrip(e: TimeEntry)
    ensures ReadOptionalFields(JObj(TimeEntryToDict(e))) == Ok(Surviving(e))
  {
    var m := TimeEntryToDict(e);
    TimeEntryDictReferences(e);
    TagsRoundTrip(e);
    assert ValueOrNone(m, UserIdKey) == Surviving(e).user.id;
    assert ValueOrNone(m, DescriptionField) == Surviving(e).description;
  }

  /** The tag list comes back exactly when it was written, and in order. */
  lemma TagsRoundTrip(e: TimeEntry)
    ensures OptionalTags(JObj(TimeEntryToDict(e))) == Ok(if HasTags(e) then e.tags else None)
  {
    var tags := OptionalTags(JObj(TimeEntryToDict(e)));
    TimeEntryDictTags(e);
    if HasTags(e) {
      var got := tags.value.value;
      assert Ids(got) == Ids(e.tags.value);
      assert got == e.tags.value by {
        forall i | 0 <= i < |got| ensures got[i] == e.tags.value[i] {
          assert got[i].id == Ids(got)[i];
        }
      }
    }
  }

  // ------------------------------------------------- the undefined datetime name

  /** `TimeEntry.to_dict` as written: the `start` entry of the first dict it builds
      calls `ClockifyDatetime`, a name the module never defines, so every call
      raises `NameError` before anything is returned. */
  function TimeEntryToDictAsWritten(e: TimeEntry): (r: Result<map<string, Json>>)
    ensures r.Err? && r.error.Untyped? && r.error.builtin == NameError
  {
    Err(Untyped(NameError))
  }

  /** No time entry serialises as written, while the evidently intended
      serialiser, `TimeEntryToDict`, always returns a dict that keeps every truthy
      fixed entry. */
  lemma ToDictAsWrittenFails(e: TimeEntry)
    ensures TimeEntryToDictAsWritten(e) != Ok(TimeEntryToDict(e))
    ensures !IsInstance(TimeEntryToDictAsWritten(e).error, Client1CException)
    ensures e.start != [] ==> StartKey in TimeEntryToDict(e)
  {
  }

  const TimeIntervalKey: string := "timeInterval"

  /** `get_datetime(dict_in, key, raise_error)` as written: the lookup, then `None`
      for a falsy value. A truthy value reaches the same undefined name and
      raises `NameError`, so no instant is ever returned. */
  function GetDatetime(dictIn: Json, key: string, raiseError: bool): (r: Result<Option<string>>)
    ensures r.Ok? <==> dictIn.JObj? && (if key in dictIn.fields then Falsy(dictIn.fields[key]) else !raiseError)
    ensures r.Ok? ==> r.value.None?
    ensures dictIn.JObj? && key in dictIn.fields && !Falsy(dictIn.fields[key]) ==> r == Err(Untyped(NameError))
    ensures GetItem(dictIn, key, raiseError).Err? ==> r == Err(GetItem(dictIn, key, raiseError).error)
  {
    var v :- GetItem(dictIn, key, raiseError);
    if Falsy(v) then Ok(None) else Err(Untyped(NameError))
  }

  /** What `TimeEntry.init_from_dict` reads, as written: the identifier, the start
      and end instants, which can only be `None`, and the optional fields. */
  datatype EntryRead = EntryRead(id: Json, start: Option<string>, optional: OptionalFields, end: Option<string>)

  /** The interval holds a truthy `start`, after the two required lookups that
      precede it succeeded. */
  predicate StartIsSet(dictIn: Json)
  {
    && dictIn.JObj? && TimeIntervalKey in dictIn.fields && IdKey in dictIn.fields
    && var interval := dictIn.fields[TimeIntervalKey];
    && interval.JObj? && StartKey in interval.fields && !Falsy(interval.fields[StartKey])
  }

  /** `TimeEntry.init_from_dict` as written, in its order: `timeInterval` and `id`
      are required, `start` is required in the interval, the optional fields
      follow, and `end` is read last. */
  function TimeEntryFromDict(dictIn: Json): (r: Result<EntryRead>)
    ensures !dictIn.JObj? ==> r == Err(Untyped(TypeError))
    ensures dictIn.JObj? && TimeIntervalKey !in dictIn.fields ==> r == Err(ObjectParse(TimeIntervalKey))
    ensures dictIn.JObj? && TimeIntervalKey in dictIn.fields && IdKey !in dictIn.fields ==> r == Err(ObjectParse(IdKey))
    ensures StartIsSet(dictIn) ==> r == Err(Untyped(NameError))
    ensures r.Ok? <==>
              && dictIn.JObj? && TimeIntervalKey in dictIn.fields && IdKey in dictIn.fields
              && var interval := dictIn.fields[TimeIntervalKey];
              && interval.JObj? && StartKey in interval.fields && Falsy(interval.fields[StartKey])
              && TagsIterable(dictIn.fields)
              && (EndKey in interval.fields ==> Falsy(interval.fields[EndKey]))
    ensures r.Ok? ==> r.value == EntryRead(dictIn.fields[IdKey], None, ReadOptionalFields(dictIn).value, None)
  {
    var interval :- GetItem(dictIn, TimeIntervalKey, true);
    var id :- GetItem(dictIn, IdKey, true);
    var start :- GetDatetime(interval, StartKey, true);
    var optional :- ReadOptionalFields(dictIn);
    var end :- GetDatetime(interval, EndKey, false);
    Ok(EntryRead(id, start, optional, end))
  }

  /** The intended `to_dict` writes `start` at the top level, while
      `init_from_dict` looks for it inside `timeInterval`: what one writes the
      other cannot read. */
  lemma ToDictLacksInterval(e: TimeEntry)
    ensures TimeEntryFromDict(JObj(TimeEntryToDict(e))) == Err(ObjectParse(TimeIntervalKey))
  {
  }
}
