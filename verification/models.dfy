/**
 The plain entities of client_1c_timesheet/models.py: `APIObjectID`,
 `NamedAPIObject` (also `Organization` and `Person`), `TimeGroup` and `Employee`,
 each with its `init_from_dict` parser and `to_dict` serialiser, and the
 `get_item` lookup they all share.
 */
module Models {
  import opened JsonValue
  import opened Errors

  const RefKey: string := "Ref_Key"
  const DescriptionKey: string := "Description"
  const LetterKey: string := "БуквенныйКод"
  const DigitKey: string := "ЦифровойКод"
  const PersonKey: string := "ФизическоеЛицо_Key"
  const OrganizationKey: string := "ГоловнаяОрганизация_Key"

  /** `APIObject.get_item(dict_in, key, raise_error)`. Indexing something that is
      not a dict raises TypeError, which the `except KeyError` does not catch; an
      absent key gives `None` when `raise_error` is off. */
  function GetItem(dictIn: Json, key: string, raiseError: bool): (r: Result<Json>)
    ensures dictIn.JObj? && key in dictIn.fields ==> r == Ok(dictIn.fields[key])
    ensures dictIn.JObj? && key !in dictIn.fields && raiseError ==> r == Err(ObjectParse(key))
    ensures dictIn.JObj? && key !in dictIn.fields && !raiseError ==> r == Ok(JNull)
    ensures !dictIn.JObj? ==> r == Err(Untyped(TypeError))
  {
    match dictIn
    case JObj(m) =>
      if key in m then Ok(m[key])
      else if raiseError then Err(ObjectParse(key))
      else Ok(JNull)
    case _ => Err(Untyped(TypeError))
  }

  /** The first of `keys`, in order, that `m` lacks: the key a sequence of
      required lookups stops at. */
  function FirstMissing(m: map<string, Json>, keys: seq<string>): (r: Option<string>)
    ensures r.None? <==> forall i | 0 <= i < |keys| :: keys[i] in m
    ensures r.None? ==> forall k | k in keys :: k in m
    ensures r.Some? ==> exists i | 0 <= i < |keys| ::
                          keys[i] == r.value && r.value !in m && forall j | 0 <= j < i :: keys[j] in m
  {
    if keys == [] then None
    else if keys[0] !in m then Some(keys[0])
    else
      var rest := FirstMissing(m, keys[1..]);
      assert forall i | 1 <= i < |keys| :: keys[i] == keys[1..][i - 1];
      rest
  }

  lemma FirstMissingOfTwo(dictIn: Json, a: string, b: string)
    ensures dictIn.JObj? ==>
      FirstMissing(dictIn.fields, [a, b]) ==
        if a !in dictIn.fields then Some(a)
        else if b !in dictIn.fields then Some(b)
        else None
  {
    assert [a, b][1..] == [b];
    assert [b][1..] == [];
  }

  lemma FirstMissingOfFour(dictIn: Json, a: string, b: string, c: string, d: string)
    ensures dictIn.JObj? ==>
      FirstMissing(dictIn.fields, [a, b, c, d]) ==
        if a !in dictIn.fields then Some(a)
        else if b !in dictIn.fields then Some(b)
        else if c !in dictIn.fields then Some(c)
        else if d !in dictIn.fields then Some(d)
        else None
  {
    assert [a, b, c, d][1..] == [b, c, d];
    FirstMissingOfTwo(dictIn, c, d);
    assert [b, c, d][1..] == [c, d];
  }

  /** `(key in r) == bool(v)`, and a present key holds `v` unchanged: how the
      falsy-dropping serialisers emit one field. */
  predicate EmitsTruthy(r: map<string, Json>, key: string, v: Json)
  {
    (key in r <==> !Falsy(v)) && (key in r ==> r[key] == v)
  }

  // ---------------------------------------------------------------- APIObjectID

  datatype ObjectId = ObjectId(id: Json)

  function ObjectIdFromDict(dictIn: Json): (r: Result<ObjectId>)
    ensures dictIn.JObj? && RefKey in dictIn.fields ==> r == Ok(ObjectId(dictIn.fields[RefKey]))
    ensures dictIn.JObj? && RefKey !in dictIn.fields ==> r == Err(ObjectParse(RefKey))
    ensures !dictIn.JObj? ==> r == Err(Untyped(TypeError))
  {
    var id :- GetItem(dictIn, RefKey, true);
    Ok(ObjectId(id))
  }

  function ObjectIdToDict(o: ObjectId): (r: map<string, Json>)
    ensures r.Keys == {RefKey} && r[RefKey] == o.id
  {
    map[RefKey := o.id]
  }

  lemma ObjectIdRoundTrip(o: ObjectId)
    ensures ObjectIdFromDict(JObj(ObjectIdToDict(o))) == Ok(o)
  {
  }

  // ------------------------------------------------------------- NamedAPIObject

  /** `NamedAPIObject`, and `Organization` and `Person`, which add nothing to it. */
  datatype NamedObject = NamedObject(id: Json, name: Json)

  function NamedFromDict(dictIn: Json): (r: Result<NamedObject>)
    ensures !dictIn.JObj? ==> r == Err(Untyped(TypeError))
    ensures dictIn.JObj? ==>
      match FirstMissing(dictIn.fields, [RefKey, DescriptionKey])
      case None => r == Ok(NamedObject(dictIn.fields[RefKey], dictIn.fields[DescriptionKey]))
      case Some(k) => r == Err(ObjectParse(k))
  {
    FirstMissingOfTwo(dictIn, RefKey, DescriptionKey);
    var id :- GetItem(dictIn, RefKey, true);
    var name :- GetItem(dictIn, DescriptionKey, true);
    Ok(NamedObject(id, name))
  }

  /** The `APIObjectID` part of the dict plus exactly `Description`. */
  function NamedToDict(n: NamedObject): (r: map<string, Json>)
    ensures r.Keys == ObjectIdToDict(ObjectId(n.id)).Keys + {DescriptionKey}
    ensures r - {DescriptionKey} == ObjectIdToDict(ObjectId(n.id))
    ensures r[DescriptionKey] == n.name
  {
    ObjectIdToDict(ObjectId(n.id)) + map[DescriptionKey := n.name]
  }

  lemma NamedRoundTrip(n: NamedObject)
    ensures NamedFromDict(JObj(NamedToDict(n))) == Ok(n)
  {
  }

  // ------------------------------------------------------------------ TimeGroup

  datatype TimeGroup = TimeGroup(id: Json, name: Json, letter: Json, digit: Json)

  const TimeGroupKeys: seq<string> := [RefKey, DescriptionKey, LetterKey, DigitKey]

  function TimeGroupFromDict(dictIn: Json): (r: Result<TimeGroup>)
    ensures !dictIn.JObj? ==> r == Err(Untyped(TypeError))
    ensures dictIn.JObj? ==>
      match FirstMissing(dictIn.fields, TimeGroupKeys)
      case None =>
        var m := dictIn.fields;
        r == Ok(TimeGroup(m[RefKey], m[DescriptionKey], m[LetterKey], m[DigitKey]))
      case Some(k) => r == Err(ObjectParse(k))
  {
    FirstMissingOfFour(dictIn, RefKey, DescriptionKey, LetterKey, DigitKey);
    var id :- GetItem(dictIn, RefKey, true);
    var name :- GetItem(dictIn, DescriptionKey, true);
    var letter :- GetItem(dictIn, LetterKey, true);
    var digit :- GetItem(dictIn, DigitKey, true);
    Ok(TimeGroup(id, name, letter, digit))
  }

  /** Named dict plus the two codes, then every falsy entry dropped. */
  function TimeGroupToDict(g: TimeGroup): (r: map<string, Json>)
    ensures r.Keys <= {RefKey, DescriptionKey, LetterKey, DigitKey}
    ensures EmitsTruthy(r, RefKey, g.id)
    ensures EmitsTruthy(r, DescriptionKey, g.name)
    ensures EmitsTruthy(r, LetterKey, g.letter)
    ensures EmitsTruthy(r, DigitKey, g.digit)
  {
    var asDict := NamedToDict(NamedObject(g.id, g.name)) + map[LetterKey := g.letter, DigitKey := g.digit];
    FilterFalsy(asDict)
  }

  /** Reading back what `to_dict` wrote gives the same group exactly when no field
      is falsy; a falsy field was dropped, and the parser then reports the first
      such key as missing. */
  lemma {:induction false} TimeGroupRoundTrip(g: TimeGroup)
    ensures var r := TimeGroupFromDict(JObj(TimeGroupToDict(g)));
      && (r == Ok(g) <==> !Falsy(g.id) && !Falsy(g.name) && !Falsy(g.letter) && !Falsy(g.digit))
      && (r != Ok(g) ==> r == Err(ObjectParse(FirstMissing(TimeGroupToDict(g), TimeGroupKeys).value)))
  {
    var d := TimeGroupToDict(g);
    var r := TimeGroupFromDict(JObj(d));
    match FirstMissing(d, TimeGroupKeys)
    case None =>
      assert TimeGroupKeys[0] in d && TimeGroupKeys[1] in d && TimeGroupKeys[2] in d && TimeGroupKeys[3] in d;
    case Some(k) =>
      assert r == Err(ObjectParse(k));
  }

  // ------------------------------------------------------------------- Employee

  datatype Employee = Employee(id: Json, name: Json, person: ObjectId, organization: ObjectId)

  const EmployeeKeys: seq<string> := [RefKey, DescriptionKey, PersonKey, OrganizationKey]

  function EmployeeFromDict(dictIn: Json): (r: Result<Employee>)
    ensures !dictIn.JObj? ==> r == Err(Untyped(TypeError))
    ensures dictIn.JObj? ==>
      match FirstMissing(dictIn.fields, EmployeeKeys)
      case None =>
        var m := dictIn.fields;
        r == Ok(Employee(m[RefKey], m[DescriptionKey], ObjectId(m[PersonKey]), ObjectId(m[OrganizationKey])))
      case Some(k) => r == Err(ObjectParse(k))
  {
    FirstMissingOfFour(dictIn, RefKey, DescriptionKey, PersonKey, OrganizationKey);
    var id :- GetItem(dictIn, RefKey, true);
    var name :- GetItem(dictIn, DescriptionKey, true);
    var person :- GetItem(dictIn, PersonKey, true);
    var organization :- GetItem(dictIn, OrganizationKey, true);
    Ok(Employee(id, name, ObjectId(person), ObjectId(organization)))
  }

  /** Named dict plus the two referenced identifiers, then every falsy entry dropped. */
  function EmployeeToDict(e: Employee): (r: map<string, Json>)
    ensures r.Keys <= {RefKey, DescriptionKey, PersonKey, OrganizationKey}
    ensures EmitsTruthy(r, RefKey, e.id)
    ensures EmitsTruthy(r, DescriptionKey, e.name)
    ensures EmitsTruthy(r, PersonKey, e.person.id)
    ensures EmitsTruthy(r, OrganizationKey, e.organization.id)
  {
    var asDict := NamedToDict(NamedObject(e.id, e.name))
      + map[PersonKey := e.person.id, OrganizationKey := e.organization.id];
    FilterFalsy(asDict)
  }

  lemma {:induction false} EmployeeRoundTrip(e: Employee)
    ensures var r := EmployeeFromDict(JObj(EmployeeToDict(e)));
      && (r == Ok(e) <==> !Falsy(e.id) && !Falsy(e.name) && !Falsy(e.person.id) && !Falsy(e.organization.id))
      && (r != Ok(e) ==> r == Err(ObjectParse(FirstMissing(EmployeeToDict(e), EmployeeKeys).value)))
  {
    var d := EmployeeToDict(e);
    var r := EmployeeFromDict(JObj(d));
    match FirstMissing(d, EmployeeKeys)
    case None =>
      assert EmployeeKeys[0] in d && EmployeeKeys[1] in d && EmployeeKeys[2] in d && EmployeeKeys[3] in d;
    case Some(k) =>
      assert r == Err(ObjectParse(k));
  }

  /** The truthiness filter at work: an employee whose person reference is falsy,
      the empty string for one, serialises without that key and no longer
      parses; when the identifier and name survive, the person key is the one
      reported. */
  lemma EmptyReferenceIsDropped(e: Employee)
    requires Falsy(e.person.id)
    ensures PersonKey !in EmployeeToDict(e)
    ensures EmployeeFromDict(JObj(EmployeeToDict(e))).Err?
    ensures !Falsy(e.id) && !Falsy(e.name) ==> EmployeeFromDict(JObj(EmployeeToDict(e))) == Err(ObjectParse(PersonKey))
  {
  }
}
