/**
 Identity of the objects in client_1c_timesheet/models.py: every class derives
 from `APIObjectID`, whose `__eq__` compares `obj_id` alone and treats a
 comparison with `None` as unequal, and whose `__ne__` negates `__eq__`.
 */
module Identity {
  import opened JsonValue
  import opened Models
  import opened TimeSheetLines
  import opened TimeSheets
  import opened TimeEntries

  /** Any object of the model, whatever its class. */
  datatype Entity =
    | Plain(ref: ObjectId)
    | Named(named: NamedObject)
    | Group(group: TimeGroup)
    | Staff(employee: Employee)
    | Line(line: TimeSheetLine)
    | Sheet(sheet: TimeSheet)
    | Entry(entry: TimeEntry)

  /** `obj_id`. */
  function IdOf(e: Entity): Json
  {
    match e
    case Plain(o) => o.id
    case Named(n) => n.id
    case Group(g) => g.id
    case Staff(s) => s.id
    case Line(l) => l.id
    case Sheet(t) => t.id
    case Entry(x) => x.id
  }

  /** `APIObjectID.__eq__`: `other` is `None` (falsy) or an object of the model,
      which is always truthy. */
  function Equals(self: Entity, other: Option<Entity>): (r: bool)
    ensures other.None? ==> !r
    ensures other.Some? ==> (r <==> PyEq(IdOf(self), IdOf(other.value)))
  {
    if other.Some? then PyEq(IdOf(self), IdOf(other.value)) else false
  }

  /** `APIObjectID.__ne__`. */
  function NotEquals(self: Entity, other: Option<Entity>): (r: bool)
    ensures r <==> !Equals(self, other)
  {
    !Equals(self, other)
  }

  /** Only identifiers matter: objects of different classes, or with different
      names and fields, compare equal when their identifiers do. */
  lemma EqualityByIdOnly(a: Entity, b: Entity, c: Entity, d: Entity)
    requires IdOf(a) == IdOf(c) && IdOf(b) == IdOf(d)
    ensures Equals(a, Some(b)) == Equals(c, Some(d))
  {
  }

  /** A timesheet and a plain reference to its identifier are equal. */
  lemma SheetEqualsItsReference(t: TimeSheet)
    ensures Equals(Sheet(t), Some(Plain(ObjectId(t.id))))
    ensures !NotEquals(Sheet(t), Some(Plain(ObjectId(t.id))))
  {
    PyEqReflexive(t.id);
  }

  /** Equality is reflexive, symmetric and transitive, as `==` on identifiers is. */
  lemma EqualsReflexive(a: Entity)
    ensures Equals(a, Some(a)) && !NotEquals(a, Some(a))
  {
    PyEqReflexive(IdOf(a));
  }

  lemma EqualsSymmetric(a: Entity, b: Entity)
    ensures Equals(a, Some(b)) == Equals(b, Some(a))
  {
    PyEqSymmetric(IdOf(a), IdOf(b));
  }

  lemma EqualsTransitive(a: Entity, b: Entity, c: Entity)
    requires Equals(a, Some(b)) && Equals(b, Some(c))
    ensures Equals(a, Some(c))
  {
    PyEqTransitive(IdOf(a), IdOf(b), IdOf(c));
  }
}
