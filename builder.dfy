/**
 * The field-list editor of src/app/builder/page.tsx. The page keeps its
 * fields and the id of the selected field in React state; each handler is
 * one atomic transition of that state. Ids from `Date.now()` are passed in.
 * Ids are not guaranteed unique: updates and deletes act on every field with
 * the id, lookups take the first.
 */
module Builder {
  import opened Wrappers
  import opened Seqs
  import opened Text

  /** `FormField`; here `type` is any string, not a closed set. */
  datatype FormField = FormField(id: string, kind: string, labelText: string, placeholder: Option<string>,
                                 required: bool, options: Option<seq<string>>)

  /**
   * `Partial<FormField>`: `Some(v)` for a key present in the update. For the
   * optional keys `Some(None)` is a key present with value `undefined`.
   */
  datatype FieldUpdates = FieldUpdates(id: Option<string>, kind: Option<string>, labelText: Option<string>,
                                       placeholder: Option<Option<string>>, required: Option<bool>,
                                       options: Option<Option<seq<string>>>)

  const NoUpdates: FieldUpdates := FieldUpdates(None, None, None, None, None, None)

  /** `{ ...field, ...updates }` */
  function Apply(f: FormField, u: FieldUpdates): FormField {
    FormField(u.id.GetOr(f.id), u.kind.GetOr(f.kind), u.labelText.GetOr(f.labelText),
              u.placeholder.GetOr(f.placeholder), u.required.GetOr(f.required), u.options.GetOr(f.options))
  }

  /** An empty update leaves a field as it is, and applying an update twice is applying it once. */
  lemma ApplyLaws(f: FormField, u: FieldUpdates)
    ensures Apply(f, NoUpdates) == f
    ensures Apply(Apply(f, u), u) == Apply(f, u)
  {
  }

  datatype Direction = Up | Down

  const DefaultOptions: seq<string> := ["Option 1", "Option 2"]

  /** The field `addField(type)` creates. */
  function NewField(kind: string, id: string): FormField {
    FormField(id, kind, "New " + Capitalize(kind) + " Field", Some("Enter " + kind + "..."), false,
              if kind == "radio" || kind == "select" then Some(DefaultOptions) else None)
  }

  function IdIs(id: string): FormField -> bool {
    (f: FormField) => f.id == id
  }

  function IdIsNot(id: string): FormField -> bool {
    (f: FormField) => f.id != id
  }

  /** `fields.map(field => field.id === id ? { ...field, ...updates } : field)` */
  function UpdateById(fields: seq<FormField>, id: string, u: FieldUpdates): seq<FormField> {
    seq(|fields|, i requires 0 <= i < |fields| => if fields[i].id == id then Apply(fields[i], u) else fields[i])
  }

  /** `fields.filter(field => field.id !== id)` */
  function RemoveById(fields: seq<FormField>, id: string): (r: seq<FormField>)
    ensures forall i :: 0 <= i < |r| ==> r[i] in fields && r[i].id != id
    ensures forall i :: 0 <= i < |fields| && fields[i].id != id ==> fields[i] in r
  {
    FilterMembers(fields, IdIsNot(id));
    Filter(fields, IdIsNot(id))
  }

  /** `duplicateField`: append a copy of the first field with `id`, under `newId`. */
  function Duplicated(fields: seq<FormField>, id: string, newId: string): seq<FormField> {
    match Find(fields, IdIs(id))
    case None => fields
    case Some(f) => fields + [f.(id := newId)]
  }

  /** `moveField`: swap the first field with `id` with its neighbour in `dir`, if it has one. */
  function Moved(fields: seq<FormField>, id: string, dir: Direction): seq<FormField> {
    var index := FirstIndex(fields, IdIs(id));
    if index == -1 then fields
    else if dir == Up && index > 0 then Swap(fields, index, index - 1)
    else if dir == Down && index < |fields| - 1 then Swap(fields, index, index + 1)
    else fields
  }

  /** The page's state cells. */
  class FormBuilder {
    var formTitle: string
    var formDescription: string
    var fields: seq<FormField>
    var selectedField: Option<string>

    constructor ()
      ensures formTitle == "Untitled Form" && formDescription == ""
      ensures fields == [] && selectedField == None
    {
      formTitle := "Untitled Form";
      formDescription := "";
      fields := [];
      selectedField := None;
    }

    /** `addField(type)`, with `newId` standing for `field_${Date.now()}`. */
    method AddField(kind: string, newId: string)
      modifies this`fields, this`selectedField
      ensures fields == old(fields) + [NewField(kind, newId)]
      ensures selectedField == Some(newId)
    {
      var newField := NewField(kind, newId);
      fields := fields + [newField];
      selectedField := Some(newField.id);
    }

    /** `updateField(id, updates)` */
    method UpdateField(id: string, u: FieldUpdates)
      modifies this`fields
      ensures fields == UpdateById(old(fields), id, u)
    {
      fields := UpdateById(fields, id, u);
    }

    /** `deleteField(id)`: drop every field with `id`; clear the selection if it was `id`. */
    method DeleteField(id: string)
      modifies this`fields, this`selectedField
      ensures fields == RemoveById(old(fields), id)
      ensures selectedField == if old(selectedField) == Some(id) then None else old(selectedField)
    {
      fields := RemoveById(fields, id);
      if selectedField == Some(id) {
        selectedField := None;
      }
    }

    /** `duplicateField(id)`, with `newId` standing for `field_${Date.now()}`. */
    method DuplicateField(id: string, newId: string)
      modifies this`fields
      ensures fields == Duplicated(old(fields), id, newId)
    {
      var field := Find(fields, IdIs(id));
      if field.Some? {
        var newField := field.value.(id := newId);
        fields := fields + [newField];
      }
    }

    /** `moveField(id, direction)`: copy the list, swap two slots of the copy, commit it. */
    method MoveField(id: string, dir: Direction)
      modifies this`fields
      ensures fields == Moved(old(fields), id, dir)
    {
      var index := FirstIndex(fields, IdIs(id));
      if index == -1 {
        return;
      }
      var newFields := fields;
      if dir == Up && index > 0 {
        newFields := newFields[index := fields[index - 1]][index - 1 := fields[index]];
      } else if dir == Down && index < |fields| - 1 {
        newFields := newFields[index := fields[index + 1]][index + 1 := fields[index]];
      }
      fields := newFields;
    }

    /** The title input. */
    method SetTitle(t: string)
      modifies this`formTitle
      ensures formTitle == t
    {
      formTitle := t;
    }

    /** The description input. */
    method SetDescription(d: string)
      modifies this`formDescription
      ensures formDescription == d
    {
      formDescription := d;
    }

    /** Clicking a field selects it. */
    method SelectField(id: string)
      modifies this`selectedField
      ensures selectedField == Some(id)
    {
      selectedField := Some(id);
    }
  }

  // -----------------------------------------------------------------------
  // Properties of the editing operations
  // -----------------------------------------------------------------------

  /** A new field is optional, has the placeholder "Enter <type>...", and has the two default options exactly for radio and select. */
  lemma NewFieldDefaults(kind: string, id: string)
    ensures NewField(kind, id).id == id && NewField(kind, id).kind == kind
    ensures !NewField(kind, id).required
    ensures NewField(kind, id).placeholder == Some("Enter " + kind + "...")
    ensures NewField(kind, id).options.Some? <==> kind == "radio" || kind == "select"
    ensures NewField(kind, id).options.Some? ==> NewField(kind, id).options.value == ["Option 1", "Option 2"]
    ensures kind == "select" ==> NewField(kind, id).labelText == "New Select Field"
  {
    if kind == "select" {
      assert Capitalize(kind) == "Select";
      assert "New " + "Select" + " Field" == "New Select Field";
    }
  }

  /** Updating keeps length and order and touches only the fields with that id. */
  lemma UpdateByIdFrame(fields: seq<FormField>, id: string, u: FieldUpdates)
    ensures |UpdateById(fields, id, u)| == |fields|
    ensures forall i :: 0 <= i < |fields| && fields[i].id != id ==> UpdateById(fields, id, u)[i] == fields[i]
    ensures forall i :: 0 <= i < |fields| && fields[i].id == id ==> UpdateById(fields, id, u)[i] == Apply(fields[i], u)
    ensures UpdateById(fields, id, NoUpdates) == fields
  {
  }

  /** Deleting removes exactly the fields with that id and keeps the others, in order and with their multiplicity. */
  lemma RemoveByIdExact(fields: seq<FormField>, id: string)
    ensures forall i :: 0 <= i < |RemoveById(fields, id)| ==> RemoveById(fields, id)[i].id != id
    ensures IsSubsequence(RemoveById(fields, id), fields)
    ensures forall f :: multiset(RemoveById(fields, id))[f] == if f.id == id then 0 else multiset(fields)[f]
  {
    FilterIsSubsequence(fields, IdIsNot(id));
    forall f
      ensures multiset(RemoveById(fields, id))[f] == if f.id == id then 0 else multiset(fields)[f]
    {
      FilterCount(fields, IdIsNot(id), f);
    }
  }

  /** Deleting a freshly added field restores the list. */
  lemma AddThenDelete(fields: seq<FormField>, kind: string, newId: string)
    requires forall i :: 0 <= i < |fields| ==> fields[i].id != newId
    ensures RemoveById(fields + [NewField(kind, newId)], newId) == fields
  {
    FilterAppend(fields, [NewField(kind, newId)], IdIsNot(newId));
    FilterAll(fields, IdIsNot(newId));
    assert [NewField(kind, newId)][1..] == [];
  }

  /** Duplicating appends one copy of the first match, differing only in its id; with no match nothing changes. */
  lemma DuplicatedShape(fields: seq<FormField>, id: string, newId: string)
    ensures (forall i :: 0 <= i < |fields| ==> fields[i].id != id) ==> Duplicated(fields, id, newId) == fields
    ensures var k := FirstIndex(fields, IdIs(id));
            k >= 0 ==> Duplicated(fields, id, newId) == fields + [fields[k].(id := newId)]
  {
  }

  /** Deleting the copy made by a duplication with a fresh id restores the list. */
  lemma DuplicateThenDelete(fields: seq<FormField>, id: string, newId: string)
    requires forall i :: 0 <= i < |fields| ==> fields[i].id != newId
    ensures RemoveById(Duplicated(fields, id, newId), newId) == fields
  {
    FilterAll(fields, IdIsNot(newId));
    var k := FirstIndex(fields, IdIs(id));
    if k >= 0 {
      var copy := fields[k].(id := newId);
      FilterAppend(fields, [copy], IdIsNot(newId));
      assert [copy][1..] == [];
    }
  }

  /** An unknown id, the first field moved up and the last field moved down leave the list as it is. */
  lemma MovedNoOp(fields: seq<FormField>, id: string)
    ensures FirstIndex(fields, IdIs(id)) == -1 ==> Moved(fields, id, Up) == fields && Moved(fields, id, Down) == fields
    ensures FirstIndex(fields, IdIs(id)) == 0 ==> Moved(fields, id, Up) == fields
    ensures FirstIndex(fields, IdIs(id)) == |fields| - 1 ==> Moved(fields, id, Down) == fields
  {
  }

  /** Moving always yields a permutation of the list. */
  lemma MovedIsPermutation(fields: seq<FormField>, id: string, dir: Direction)
    ensures |Moved(fields, id, dir)| == |fields|
    ensures multiset(Moved(fields, id, dir)) == multiset(fields)
  {
  }

  /** Moving up a field that is not first swaps it with the field before it. */
  lemma MovedUpSwaps(fields: seq<FormField>, id: string)
    requires FirstIndex(fields, IdIs(id)) > 0
    ensures var i := FirstIndex(fields, IdIs(id));
            Moved(fields, id, Up) == Swap(fields, i, i - 1)
  {
  }

  /** Moving down a field that is not last swaps it with the field after it. */
  lemma MovedDownSwaps(fields: seq<FormField>, id: string)
    requires 0 <= FirstIndex(fields, IdIs(id)) < |fields| - 1
    ensures var i := FirstIndex(fields, IdIs(id));
            Moved(fields, id, Down) == Swap(fields, i, i + 1)
  {
  }

  /** Moving a field up and then down again, when the up-move applies, restores the list. */
  lemma MoveUpThenDown(fields: seq<FormField>, id: string)
    requires FirstIndex(fields, IdIs(id)) > 0
    ensures Moved(Moved(fields, id, Up), id, Down) == fields
  {
    var i := FirstIndex(fields, IdIs(id));
    MovedUpSwaps(fields, id);
    var up := Moved(fields, id, Up);
    FirstIndexAfterSwapUp(fields, IdIs(id), i);
    assert FirstIndex(up, IdIs(id)) == i - 1;
    MovedDownSwaps(up, id);
    SwapTwice(fields, i, i - 1);
    assert Moved(up, id, Down) == Swap(up, i - 1, i);
  }
}
