/**
 * The builder page of olaform/src/app/builder/page.tsx: the `title`, `slug`,
 * `fields` and `selectedId` state cells, the handlers that update them, the
 * `selectedField` lookup, the comma-separated options editor and the form
 * value that Save submits. Ids from `generateId` are passed in.
 */
module OlaBuilder {
  import opened Wrappers
  import opened Seqs
  import opened Text
  import opened Schema

  /**
   * `Partial<Field>`: `Some(v)` for a key present in the update. For the
   * optional keys `Some(None)` is a key present with value `undefined`.
   */
  datatype FieldUpdates = FieldUpdates(id: Option<string>, kind: Option<FieldType>, labelText: Option<string>,
                                       required: Option<bool>, placeholder: Option<Option<string>>,
                                       options: Option<Option<seq<string>>>)

  const NoUpdates: FieldUpdates := FieldUpdates(None, None, None, None, None, None)

  function LabelUpdate(labelText: string): FieldUpdates {
    NoUpdates.(labelText := Some(labelText))
  }

  function PlaceholderUpdate(placeholder: string): FieldUpdates {
    NoUpdates.(placeholder := Some(Some(placeholder)))
  }

  function OptionsUpdate(options: seq<string>): FieldUpdates {
    NoUpdates.(options := Some(Some(options)))
  }

  /** `{ ...f, ...updates }` */
  function Apply(f: Field, u: FieldUpdates): Field {
    Field(u.id.GetOr(f.id), u.kind.GetOr(f.kind), u.labelText.GetOr(f.labelText), u.required.GetOr(f.required),
          u.placeholder.GetOr(f.placeholder), u.options.GetOr(f.options))
  }

  const DefaultOptions: seq<string> := ["Option 1", "Option 2"]

  /** The field `addField(type)` creates. */
  function NewField(t: FieldType, id: string): Field {
    Field(id, t, Capitalize(TypeName(t)) + " field", false,
          if t == Text then Some("Your answer") else None,
          if t == Select || t == Radio then Some(DefaultOptions) else None)
  }

  /** `f.id === selectedId`, which never holds while nothing is selected (`null`). */
  function IsSelected(selectedId: Option<string>): Field -> bool {
    (f: Field) => Some(f.id) == selectedId
  }

  /** `prev.map((f) => (f.id === selectedId ? { ...f, ...updates } : f))` */
  function UpdateSelectedIn(fields: seq<Field>, selectedId: Option<string>, u: FieldUpdates): seq<Field> {
    seq(|fields|, i requires 0 <= i < |fields| => if Some(fields[i].id) == selectedId then Apply(fields[i], u) else fields[i])
  }

  /** The form `handleSave` builds and posts. */
  function FormToSave(title: string, slug: string, fields: seq<Field>, newId: string): Form {
    Form(newId, title, None, fields, slug)
  }

  // -----------------------------------------------------------------------
  // The options editor: `options.join(", ")` and `value.split(/\s*,\s*/)`
  // -----------------------------------------------------------------------

  /** The white-space characters `\s` stands for, restricted to ASCII. */
  predicate IsSpace(c: char) {
    c == ' ' || c == '\t' || c == '\n' || c == '\r' || c == '\U{000B}' || c == '\U{000C}'
  }

  /** The length of the longest all-white-space prefix of `s`. */
  function SpaceRun(s: string): (n: nat)
    ensures n <= |s|
    ensures forall k :: 0 <= k < n ==> IsSpace(s[k])
    ensures n < |s| ==> !IsSpace(s[n])
  {
    if s != [] && IsSpace(s[0]) then 1 + SpaceRun(s[1..]) else 0
  }

  /**
   * The length of the match of the separator regex `\s*,\s*` at the very start of `s`, if it
   * matches there. Backtracking the leading `\s*` cannot help: a shorter run
   * ends on a white-space character, not on a comma.
   */
  function SeparatorAt(s: string): (r: Option<nat>)
    ensures r.Some? <==> SpaceRun(s) < |s| && s[SpaceRun(s)] == ','
    ensures r.Some? ==> SpaceRun(s) < r.value <= |s|
    ensures r.Some? ==> forall k :: 0 <= k < r.value && k != SpaceRun(s) ==> IsSpace(s[k])
    ensures r.Some? ==> r.value == |s| || !IsSpace(s[r.value])
  {
    var w := SpaceRun(s);
    if w < |s| && s[w] == ',' then
      var rest := s[w + 1..];
      var n := SpaceRun(rest);
      assert forall k :: w < k < w + 1 + n ==> s[k] == rest[k - w - 1];
      assert w + 1 + n < |s| ==> s[w + 1 + n] == rest[n];
      Some(w + 1 + n)
    else None
  }

  /**
   * `String.prototype.split` with the separator regex: `piece` is the text
   * since the last separator, `s` what is still to be scanned.
   */
  function SplitFrom(piece: string, s: string): seq<string>
    decreases |s|
  {
    if s == [] then [piece]
    else match SeparatorAt(s)
      case Some(n) => [piece] + SplitFrom([], s[n..])
      case None => SplitFrom(piece + [s[0]], s[1..])
  }

  function SplitOptions(text: string): seq<string> {
    SplitFrom([], text)
  }

  /** What the options input shows for a field. */
  function OptionsText(f: Field): string {
    Join(f.options.GetOr([]), ", ")
  }

  /** No piece of a split contains a comma, and there is always at least one piece. */
  lemma {:induction false} SplitFromNoComma(piece: string, s: string)
    requires ',' !in piece
    ensures |SplitFrom(piece, s)| >= 1
    ensures forall i :: 0 <= i < |SplitFrom(piece, s)| ==> ',' !in SplitFrom(piece, s)[i]
    decreases |s|
  {
    if s != [] {
      match SeparatorAt(s)
      case Some(n) => SplitFromNoComma([], s[n..]);
      case None =>
        assert SpaceRun(s) == 0 || IsSpace(s[0]);
        assert s[0] != ',';
        SplitFromNoComma(piece + [s[0]], s[1..]);
    }
  }

  lemma SplitNoComma(text: string)
    ensures |SplitOptions(text)| >= 1
    ensures forall i :: 0 <= i < |SplitOptions(text)| ==> ',' !in SplitOptions(text)[i]
  {
    SplitFromNoComma([], text);
  }

  /** An option the editor can carry through a join and a split unchanged. */
  predicate CleanOption(o: string) {
    ',' !in o && (o == [] || (!IsSpace(o[0]) && !IsSpace(o[|o| - 1])))
  }

  /** No separator match starts inside a comma-free text that does not end in white space. */
  lemma NoSeparatorInside(o: string, t: string)
    requires o != [] && ',' !in o && !IsSpace(o[|o| - 1])
    ensures SeparatorAt(o + t) == None
  {
    var s := o + t;
    var w := SpaceRun(s);
    assert s[|o| - 1] == o[|o| - 1];
    assert w < |o|;
    assert s[w] == o[w];
  }

  /** Where no separator starts, the scan moves one character into the current piece. */
  lemma SplitCarries(piece: string, s: string)
    requires s != [] && SeparatorAt(s) == None
    ensures SplitFrom(piece, s) == SplitFrom(piece + [s[0]], s[1..])
  {
  }

  /** Scanning an option without commas and without trailing white space finds no separator inside it. */
  lemma {:induction false} ScanOption(piece: string, o: string, t: string)
    requires ',' !in o && (o == [] || !IsSpace(o[|o| - 1]))
    ensures SplitFrom(piece, o + t) == SplitFrom(piece + o, t)
    decreases |o|
  {
    if o == [] {
      assert o + t == t && piece + o == piece;
    } else {
      var s := o + t;
      NoSeparatorInside(o, t);
      SplitCarries(piece, s);
      assert s[0] == o[0] && s[1..] == o[1..] + t;
      assert o[1..] == [] || o[1..][|o[1..]| - 1] == o[|o| - 1];
      ScanOption(piece + [o[0]], o[1..], t);
      assert piece + [o[0]] + o[1..] == piece + o;
    }
  }

  /** The separator `", "` followed by text that does not start with white space is one whole match. */
  lemma SeparatorOfJoin(t: string)
    requires t == [] || !IsSpace(t[0])
    ensures SeparatorAt(", " + t) == Some(2)
  {
    assert (", " + t)[1..] == " " + t;
    assert (" " + t)[1..] == t;
  }

  /** A join of clean options starts with a non-white-space character, if it is not empty. */
  lemma JoinStart(opts: seq<string>)
    requires forall i :: 0 <= i < |opts| ==> CleanOption(opts[i])
    ensures Join(opts, ", ") == [] || !IsSpace(Join(opts, ", ")[0])
  {
  }

  /** Splitting a clean option followed by the joining separator yields the option, then the split of what follows. */
  lemma SplitJoinStep(o: string, j: string)
    requires CleanOption(o) && (j == [] || !IsSpace(j[0]))
    ensures SplitFrom([], o + (", " + j)) == [o] + SplitFrom([], j)
  {
    ScanOption([], o, ", " + j);
    assert [] + o == o;
    SeparatorOfJoin(j);
    assert (", " + j)[2..] == j;
  }

  /**
   * The options editor round trip: for a non-empty list of options with no
   * comma and no leading or trailing white space, splitting the joined text
   * gives the list back.
   */
  lemma {:induction false} SplitJoin(opts: seq<string>)
    requires |opts| > 0
    requires forall i :: 0 <= i < |opts| ==> CleanOption(opts[i])
    ensures SplitOptions(Join(opts, ", ")) == opts
  {
    var o := opts[0];
    if |opts| == 1 {
      ScanOption([], o, []);
      assert o + [] == o;
      assert [] + o == o;
    } else {
      var rest := opts[1..];
      var j := Join(rest, ", ");
      JoinStart(rest);
      assert Join(opts, ", ") == o + (", " + j);
      SplitJoinStep(o, j);
      SplitJoin(rest);
      assert opts == [o] + rest;
    }
  }

  /** Without options the input is empty, and splitting it yields one empty option, not none. */
  lemma EmptyOptionsRoundTrip()
    ensures SplitOptions(Join([], ", ")) == [""]
  {
  }

  // -----------------------------------------------------------------------
  // The page's state
  // -----------------------------------------------------------------------

  class BuilderPage {
    var title: string
    var slug: string
    var fields: seq<Field>
    var selectedId: Option<string>

    constructor ()
      ensures title == "Untitled Form" && slug == "untitled-form"
      ensures fields == [] && selectedId == None
    {
      title := "Untitled Form";
      slug := "untitled-form";
      fields := [];
      selectedId := None;
    }

    /** `selectedField`: the first field whose id is `selectedId`, or none. */
    function SelectedField(): (r: Option<Field>)
      reads this
      ensures r.None? <==> selectedId.None? || forall i :: 0 <= i < |fields| ==> fields[i].id != selectedId.value
      ensures r.Some? ==> selectedId == Some(r.value.id) &&
                          exists i :: 0 <= i < |fields| && fields[i] == r.value &&
                                      forall j :: 0 <= j < i ==> fields[j].id != r.value.id
    {
      Find(fields, IsSelected(selectedId))
    }

    /** `addField(type)`, with `newId` standing for `generateId("fld")`. */
    method AddField(t: FieldType, newId: string)
      modifies this`fields, this`selectedId
      ensures fields == old(fields) + [NewField(t, newId)]
      ensures selectedId == Some(newId)
      ensures (forall i :: 0 <= i < |old(fields)| ==> old(fields)[i].id != newId) ==>
                SelectedField() == Some(NewField(t, newId))
    {
      var newField := NewField(t, newId);
      fields := fields + [newField];
      selectedId := Some(newField.id);
      assert IsSelected(selectedId)(fields[|fields| - 1]);
      assert forall i :: 0 <= i < |fields| - 1 ==> fields[i] == old(fields)[i];
    }

    /** `updateSelected(updates)` */
    method UpdateSelected(u: FieldUpdates)
      modifies this`fields
      ensures fields == UpdateSelectedIn(old(fields), selectedId, u)
    {
      fields := UpdateSelectedIn(fields, selectedId, u);
    }

    /** The label input's `onChange`. */
    method EditLabel(text: string)
      modifies this`fields
      ensures fields == UpdateSelectedIn(old(fields), selectedId, LabelUpdate(text))
    {
      UpdateSelected(LabelUpdate(text));
    }

    /** The placeholder input's `onChange`. */
    method EditPlaceholder(text: string)
      modifies this`fields
      ensures fields == UpdateSelectedIn(old(fields), selectedId, PlaceholderUpdate(text))
    {
      UpdateSelected(PlaceholderUpdate(text));
    }

    /** The options input's `onChange`: split the text on the separator regex and store the pieces. */
    method EditOptions(text: string)
      modifies this`fields
      ensures fields == UpdateSelectedIn(old(fields), selectedId, OptionsUpdate(SplitOptions(text)))
    {
      UpdateSelected(OptionsUpdate(SplitOptions(text)));
    }

    /** Clicking a field on the canvas selects it. */
    method Select(id: string)
      modifies this`selectedId
      ensures selectedId == Some(id)
    {
      selectedId := Some(id);
    }

    method SetTitle(t: string)
      modifies this`title
      ensures title == t
    {
      title := t;
    }

    method SetSlug(s: string)
      modifies this`slug
      ensures slug == s
    {
      slug := s;
    }

    /**
     * `handleSave`, up to the request: the form carries the current title,
     * slug and fields, the fresh id and no description; the collection route
     * accepts it exactly when title, slug and every label are non-empty, and
     * then stores it unchanged.
     */
    method HandleSave(newId: string) returns (form: Form)
      ensures form.id == newId && form.title == title && form.slug == slug
      ensures form.fields == fields && form.description == None
      ensures ParseForm(FormToJson(form)).Ok? <==>
                title != "" && slug != "" && forall i :: 0 <= i < |fields| ==> fields[i].labelText != ""
      ensures ParseForm(FormToJson(form)).Ok? ==> ParseForm(FormToJson(form)).value == form
    {
      form := FormToSave(title, slug, fields, newId);
      AcceptedIffWellFormed(form);
    }
  }

  // -----------------------------------------------------------------------
  // Properties of the handlers
  // -----------------------------------------------------------------------

  /** A new field is optional; it has a placeholder exactly for text and the default options exactly for select and radio. */
  lemma NewFieldDefaults(t: FieldType, id: string)
    ensures !NewField(t, id).required && NewField(t, id).id == id && NewField(t, id).kind == t
    ensures NewField(t, id).placeholder.Some? <==> t == Text
    ensures NewField(t, id).placeholder.Some? ==> NewField(t, id).placeholder.value == "Your answer"
    ensures NewField(t, id).options.Some? <==> t == Select || t == Radio
    ensures NewField(t, id).options.Some? ==> NewField(t, id).options.value == ["Option 1", "Option 2"]
    ensures WellFormedField(NewField(t, id))
  {
  }

  /** The label of a new field is its type name, capitalised, followed by " field". */
  lemma NewFieldLabel(t: FieldType, id: string)
    ensures ToLowerCase(NewField(t, id).labelText) == TypeName(t) + " field"
    ensures 'A' <= NewField(t, id).labelText[0] <= 'Z'
    ensures NewField(t, id).labelText[0] == UpperChar(TypeName(t)[0])
    ensures NewField(t, id).labelText[1..] == TypeName(t)[1..] + " field"
  {
    var n := TypeName(t);
    var text := Capitalize(n) + " field";
    assert NewField(t, id).labelText == text;
    assert n != [] && IsLowerWord(n);
    assert text[1..] == n[1..] + " field";
    LowerCapitalize(n);
    LowerAppend(Capitalize(n), " field");
    assert ToLowerCase(" field") == " field";
  }

  /** `updateSelected` touches only the selected fields, and nothing at all while no field is selected. */
  lemma UpdateSelectedFrame(fields: seq<Field>, selectedId: Option<string>, u: FieldUpdates)
    ensures |UpdateSelectedIn(fields, selectedId, u)| == |fields|
    ensures forall i :: 0 <= i < |fields| && Some(fields[i].id) != selectedId ==>
              UpdateSelectedIn(fields, selectedId, u)[i] == fields[i]
    ensures forall i :: 0 <= i < |fields| && Some(fields[i].id) == selectedId ==>
              UpdateSelectedIn(fields, selectedId, u)[i] == Apply(fields[i], u)
    ensures selectedId == None ==> UpdateSelectedIn(fields, selectedId, u) == fields
  {
  }

  /** Editing the options of the selected field through its options text changes nothing when the options are clean. */
  lemma OptionsEditorStable(f: Field)
    requires f.options.Some? && |f.options.value| > 0
    requires forall i :: 0 <= i < |f.options.value| ==> CleanOption(f.options.value[i])
    ensures Apply(f, OptionsUpdate(SplitOptions(OptionsText(f)))) == f
  {
    SplitJoin(f.options.value);
  }
}
