/**
 * The form schema of olaform/src/types/form.ts: the `Field` and `Form`
 * records, the closed set of field types, and `FormSchema.safeParse`, which
 * turns an untrusted JSON body into either a well-typed `Form` (defaults
 * applied, unknown keys dropped) or the list of every violated constraint.
 */
module Schema {
  import opened Wrappers

  /** `FieldTypeEnum`: the seven kinds of field. */
  datatype FieldType = Text | Textarea | Number | Select | Checkbox | Radio | Date

  /** The enum's literal values, in declaration order. */
  const FieldTypeNames: seq<string> := ["text", "textarea", "number", "select", "checkbox", "radio", "date"]

  function TypeName(t: FieldType): string {
    match t
    case Text => "text"
    case Textarea => "textarea"
    case Number => "number"
    case Select => "select"
    case Checkbox => "checkbox"
    case Radio => "radio"
    case Date => "date"
  }

  /** The enum member spelled `s`, if `s` is one of the seven literals. */
  function TypeFromName(s: string): (r: Option<FieldType>)
    ensures r.Some? <==> s in FieldTypeNames
    ensures r.Some? ==> TypeName(r.value) == s
  {
    if s == "text" then Some(Text)
    else if s == "textarea" then Some(Textarea)
    else if s == "number" then Some(Number)
    else if s == "select" then Some(Select)
    else if s == "checkbox" then Some(Checkbox)
    else if s == "radio" then Some(Radio)
    else if s == "date" then Some(Date)
    else None
  }

  /** Every member's name reads back as that member. */
  lemma TypeNameRoundTrip(t: FieldType)
    ensures TypeName(t) in FieldTypeNames
    ensures TypeFromName(TypeName(t)) == Some(t)
  {
  }

  /** The parsed `Field` (`z.infer<typeof FieldSchema>`). */
  datatype Field = Field(id: string, kind: FieldType, labelText: string, required: bool,
                         placeholder: Option<string>, options: Option<seq<string>>)

  /** The parsed `Form` (`z.infer<typeof FormSchema>`). */
  datatype Form = Form(id: string, title: string, description: Option<string>,
                       fields: seq<Field>, slug: string)

  /** A request body as produced by `req.json()`; an object is a map from its keys. */
  datatype Json =
    | JNull
    | JBool(b: bool)
    | JNumber(n: int)
    | JString(s: string)
    | JArray(items: seq<Json>)
    | JObject(members: map<string, Json>)

  /** One step of the path to an offending value. */
  datatype Segment = Key(name: string) | Index(i: nat)

  datatype IssueCode = InvalidType | TooSmall | InvalidEnumValue

  /** One violated constraint: where it is and what kind it is. */
  datatype Issue = Issue(path: seq<Segment>, code: IssueCode)

  type Parsed<T> = Result<T, seq<Issue>>

  /** A failed parse always reports at least one issue. */
  predicate Reported<T>(r: Parsed<T>) {
    r.Err? ==> r.error != []
  }

  function Issues<T>(r: Parsed<T>): seq<Issue> {
    if r.Err? then r.error else []
  }

  /** The value under key `k`; `None` plays the role of `undefined`. */
  function Member(m: map<string, Json>, k: string): Option<Json> {
    if k in m then Some(m[k]) else None
  }

  // ---------------------------------------------------------------------
  // The leaf schemas
  // ---------------------------------------------------------------------

  /** `z.string()` */
  function ParseString(v: Option<Json>, path: seq<Segment>): (r: Parsed<string>)
    ensures Reported(r)
    ensures r.Ok? <==> v.Some? && v.value.JString?
    ensures r.Ok? ==> r.value == v.value.s
  {
    match v
    case Some(JString(s)) => Ok(s)
    case _ => Err([Issue(path, InvalidType)])
  }

  /** `z.string().min(1)` */
  function ParseNonEmptyString(v: Option<Json>, path: seq<Segment>): (r: Parsed<string>)
    ensures Reported(r)
    ensures r.Ok? <==> v.Some? && v.value.JString? && |v.value.s| >= 1
    ensures r.Ok? ==> r.value == v.value.s
    ensures v == Some(JString("")) ==> r == Err([Issue(path, TooSmall)])
  {
    match v
    case Some(JString(s)) => if |s| >= 1 then Ok(s) else Err([Issue(path, TooSmall)])
    case _ => Err([Issue(path, InvalidType)])
  }

  /** `z.string().optional()`: a missing key is accepted; `null` is not. */
  function ParseOptionalString(v: Option<Json>, path: seq<Segment>): (r: Parsed<Option<string>>)
    ensures Reported(r)
    ensures r.Ok? <==> v.None? || v.value.JString?
    ensures r.Ok? ==> r.value == (if v.None? then None else Some(v.value.s))
  {
    match v
    case None => Ok(None)
    case Some(JString(s)) => Ok(Some(s))
    case _ => Err([Issue(path, InvalidType)])
  }

  /** `z.boolean().default(false)`: a missing key becomes `false`. */
  function ParseBoolDefaultFalse(v: Option<Json>, path: seq<Segment>): (r: Parsed<bool>)
    ensures Reported(r)
    ensures r.Ok? <==> v.None? || v.value.JBool?
    ensures r.Ok? ==> r.value == (v.Some? && v.value.b)
  {
    match v
    case None => Ok(false)
    case Some(JBool(b)) => Ok(b)
    case _ => Err([Issue(path, InvalidType)])
  }

  /** `FieldTypeEnum`: a non-string is a type error, an unknown string an enum error. */
  function ParseFieldType(v: Option<Json>, path: seq<Segment>): (r: Parsed<FieldType>)
    ensures Reported(r)
    ensures r.Ok? <==> v.Some? && v.value.JString? && v.value.s in FieldTypeNames
    ensures r.Ok? ==> TypeName(r.value) == v.value.s
    ensures v.Some? && v.value.JString? && v.value.s !in FieldTypeNames ==>
              r == Err([Issue(path, InvalidEnumValue)])
  {
    match v
    case Some(JString(s)) =>
      (match TypeFromName(s)
       case Some(t) => Ok(t)
       case None => Err([Issue(path, InvalidEnumValue)]))
    case _ => Err([Issue(path, InvalidType)])
  }

  /** The element parser `one` applied to item `i` of an array found at `path`. */
  function ItemAt<T>(items: seq<Json>, i: nat, path: seq<Segment>, offset: nat,
                     one: (Json, seq<Segment>) -> Parsed<T>): Parsed<T>
    requires i < |items|
  {
    one(items[i], path + [Index(offset + i)])
  }

  /**
   * `z.array(schema)` on the elements of an array, numbered from `offset`:
   * every element is parsed and the issues of all of them are collected.
   */
  function ParseItems<T>(items: seq<Json>, path: seq<Segment>, offset: nat,
                         one: (Json, seq<Segment>) -> Parsed<T>): (r: Parsed<seq<T>>)
    requires forall j, p :: Reported(one(j, p))
    ensures Reported(r)
    ensures r.Ok? <==> forall i :: 0 <= i < |items| ==> ItemAt(items, i, path, offset, one).Ok?
    ensures r.Ok? ==> |r.value| == |items| &&
                      forall i :: 0 <= i < |items| ==> r.value[i] == ItemAt(items, i, path, offset, one).value
    decreases |items|
  {
    if items == [] then Ok([])
    else
      var head := one(items[0], path + [Index(offset)]);
      var tail := ParseItems(items[1..], path, offset + 1, one);
      var rest, next := items[1..], offset + 1;
      assert forall k :: 0 <= k < |rest| ==>
        ItemAt(rest, k, path, next, one) == ItemAt(items, k + 1, path, offset, one);
      assert forall i :: 1 <= i < |items| ==>
        ItemAt(items, i, path, offset, one) == ItemAt(items[1..], i - 1, path, offset + 1, one);
      assert ItemAt(items, 0, path, offset, one) == head;
      if head.Ok? && tail.Ok? then Ok([head.value] + tail.value)
      else Err(Issues(head) + Issues(tail))
  }

  /** Every issue reported for an element is among the issues of the whole array. */
  lemma {:induction false} ItemIssuesKept<T>(items: seq<Json>, path: seq<Segment>, offset: nat,
                                             one: (Json, seq<Segment>) -> Parsed<T>, i: nat, x: Issue)
    requires forall j, p :: Reported(one(j, p))
    requires i < |items| && x in Issues(ItemAt(items, i, path, offset, one))
    ensures x in Issues(ParseItems(items, path, offset, one))
  {
    var head := one(items[0], path + [Index(offset)]);
    var tail := ParseItems(items[1..], path, offset + 1, one);
    if i > 0 {
      assert ItemAt(items, i, path, offset, one) == ItemAt(items[1..], i - 1, path, offset + 1, one);
      ItemIssuesKept(items[1..], path, offset + 1, one, i - 1, x);
    }
    assert Issues(ParseItems(items, path, offset, one)) == Issues(head) + Issues(tail);
  }

  /** `z.string()` on an array element. */
  function ParseStringItem(j: Json, path: seq<Segment>): (r: Parsed<string>)
    ensures Reported(r)
  {
    ParseString(Some(j), path)
  }

  /** `z.array(z.string()).optional()` */
  function ParseOptionalStringArray(v: Option<Json>, path: seq<Segment>): (r: Parsed<Option<seq<string>>>)
    ensures Reported(r)
  {
    match v
    case None => Ok(None)
    case Some(JArray(items)) =>
      (match ParseItems(items, path, 0, ParseStringItem)
       case Ok(ss) => Ok(Some(ss))
       case Err(e) => Err(e))
    case _ => Err([Issue(path, InvalidType)])
  }

  // ---------------------------------------------------------------------
  // FieldSchema and FormSchema
  // ---------------------------------------------------------------------

  /** `FieldSchema`: keys are checked in declaration order, unknown keys dropped. */
  function ParseField(j: Json, path: seq<Segment>): (r: Parsed<Field>)
    ensures Reported(r)
  {
    match j
    case JObject(m) =>
      var id := ParseString(Member(m, "id"), path + [Key("id")]);
      var kind := ParseFieldType(Member(m, "type"), path + [Key("type")]);
      var labelText := ParseNonEmptyString(Member(m, "label"), path + [Key("label")]);
      var required := ParseBoolDefaultFalse(Member(m, "required"), path + [Key("required")]);
      var placeholder := ParseOptionalString(Member(m, "placeholder"), path + [Key("placeholder")]);
      var options := ParseOptionalStringArray(Member(m, "options"), path + [Key("options")]);
      if id.Ok? && kind.Ok? && labelText.Ok? && required.Ok? && placeholder.Ok? && options.Ok? then
        Ok(Field(id.value, kind.value, labelText.value, required.value, placeholder.value, options.value))
      else
        Err(Issues(id) + Issues(kind) + Issues(labelText) + Issues(required) + Issues(placeholder) + Issues(options))
    case _ => Err([Issue(path, InvalidType)])
  }

  /** `z.array(FieldSchema)` at key `fields`. */
  function ParseFields(v: Option<Json>, path: seq<Segment>): (r: Parsed<seq<Field>>)
    ensures Reported(r)
  {
    match v
    case Some(JArray(items)) => ParseItems(items, path, 0, ParseField)
    case _ => Err([Issue(path, InvalidType)])
  }

  /** `FormSchema.safeParse(json)` */
  function ParseForm(j: Json): (r: Parsed<Form>)
    ensures Reported(r)
  {
    match j
    case JObject(m) =>
      var id := ParseString(Member(m, "id"), [Key("id")]);
      var title := ParseNonEmptyString(Member(m, "title"), [Key("title")]);
      var description := ParseOptionalString(Member(m, "description"), [Key("description")]);
      var fields := ParseFields(Member(m, "fields"), [Key("fields")]);
      var slug := ParseNonEmptyString(Member(m, "slug"), [Key("slug")]);
      if id.Ok? && title.Ok? && description.Ok? && fields.Ok? && slug.Ok? then
        Ok(Form(id.value, title.value, description.value, fields.value, slug.value))
      else
        Err(Issues(id) + Issues(title) + Issues(description) + Issues(fields) + Issues(slug))
    case _ => Err([Issue([], InvalidType)])
  }

  // ---------------------------------------------------------------------
  // What the schema accepts, stated independently of the parser
  // ---------------------------------------------------------------------

  predicate IsString(v: Option<Json>) {
    v.Some? && v.value.JString?
  }

  predicate IsNonEmptyString(v: Option<Json>) {
    IsString(v) && v.value.s != ""
  }

  predicate AllStrings(items: seq<Json>) {
    forall i :: 0 <= i < |items| ==> items[i].JString?
  }

  /** The JSON shapes `FieldSchema` accepts. Nothing ties `options` to `type`. */
  predicate ValidFieldJson(j: Json) {
    && j.JObject?
    && var m := j.members;
    && IsString(Member(m, "id"))
    && IsString(Member(m, "type")) && Member(m, "type").value.s in FieldTypeNames
    && IsNonEmptyString(Member(m, "label"))
    && (Member(m, "required").None? || Member(m, "required").value.JBool?)
    && (Member(m, "placeholder").None? || IsString(Member(m, "placeholder")))
    && (Member(m, "options").None? ||
        (Member(m, "options").value.JArray? && AllStrings(Member(m, "options").value.items)))
  }

  /** The JSON shapes `FormSchema` accepts. */
  predicate ValidFormJson(j: Json) {
    && j.JObject?
    && var m := j.members;
    && IsString(Member(m, "id"))
    && IsNonEmptyString(Member(m, "title"))
    && (Member(m, "description").None? || IsString(Member(m, "description")))
    && Member(m, "fields").Some? && Member(m, "fields").value.JArray?
    && (forall i :: 0 <= i < |Member(m, "fields").value.items| ==>
          ValidFieldJson(Member(m, "fields").value.items[i]))
    && IsNonEmptyString(Member(m, "slug"))
  }

  /** The constraints a parsed field satisfies. */
  predicate WellFormedField(f: Field) {
    f.labelText != ""
  }

  /** The constraints a parsed form satisfies. */
  predicate WellFormedForm(f: Form) {
    f.title != "" && f.slug != "" &&
    forall i :: 0 <= i < |f.fields| ==> WellFormedField(f.fields[i])
  }

  lemma StringItemsOk(items: seq<Json>, path: seq<Segment>)
    ensures ParseItems(items, path, 0, ParseStringItem).Ok? <==> AllStrings(items)
    ensures ParseItems(items, path, 0, ParseStringItem).Ok? ==>
              forall i :: 0 <= i < |items| ==> ParseItems(items, path, 0, ParseStringItem).value[i] == items[i].s
  {
    assert forall i :: 0 <= i < |items| ==>
      ItemAt(items, i, path, 0, ParseStringItem) == ParseString(Some(items[i]), path + [Index(i)]);
  }

  /** A field parses if and only if it has one of the accepted shapes; what it parses to is well formed. */
  lemma ParseFieldOkIff(j: Json, path: seq<Segment>)
    ensures ParseField(j, path).Ok? <==> ValidFieldJson(j)
    ensures ParseField(j, path).Ok? ==> WellFormedField(ParseField(j, path).value)
  {
    if j.JObject? && Member(j.members, "options").Some? && Member(j.members, "options").value.JArray? {
      StringItemsOk(Member(j.members, "options").value.items, path + [Key("options")]);
    }
  }

  /** A form parses if and only if it has one of the accepted shapes. */
  lemma {:induction false} ParseFormOkIff(j: Json)
    ensures ParseForm(j).Ok? <==> ValidFormJson(j)
  {
    if j.JObject? && Member(j.members, "fields").Some? && Member(j.members, "fields").value.JArray? {
      var items := Member(j.members, "fields").value.items;
      forall i | 0 <= i < |items|
        ensures ItemAt(items, i, [Key("fields")], 0, ParseField).Ok? <==> ValidFieldJson(items[i])
      {
        assert [Key("fields")] + [Index(0 + i)] == [Key("fields"), Index(i)];
        ParseFieldOkIff(items[i], [Key("fields"), Index(i)]);
      }
    }
  }

  /** Whatever `safeParse` returns on success has non-empty title, slug and labels. */
  lemma {:induction false} ParsedFormWellFormed(j: Json)
    requires ParseForm(j).Ok?
    ensures WellFormedForm(ParseForm(j).value)
  {
    var m := j.members;
    var items := Member(m, "fields").value.items;
    var r := ParseItems(items, [Key("fields")], 0, ParseField);
    forall i | 0 <= i < |items|
      ensures WellFormedField(r.value[i])
    {
      ParseFieldOkIff(items[i], [Key("fields"), Index(i)]);
    }
  }

  /** The `required` flag is `false` unless the body says otherwise. */
  lemma RequiredDefaultsToFalse(j: Json, path: seq<Segment>)
    requires ParseField(j, path).Ok?
    ensures "required" !in j.members ==> !ParseField(j, path).value.required
    ensures "required" in j.members ==> ParseField(j, path).value.required == j.members["required"].b
  {
  }

  /** Keys the schema does not name are stripped: adding one changes nothing. */
  lemma UnknownFieldKeysIgnored(m: map<string, Json>, k: string, v: Json, path: seq<Segment>)
    requires k !in {"id", "type", "label", "required", "placeholder", "options"}
    ensures ParseField(JObject(m[k := v]), path) == ParseField(JObject(m), path)
  {
    var m' := m[k := v];
    assert forall key :: key != k ==> Member(m', key) == Member(m, key);
  }

  /** Keys the form schema does not name are stripped as well. */
  lemma UnknownFormKeysIgnored(m: map<string, Json>, k: string, v: Json)
    requires k !in {"id", "title", "description", "fields", "slug"}
    ensures ParseForm(JObject(m[k := v])) == ParseForm(JObject(m))
  {
    var m' := m[k := v];
    assert forall key :: key != k ==> Member(m', key) == Member(m, key);
  }

  // ---------------------------------------------------------------------
  // Serialising a parsed form (`JSON.stringify`, which drops undefined keys)
  // ---------------------------------------------------------------------

  function StringsToJson(ss: seq<string>): seq<Json> {
    seq(|ss|, i requires 0 <= i < |ss| => JString(ss[i]))
  }

  function FieldToJson(f: Field): Json {
    var base := map["id" := JString(f.id), "type" := JString(TypeName(f.kind)),
                    "label" := JString(f.labelText), "required" := JBool(f.required)];
    var withPlaceholder := if f.placeholder.Some? then base["placeholder" := JString(f.placeholder.value)] else base;
    var withOptions := if f.options.Some? then withPlaceholder["options" := JArray(StringsToJson(f.options.value))]
                       else withPlaceholder;
    JObject(withOptions)
  }

  function FieldsToJson(fs: seq<Field>): seq<Json> {
    seq(|fs|, i requires 0 <= i < |fs| => FieldToJson(fs[i]))
  }

  function FormToJson(f: Form): Json {
    var base := map["id" := JString(f.id), "title" := JString(f.title),
                    "fields" := JArray(FieldsToJson(f.fields)), "slug" := JString(f.slug)];
    JObject(if f.description.Some? then base["description" := JString(f.description.value)] else base)
  }

  /** An options list survives serialisation and re-parsing unchanged. */
  lemma OptionsRoundTrip(opts: Option<seq<string>>, path: seq<Segment>)
    ensures ParseOptionalStringArray(if opts.Some? then Some(JArray(StringsToJson(opts.value))) else None, path)
            == Ok(opts)
  {
    if opts.Some? {
      var items := StringsToJson(opts.value);
      StringItemsOk(items, path);
      assert ParseItems(items, path, 0, ParseStringItem).value == opts.value;
    }
  }

  /** A well-formed field survives serialisation and re-parsing unchanged. */
  lemma FieldRoundTrip(f: Field, path: seq<Segment>)
    requires WellFormedField(f)
    ensures ParseField(FieldToJson(f), path) == Ok(f)
  {
    var m := FieldToJson(f).members;
    TypeNameRoundTrip(f.kind);
    assert Member(m, "id") == Some(JString(f.id));
    assert Member(m, "type") == Some(JString(TypeName(f.kind)));
    assert Member(m, "label") == Some(JString(f.labelText));
    assert Member(m, "required") == Some(JBool(f.required));
    assert Member(m, "placeholder") == if f.placeholder.Some? then Some(JString(f.placeholder.value)) else None;
    assert Member(m, "options") == if f.options.Some? then Some(JArray(StringsToJson(f.options.value))) else None;
    OptionsRoundTrip(f.options, path + [Key("options")]);
  }

  /** A list of well-formed fields survives serialisation and re-parsing unchanged. */
  lemma {:induction false} FieldsRoundTrip(fs: seq<Field>)
    requires forall i :: 0 <= i < |fs| ==> WellFormedField(fs[i])
    ensures ParseFields(Some(JArray(FieldsToJson(fs))), [Key("fields")]) == Ok(fs)
  {
    var items := FieldsToJson(fs);
    var r := ParseItems(items, [Key("fields")], 0, ParseField);
    forall i | 0 <= i < |items|
      ensures ItemAt(items, i, [Key("fields")], 0, ParseField) == Ok(fs[i])
    {
      assert [Key("fields")] + [Index(0 + i)] == [Key("fields"), Index(i)];
      FieldRoundTrip(fs[i], [Key("fields"), Index(i)]);
    }
    assert r.value == fs;
  }

  /** A well-formed form survives serialisation and re-parsing unchanged. */
  lemma FormRoundTrip(f: Form)
    requires WellFormedForm(f)
    ensures ParseForm(FormToJson(f)) == Ok(f)
  {
    var m := FormToJson(f).members;
    assert Member(m, "id") == Some(JString(f.id));
    assert Member(m, "title") == Some(JString(f.title));
    assert Member(m, "description") == if f.description.Some? then Some(JString(f.description.value)) else None;
    assert Member(m, "fields") == Some(JArray(FieldsToJson(f.fields)));
    assert Member(m, "slug") == Some(JString(f.slug));
    FieldsRoundTrip(f.fields);
  }

  /** A form whose serialisation the schema accepts is well formed. */
  lemma AcceptedSerialisationWellFormed(f: Form)
    requires ParseForm(FormToJson(f)).Ok?
    ensures WellFormedForm(f)
  {
    var j := FormToJson(f);
    ParseFormOkIff(j);
    var m := j.members;
    assert Member(m, "title") == Some(JString(f.title));
    assert Member(m, "slug") == Some(JString(f.slug));
    assert Member(m, "fields") == Some(JArray(FieldsToJson(f.fields)));
    forall i | 0 <= i < |f.fields|
      ensures WellFormedField(f.fields[i])
    {
      assert ValidFieldJson(FieldsToJson(f.fields)[i]);
      var fm := FieldToJson(f.fields[i]).members;
      assert Member(fm, "label") == Some(JString(f.fields[i].labelText));
    }
  }

  /** The schema accepts the serialisation of a form exactly when the form is well formed, and then returns it. */
  lemma AcceptedIffWellFormed(f: Form)
    ensures ParseForm(FormToJson(f)).Ok? <==> WellFormedForm(f)
    ensures ParseForm(FormToJson(f)).Ok? ==> ParseForm(FormToJson(f)).value == f
  {
    if ParseForm(FormToJson(f)).Ok? {
      AcceptedSerialisationWellFormed(f);
    }
    if WellFormedForm(f) {
      FormRoundTrip(f);
    }
  }

  /** Parsing normalises: a parsed form re-parses to itself. */
  lemma ParseIdempotent(j: Json)
    requires ParseForm(j).Ok?
    ensures ParseForm(FormToJson(ParseForm(j).value)) == ParseForm(j)
  {
    ParsedFormWellFormed(j);
    FormRoundTrip(ParseForm(j).value);
  }

  // ---------------------------------------------------------------------
  // Where the issues point
  // ---------------------------------------------------------------------

  /** Every issue of each of the five form keys, at that key's path, is among the form's issues. */
  lemma FormKeyIssuesKept(m: map<string, Json>)
    ensures forall x :: x in Issues(ParseString(Member(m, "id"), [Key("id")])) ==> x in Issues(ParseForm(JObject(m)))
    ensures forall x :: x in Issues(ParseNonEmptyString(Member(m, "title"), [Key("title")])) ==>
              x in Issues(ParseForm(JObject(m)))
    ensures forall x :: x in Issues(ParseOptionalString(Member(m, "description"), [Key("description")])) ==>
              x in Issues(ParseForm(JObject(m)))
    ensures forall x :: x in Issues(ParseFields(Member(m, "fields"), [Key("fields")])) ==>
              x in Issues(ParseForm(JObject(m)))
    ensures forall x :: x in Issues(ParseNonEmptyString(Member(m, "slug"), [Key("slug")])) ==>
              x in Issues(ParseForm(JObject(m)))
  {
  }

  /** Every issue of each of the six field keys, at that key's path, is among the field's issues. */
  lemma FieldKeyIssuesKept(m: map<string, Json>, path: seq<Segment>)
    ensures forall x :: x in Issues(ParseString(Member(m, "id"), path + [Key("id")])) ==>
              x in Issues(ParseField(JObject(m), path))
    ensures forall x :: x in Issues(ParseFieldType(Member(m, "type"), path + [Key("type")])) ==>
              x in Issues(ParseField(JObject(m), path))
    ensures forall x :: x in Issues(ParseNonEmptyString(Member(m, "label"), path + [Key("label")])) ==>
              x in Issues(ParseField(JObject(m), path))
    ensures forall x :: x in Issues(ParseBoolDefaultFalse(Member(m, "required"), path + [Key("required")])) ==>
              x in Issues(ParseField(JObject(m), path))
    ensures forall x :: x in Issues(ParseOptionalString(Member(m, "placeholder"), path + [Key("placeholder")])) ==>
              x in Issues(ParseField(JObject(m), path))
    ensures forall x :: x in Issues(ParseOptionalStringArray(Member(m, "options"), path + [Key("options")])) ==>
              x in Issues(ParseField(JObject(m), path))
  {
  }

  /** An empty `title` is reported at path `title`. */
  lemma EmptyTitleReported(m: map<string, Json>)
    requires "title" in m && m["title"] == JString("")
    ensures ParseForm(JObject(m)).Err?
    ensures Issue([Key("title")], TooSmall) in ParseForm(JObject(m)).error
  {
  }

  /** A field object whose `type` is an unknown string is rejected, with the issue at its `type` key. */
  lemma BadTypeInField(fj: Json, path: seq<Segment>)
    requires fj.JObject? && "type" in fj.members && fj.members["type"].JString? &&
             fj.members["type"].s !in FieldTypeNames
    ensures ParseField(fj, path).Err?
    ensures Issue(path + [Key("type")], InvalidEnumValue) in ParseField(fj, path).error
  {
    var m := fj.members;
    var kind := ParseFieldType(Member(m, "type"), path + [Key("type")]);
    assert kind == Err([Issue(path + [Key("type")], InvalidEnumValue)]);
  }

  /** An issue under `fields` is an issue of the whole form. */
  lemma FieldsIssueKept(m: map<string, Json>, x: Issue)
    requires x in Issues(ParseFields(Member(m, "fields"), [Key("fields")]))
    ensures ParseForm(JObject(m)).Err?
    ensures x in ParseForm(JObject(m)).error
  {
  }

  /** A field whose `type` is not one of the seven names is reported at `fields[i].type`. */
  lemma BadFieldTypeReported(m: map<string, Json>, i: nat)
    requires "fields" in m && m["fields"].JArray? && i < |m["fields"].items|
    requires var fj := m["fields"].items[i];
             fj.JObject? && "type" in fj.members && fj.members["type"].JString? &&
             fj.members["type"].s !in FieldTypeNames
    ensures ParseForm(JObject(m)).Err?
    ensures Issue([Key("fields"), Index(i), Key("type")], InvalidEnumValue) in ParseForm(JObject(m)).error
  {
    var items := m["fields"].items;
    var x := Issue([Key("fields"), Index(i), Key("type")], InvalidEnumValue);
    assert [Key("fields")] + [Index(0 + i)] + [Key("type")] == x.path;
    BadTypeInField(items[i], [Key("fields")] + [Index(0 + i)]);
    ItemIssuesKept(items, [Key("fields")], 0, ParseField, i, x);
    FieldsIssueKept(m, x);
  }

  /** No content constraint on ids, and none tying options to type: a bare select field is valid. */
  lemma SelectWithoutOptionsAccepted()
    ensures ParseField(JObject(map["id" := JString(""), "type" := JString("select"), "label" := JString("Pick")]), [])
            == Ok(Field("", Select, "Pick", false, None, None))
  {
  }
}
