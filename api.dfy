/**
 * The collection route of olaform/src/app/api/forms/route.ts. A response is
 * its HTTP status and its payload; JSON serialisation is not modelled.
 */
module FormsApi {
  import opened Wrappers
  import opened Schema
  import opened FormStore

  datatype Payload =
    | FormList(forms: seq<Form>)   // GET: the stored forms
    | SavedForm(form: Form)        // POST: the record just stored
    | Invalid(issues: seq<Issue>)  // POST: `{ error: … }` for a body the schema rejects

  datatype Response = Response(status: nat, payload: Payload)

  const OK: nat := 200
  const BAD_REQUEST: nat := 400

  /** `GET /api/forms`: every stored form, in insertion order; the store is only read. */
  method Get(store: Store) returns (resp: Response)
    requires store.Valid()
    ensures resp.status == OK
    ensures resp.payload == FormList(Listed(store.keys, store.entries))
    ensures |resp.payload.forms| == |store.entries|
  {
    var forms := store.List();
    resp := Response(OK, FormList(forms));
  }

  /** `POST /api/forms`: validate the body; reject it with 400, or upsert the parsed form and echo it. */
  method Post(store: Store, body: Json) returns (resp: Response)
    requires store.Valid()
    modifies store
    ensures store.Valid()
    ensures ParseForm(body).Err? ==>
              && resp == Response(BAD_REQUEST, Invalid(ParseForm(body).error))
              && store.keys == old(store.keys) && store.entries == old(store.entries)
    ensures ParseForm(body).Ok? ==>
              var f := ParseForm(body).value;
              && resp == Response(OK, SavedForm(f))
              && store.entries == old(store.entries)[f.id := f]
              && store.keys == KeysAfterSet(old(store.keys), f.id)
              && f in Listed(store.keys, store.entries)
    ensures resp.status == BAD_REQUEST <==> !ValidFormJson(body)
  {
    ParseFormOkIff(body);
    var parse := ParseForm(body);
    if parse.Err? {
      return Response(BAD_REQUEST, Invalid(parse.error));
    }
    UpsertedIsListed(store.keys, store.entries, parse.value);
    var saved := store.Upsert(parse.value);
    resp := Response(OK, SavedForm(saved));
  }

  /**
   * What a successful POST stores: the parsed body, defaults applied, which
   * the following GET lists; and a body of that exact form is accepted again.
   */
  lemma PostThenGet(keys: seq<string>, entries: map<string, Form>, body: Json)
    requires StoreInv(keys, entries) && ParseForm(body).Ok?
    ensures var f := ParseForm(body).value;
            && WellFormedForm(f)
            && f in Listed(KeysAfterSet(keys, f.id), entries[f.id := f])
            && ParseForm(FormToJson(f)) == Ok(f)
  {
    ParsedFormWellFormed(body);
    UpsertedIsListed(keys, entries, ParseForm(body).value);
    FormRoundTrip(ParseForm(body).value);
  }

  /**
   * The scenario of a one-field survey: the body parses to exactly the form it
   * spells out, with `required` kept as given.
   */
  lemma SurveyAccepted()
    ensures ParseForm(JObject(map[
              "id" := JString("frm_1"), "title" := JString("Survey"), "slug" := JString("survey"),
              "fields" := JArray([JObject(map["id" := JString("fld_1"), "type" := JString("text"),
                                              "label" := JString("Name"), "required" := JBool(true)])])]))
            == Ok(Form("frm_1", "Survey", None, [Field("fld_1", Text, "Name", true, None, None)], "survey"))
  {
    var fld := Field("fld_1", Text, "Name", true, None, None);
    var form := Form("frm_1", "Survey", None, [fld], "survey");
    assert FieldsToJson([fld]) == [FieldToJson(fld)];
    FormRoundTrip(form);
  }
}
