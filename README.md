# Olaform core, modelled in Dafny

Olaform is a small Next.js form builder. This project models its core:

- the in-memory form store and the `/api/forms` collection route;
- the zod schema that decides which request bodies are forms;
- the two builder pages' field-list editors, including the comma-separated options editor;
- the form value that Save submits;
- the dashboard's search and status filter.

It proves what each of these promises.

Modules, one per source file plus three shared ones:

| module | file | models |
|---|---|---|
| `Wrappers` | `wrappers.dfy` | `Option` and `Result` |
| `Seqs` | `seqs.dfy` | `Array.prototype.filter`, `find` and `findIndex`, and swapping two slots, each proved once over `seq` |
| `Text` | `text.dfy` | ASCII `toLowerCase`/`toUpperCase`, capitalising, `String.prototype.includes` with a reference definition, and `join` |
| `Schema` | `schema.dfy` | `olaform/src/types/form.ts` (below) |
| `FormStore` | `store.dfy` | `olaform/src/app/api/forms/data.ts` (below) |
| `FormsApi` | `api.dfy` | `olaform/src/app/api/forms/route.ts` (below) |
| `Builder` | `builder.dfy` | `src/app/builder/page.tsx` (below) |
| `OlaBuilder` | `ola_builder.dfy` | `olaform/src/app/builder/page.tsx` (below) |
| `Dashboard` | `dashboard.dfy` | `src/app/dashboard/page.tsx` (below) |

How each module is modelled:

- `Schema`: the zod schema is a function from a JSON value to either the parsed form or the list of issues. Each issue is a path plus a code, collected over every key, in shape order.
- `FormStore`: the store is a class. A JavaScript `Map` remembers insertion order, so it is a key sequence plus a key-to-form map.
- `FormsApi`: `GET` and `POST` are module-level methods that take the store as a parameter.
- `Builder` and `OlaBuilder`: each page's React state cells are the fields of a class, and each handler is a method.
- `Dashboard`: the filter and the colour switch are pure functions.

## Model

| member | source | states |
|---|---|---|
| Schema.TypeFromName | olaform/src/types/form.ts:3-11 | a name is accepted exactly when it is one of the seven field type names, and it maps back to that name |
| Schema.TypeNameRoundTrip | olaform/src/types/form.ts:3-11 | every field type's name is in the enum and parses back to the same type |
| Schema.ParseString | olaform/src/types/form.ts:14 | accepts exactly a present JSON string and yields it; failure always reports an issue |
| Schema.ParseNonEmptyString | olaform/src/types/form.ts:16 | accepts exactly a present string of length at least 1; the empty string is a TooSmall issue at that path |
| Schema.ParseOptionalString | olaform/src/types/form.ts:18 | accepts a missing key (as no value) or a string; anything else, null included, is an issue |
| Schema.ParseBoolDefaultFalse | olaform/src/types/form.ts:17 | accepts a missing key or a boolean; the result is false for a missing key, else the given boolean |
| Schema.ParseFieldType | olaform/src/types/form.ts:3-11 | accepts exactly a string among the seven names; an unknown string is an InvalidEnumValue issue at that path |
| Schema.ParseItems | olaform/src/types/form.ts:19 | an array parses exactly when every item parses, giving the items' values in order, each at its index path |
| Schema.ItemIssuesKept | olaform/src/types/form.ts:19 | every issue of any item appears among the issues of the whole array |
| Schema.StringItemsOk | olaform/src/types/form.ts:19 | an array of strings is accepted exactly when all items are strings, and yields them |
| Schema.ParseOptionalStringArray | olaform/src/types/form.ts:19 | `z.array(z.string()).optional()`: a missing key gives no options, an array is parsed item by item; every failure reports an issue (what it accepts: `Schema.StringItemsOk`, `Schema.OptionsRoundTrip`) |
| Schema.ParseField | olaform/src/types/form.ts:13-20 | `FieldSchema`: all six keys are checked; every failure reports an issue (what it accepts: `Schema.ParseFieldOkIff`; every key's issues are kept: `Schema.FieldKeyIssuesKept`) |
| Schema.ParseFields | olaform/src/types/form.ts:26 | `z.array(FieldSchema)` at `fields`: a non-array is an issue, an array is parsed field by field; every failure reports an issue |
| Schema.ParseForm | olaform/src/types/form.ts:22-28 | `FormSchema.safeParse`: all five keys are checked; every failure reports an issue (what it accepts: `Schema.ParseFormOkIff`; every key's issues are kept: `Schema.FormKeyIssuesKept`) |
| Schema.ParseFieldOkIff | olaform/src/types/form.ts:13-20 | a field object is accepted exactly when each of its six keys is valid, and the result has a non-empty label |
| Schema.ParseFormOkIff | olaform/src/types/form.ts:22-28 | a form object is accepted exactly when each of its five keys is valid, every field included |
| Schema.ParsedFormWellFormed | olaform/src/types/form.ts:22-28 | an accepted form has a non-empty title and slug and non-empty labels on all fields |
| Schema.RequiredDefaultsToFalse | olaform/src/types/form.ts:17 | a field without `required` is not required; with it, it takes the given value |
| Schema.UnknownFieldKeysIgnored | olaform/src/types/form.ts:13-20 | adding a key outside the field shape changes nothing in the outcome (unknown keys are stripped) |
| Schema.UnknownFormKeysIgnored | olaform/src/types/form.ts:22-28 | adding a key outside the form shape changes nothing in the outcome |
| Schema.OptionsRoundTrip | olaform/src/types/form.ts:19 | an options list, serialised and parsed, comes back unchanged, as does its absence |
| Schema.FieldRoundTrip | olaform/src/types/form.ts:13-20 | a field with a non-empty label, serialised and parsed, comes back unchanged |
| Schema.FieldsRoundTrip | olaform/src/types/form.ts:26 | a list of such fields, serialised and parsed, comes back unchanged |
| Schema.FormRoundTrip | olaform/src/types/form.ts:22-28 | a well-formed form, serialised and parsed, comes back unchanged |
| Schema.AcceptedSerialisationWellFormed | olaform/src/types/form.ts:22-28 | a form whose serialisation is accepted is well formed |
| Schema.AcceptedIffWellFormed | olaform/src/types/form.ts:22-28 | a form's serialisation is accepted exactly when the form is well formed, and then parses to the form itself |
| Schema.ParseIdempotent | olaform/src/types/form.ts:22-28 | re-serialising and re-parsing an accepted form gives the same result |
| Schema.EmptyTitleReported | olaform/src/types/form.ts:24 | an empty title is rejected with a TooSmall issue at path `title` |
| Schema.BadFieldTypeReported | olaform/src/types/form.ts:15 | an unknown type string in field i is rejected with an InvalidEnumValue issue at path `fields.i.type` |
| Schema.BadTypeInField | olaform/src/types/form.ts:15 | a field whose type is an unknown string is rejected with an InvalidEnumValue issue at its `type` key |
| Schema.FieldsIssueKept | olaform/src/types/form.ts:22-28 | an issue under `fields` is an issue of the whole form |
| Schema.FormKeyIssuesKept | olaform/src/types/form.ts:22-28 | each issue of each of the five form keys, at that key's path, is an issue of the whole form: none is dropped because another key also fails |
| Schema.FieldKeyIssuesKept | olaform/src/types/form.ts:13-20 | each issue of each of the six field keys, at that key's path, is an issue of the whole field |
| Schema.SelectWithoutOptionsAccepted | olaform/src/types/form.ts:19 | a select field without options is accepted: the schema does not require options |
| Schema.FieldToJson | olaform/src/app/builder/page.tsx:59 | `JSON.stringify` of a field, dropping undefined keys; `Schema.FieldRoundTrip` proves it parses back |
| Schema.FormToJson | olaform/src/app/builder/page.tsx:59 | `JSON.stringify` of the saved form, dropping an undefined description; `Schema.FormRoundTrip` proves it parses back |
| FormStore.Store.constructor | olaform/src/app/api/forms/data.ts:3 | the store starts empty |
| FormStore.Store.Upsert | olaform/src/app/api/forms/data.ts:5-8 | stores the form under its id, replacing any earlier record; a new id goes last in the order; returns the form; the invariant is kept |
| FormStore.Store.GetById | olaform/src/app/api/forms/data.ts:10-12 | finds a form exactly when its id is stored, and returns that record |
| FormStore.Store.GetBySlug | olaform/src/app/api/forms/data.ts:14-19 | the loop returns the first form in insertion order with the slug; nothing exactly when no stored form has the slug |
| FormStore.Store.List | olaform/src/app/api/forms/data.ts:21-23 | the stored forms in insertion order, one per stored id |
| FormStore.Store.Delete | olaform/src/app/api/forms/data.ts:25-27 | reports whether the id was stored and removes exactly that id from the map and the order |
| FormStore.Listed | olaform/src/app/api/forms/data.ts:21-23 | `Array.from(forms.values())`: the stored forms in key order (`FormStore.ListedOnePerId` states one per id) |
| FormStore.KeysAfterSet | olaform/src/app/api/forms/data.ts:6 | the key order after `forms.set`: the old order stays as a prefix, it grows by one exactly when the id is new, and the keys are the old ones plus the id |
| FormStore.FirstWithSlug | olaform/src/app/api/forms/data.ts:14-19 | what the slug lookup returns: a found form has the slug and is listed (first in order: `FormStore.SlugLookupFirst`) |
| FormStore.DistinctCardinality | olaform/src/app/api/forms/data.ts:3 | a duplicate-free key order has as many distinct keys as positions |
| FormStore.ListedOnePerId | olaform/src/app/api/forms/data.ts:21-23 | the listing has one entry per stored id, each id's record at its key's position |
| FormStore.UpsertExistingKeepsPosition | olaform/src/app/api/forms/data.ts:5-8 | upserting a stored id replaces its record in place and leaves the order alone |
| FormStore.UpsertNewAppends | olaform/src/app/api/forms/data.ts:5-8 | upserting a new id appends its record to the listing |
| FormStore.UpsertedIsListed | olaform/src/app/api/forms/data.ts:5-8 | after an upsert the invariant holds and the form is listed |
| FormStore.DistinctRemoveAt | olaform/src/app/api/forms/data.ts:25-27 | removing one position of a duplicate-free order removes exactly that key |
| FormStore.DeleteKeepsOthers | olaform/src/app/api/forms/data.ts:25-27 | deleting keeps the invariant, is a no-op for an absent id, and otherwise drops just that key's position |
| FormStore.KeysAfterDelete | olaform/src/app/api/forms/data.ts:25-27 | the key order after a delete holds exactly the other keys |
| FormStore.ListedDropAt | olaform/src/app/api/forms/data.ts:25-27 | dropping one key position and its map entry drops exactly that position from the listing |
| FormStore.DeleteListedOrder | olaform/src/app/api/forms/data.ts:25-27 | deleting a stored form drops exactly its position from the listing, keeping the rest in order |
| FormStore.SlugLookupNone | olaform/src/app/api/forms/data.ts:14-19 | the slug lookup fails exactly when no stored form has the slug |
| FormStore.SlugLookupFirst | olaform/src/app/api/forms/data.ts:14-19 | a successful slug lookup yields the earliest stored form, in insertion order, that has the slug |
| FormsApi.Get | olaform/src/app/api/forms/route.ts:6-8 | status 200 with the listing of the store, one form per stored id |
| FormsApi.Post | olaform/src/app/api/forms/route.ts:10-18 | a rejected body gets 400 with the issues and leaves the store unchanged; an accepted one is upserted and echoed with 200; 400 exactly when the body is invalid |
| FormsApi.PostThenGet | olaform/src/app/api/forms/route.ts:10-18 | a stored body is well formed, is listed by the next GET, and its echo would be accepted unchanged |
| FormsApi.SurveyAccepted | olaform/src/app/api/forms/route.ts:10-18 | a concrete one-field survey body parses to exactly the form it spells out |
| Builder.FormBuilder.constructor | src/app/builder/page.tsx:48-51 | the initial state: "Untitled Form", an empty description, no fields, nothing selected |
| Builder.FormBuilder.AddField | src/app/builder/page.tsx:53-64 | appends the new field and selects it |
| Builder.FormBuilder.UpdateField | src/app/builder/page.tsx:66-70 | merges the update into every field with the id |
| Builder.FormBuilder.DeleteField | src/app/builder/page.tsx:72-77 | removes every field with the id, and clears the selection exactly when it was that id |
| Builder.FormBuilder.DuplicateField | src/app/builder/page.tsx:79-85 | appends a copy of the first field with the id under the new id, if there is one |
| Builder.FormBuilder.MoveField | src/app/builder/page.tsx:87-98 | swaps the first field with the id with its neighbour in the given direction, where one exists |
| Builder.FormBuilder.SetTitle | src/app/builder/page.tsx:168 | the title becomes the input's value |
| Builder.FormBuilder.SetDescription | src/app/builder/page.tsx:174 | the description becomes the input's value |
| Builder.FormBuilder.SelectField | src/app/builder/page.tsx:189 | the clicked field becomes the selection |
| Builder.Apply | src/app/builder/page.tsx:68 | `{ ...field, ...updates }`: each key present in the update replaces the field's value (`Builder.ApplyLaws`) |
| Builder.NewField | src/app/builder/page.tsx:55-61 | the field `addField` creates (`Builder.NewFieldDefaults`) |
| Builder.UpdateById | src/app/builder/page.tsx:67-69 | the `map` of `updateField` (`Builder.UpdateByIdFrame`) |
| Builder.Duplicated | src/app/builder/page.tsx:79-85 | the list after `duplicateField` (`Builder.DuplicatedShape`, `Builder.DuplicateThenDelete`) |
| Builder.Moved | src/app/builder/page.tsx:87-98 | the list after `moveField` (`Builder.MovedUpSwaps`, `Builder.MovedDownSwaps`, `Builder.MovedNoOp`, `Builder.MovedIsPermutation`) |
| Builder.ApplyLaws | src/app/builder/page.tsx:66-70 | an empty update changes nothing; applying an update twice is applying it once |
| Builder.NewFieldDefaults | src/app/builder/page.tsx:53-64 | a new field is optional, has the placeholder "Enter <type>...", and has the two default options exactly for radio and select |
| Builder.RemoveById | src/app/builder/page.tsx:73 | the remaining fields are fields of the list without the id, and every field without the id remains |
| Builder.UpdateByIdFrame | src/app/builder/page.tsx:66-70 | updating keeps the length and order and changes only the fields with the id |
| Builder.RemoveByIdExact | src/app/builder/page.tsx:72-77 | deleting removes exactly the fields with the id and keeps the others in order, each as often as before |
| Builder.AddThenDelete | src/app/builder/page.tsx:53-77 | deleting a freshly added field with a fresh id restores the list |
| Builder.DuplicatedShape | src/app/builder/page.tsx:79-85 | duplicating appends the first match under the new id, or changes nothing when no field has the id |
| Builder.DuplicateThenDelete | src/app/builder/page.tsx:72-85 | deleting the copy made under a fresh id restores the list |
| Builder.MovedIsPermutation | src/app/builder/page.tsx:87-98 | moving keeps the length and is a permutation |
| Builder.MovedUpSwaps | src/app/builder/page.tsx:87-93 | moving up a field that is not first swaps it with the field before it |
| Builder.MovedDownSwaps | src/app/builder/page.tsx:87-98 | moving down a field that is not last swaps it with the field after it |
| Builder.MoveUpThenDown | src/app/builder/page.tsx:87-98 | moving a field up, when it can move, and then down restores the list |
| Builder.MovedNoOp | src/app/builder/page.tsx:87-98 | an id no field has, moving the first field up and moving the last field down each leave the list unchanged |
| OlaBuilder.SpaceRun | olaform/src/app/builder/page.tsx:135 | the longest all-white-space prefix: every character in it is white space, the next one is not |
| OlaBuilder.SeparatorAt | olaform/src/app/builder/page.tsx:135 | the separator regex matches at the start of the text exactly when a comma follows the leading white space; the match is that white space, the comma and the longest white-space run after it |
| OlaBuilder.SplitFrom | olaform/src/app/builder/page.tsx:135 | `split` by the separator regex, scanning left to right from the current piece (`OlaBuilder.SplitFromNoComma`) |
| OlaBuilder.SplitOptions | olaform/src/app/builder/page.tsx:135 | `value.split(/\s*,\s*/)` (`OlaBuilder.SplitNoComma`, `OlaBuilder.SplitJoin`) |
| OlaBuilder.OptionsText | olaform/src/app/builder/page.tsx:134 | the options, or none, joined with ", " (`OlaBuilder.OptionsEditorStable`) |
| OlaBuilder.SplitFromNoComma | olaform/src/app/builder/page.tsx:135 | a split always has at least one piece, and no piece contains a comma |
| OlaBuilder.SplitNoComma | olaform/src/app/builder/page.tsx:135 | the same for the options input's split |
| OlaBuilder.NoSeparatorInside | olaform/src/app/builder/page.tsx:135 | no separator match starts inside comma-free text that does not end in white space |
| OlaBuilder.SplitCarries | olaform/src/app/builder/page.tsx:135 | where no separator starts, the character joins the current piece |
| OlaBuilder.ScanOption | olaform/src/app/builder/page.tsx:135 | such text is carried into the current piece whole |
| OlaBuilder.SeparatorOfJoin | olaform/src/app/builder/page.tsx:134-135 | the joining `", "` is matched whole by the separator when the next option does not start with white space |
| OlaBuilder.JoinStart | olaform/src/app/builder/page.tsx:134 | a join of clean options does not start with white space |
| OlaBuilder.SplitJoinStep | olaform/src/app/builder/page.tsx:134-135 | a clean option followed by the joining separator splits into that option, then the split of the rest |
| OlaBuilder.SplitJoin | olaform/src/app/builder/page.tsx:134-135 | splitting the joined text of a non-empty list of options without commas or surrounding white space gives the list back |
| OlaBuilder.EmptyOptionsRoundTrip | olaform/src/app/builder/page.tsx:134-135 | with no options the input is empty, and splitting it gives one empty option, not none |
| OlaBuilder.OptionsEditorStable | olaform/src/app/builder/page.tsx:134-135 | re-submitting the options text of a field with clean options leaves the field unchanged |
| OlaBuilder.BuilderPage.constructor | olaform/src/app/builder/page.tsx:21-24 | the initial state: "Untitled Form", "untitled-form", no fields, nothing selected |
| OlaBuilder.BuilderPage.SelectedField | olaform/src/app/builder/page.tsx:26-29 | nothing exactly when no id is selected or no field has it; otherwise the first field with the selected id |
| OlaBuilder.BuilderPage.AddField | olaform/src/app/builder/page.tsx:31-42 | appends the new field and selects it; with a fresh id the selected field is the new one |
| OlaBuilder.BuilderPage.UpdateSelected | olaform/src/app/builder/page.tsx:44-46 | merges the update into the fields with the selected id |
| OlaBuilder.BuilderPage.EditOptions | olaform/src/app/builder/page.tsx:135 | the selected field's options become the pieces of the split text |
| OlaBuilder.BuilderPage.EditLabel | olaform/src/app/builder/page.tsx:118 | the selected fields' label becomes the input's text |
| OlaBuilder.BuilderPage.EditPlaceholder | olaform/src/app/builder/page.tsx:126 | the selected fields' placeholder becomes the input's text |
| OlaBuilder.BuilderPage.Select | olaform/src/app/builder/page.tsx:99 | the clicked field becomes the selection |
| OlaBuilder.BuilderPage.SetTitle | olaform/src/app/builder/page.tsx:72 | the title becomes the input's value |
| OlaBuilder.BuilderPage.SetSlug | olaform/src/app/builder/page.tsx:73 | the slug becomes the input's value |
| OlaBuilder.BuilderPage.HandleSave | olaform/src/app/builder/page.tsx:48-55 | the saved form carries the title, slug and fields, the new id and no description; the route accepts it exactly when the title, slug and every label are non-empty, and then stores it unchanged |
| OlaBuilder.NewField | olaform/src/app/builder/page.tsx:32-39 | the field `addField` creates (`OlaBuilder.NewFieldDefaults`, `OlaBuilder.NewFieldLabel`) |
| OlaBuilder.UpdateSelectedIn | olaform/src/app/builder/page.tsx:45 | the `map` of `updateSelected` (`OlaBuilder.UpdateSelectedFrame`) |
| OlaBuilder.Apply | olaform/src/app/builder/page.tsx:45 | `{ ...f, ...updates }`: each key present in the update replaces the field's value (`OlaBuilder.OptionsEditorStable` relies on it) |
| OlaBuilder.FormToSave | olaform/src/app/builder/page.tsx:49-55 | the form `handleSave` builds (`OlaBuilder.BuilderPage.HandleSave`) |
| OlaBuilder.NewFieldDefaults | olaform/src/app/builder/page.tsx:31-39 | a new field is optional; it has the placeholder "Your answer" exactly for text and the two default options exactly for select and radio; it is always well formed |
| OlaBuilder.NewFieldLabel | olaform/src/app/builder/page.tsx:35 | the label is the type name with its first letter upper-cased, followed by " field" |
| OlaBuilder.UpdateSelectedFrame | olaform/src/app/builder/page.tsx:44-46 | the update keeps the length, changes only the selected fields, and changes nothing while nothing is selected |
| Dashboard.FilteredForms | src/app/dashboard/page.tsx:122-127 | every listed form is one of the forms and passes both the search and the status filter; every passing form is listed |
| Dashboard.GetStatusColor | src/app/dashboard/page.tsx:129-140 | green for "active", yellow for "draft", and gray for everything else |
| Dashboard.MatchesSearch | src/app/dashboard/page.tsx:123-124 | `matchesSearch` (`Dashboard.SearchIff`, `Dashboard.SearchCaseInsensitive`) |
| Dashboard.MatchesStatus | src/app/dashboard/page.tsx:125 | `matchesStatus` (`Dashboard.FilteredStatus`, `Dashboard.UnknownFilterListsNothing`) |
| Dashboard.FilteredIsSubsequence | src/app/dashboard/page.tsx:122-127 | the list is an order-preserving subsequence, each passing form as often as in the input and each failing one not at all |
| Dashboard.SearchIff | src/app/dashboard/page.tsx:123-124 | a form matches exactly when the lower-cased term occurs at some position of the lower-cased title or description |
| Dashboard.FilteredStatus | src/app/dashboard/page.tsx:125 | unless the filter is "all", every listed form has the selected status |
| Dashboard.InitialListsAll | src/app/dashboard/page.tsx:119-127 | an empty search with "all" lists every form, in order |
| Dashboard.EmptySearchByStatus | src/app/dashboard/page.tsx:122-127 | with an empty search, every form with the selected status is listed |
| Dashboard.SearchCaseInsensitive | src/app/dashboard/page.tsx:123-124 | two terms that lower-case alike list the same forms |
| Dashboard.UpperCaseSearch | src/app/dashboard/page.tsx:123-124 | under the ASCII case mapping, the upper-cased term lists what the term lists |
| Dashboard.LowerCaseSearch | src/app/dashboard/page.tsx:123-124 | lower-casing the term first lists what the term lists |
| Dashboard.UnknownFilterListsNothing | src/app/dashboard/page.tsx:125 | a filter value that is neither "all" nor a status lists nothing |
| Dashboard.StatusColors | src/app/dashboard/page.tsx:129-140 | the three statuses have distinct colours, except that "archived" shares the gray fallback of every unknown string |

The shared helpers (`Seqs.Filter`, `Seqs.FirstIndex`, `Seqs.Find`, `Seqs.Swap`, `Text.Includes` with `Text.IncludesIff`, and the filter lemmas) carry their own contracts. The rows above use them.

## Left out

- Rendering: JSX, styling, the field previews, the template and landing pages, and the public form page are not modelled.
- The item route `olaform/src/app/api/forms/[id]/route.ts` and the slug route `olaform/src/app/api/forms/by-slug/[slug]/route.ts` are not part of this model. Only the store functions they call are modelled.
- HTTP is not modelled: `fetch`, `req.json()`, JSON text and `NextResponse`. A request body is a `Json` value and a response is a status plus a payload.
- JSON objects are maps, so duplicate keys and key order of JSON text are not modelled. Numbers are integers; the schema rejects every number anyway.
- `Schema.ParseForm`: the failure value is the list of zod issues (path and code). `error.flatten()` and zod's messages are not modelled.
- Ids from `Date.now()` and `generateId` are parameters of the methods that need them. They are not generated.
- The stale-closure reads of the root builder's handlers, React's batching of state updates, and `useMemo` caching are not modelled. Each handler is one atomic step on the current state.
- `alert` and the HTTP outcome of `handleSave` are not modelled. `OlaBuilder.BuilderPage.HandleSave` returns the form it would post and states how the route would answer it.
- `Text.ToLowerCase`, `Text.ToUpperCase`: case mapping covers the ASCII letters only, not Unicode's full case mapping.
- Dashboard.UpperCaseSearch: holds for ASCII search terms only; with Unicode case mapping it fails (`"ß"` upper-cases to `"SS"`, and `"ı"` to `"I"`, which lower-cases to `"i"`).
- `OlaBuilder.IsSpace`: `\s` stands for the six ASCII white-space characters, not the Unicode space separators.
- Dashboard: the mock form data, the statistics cards and the action menus are not modelled. `Dashboard.FilteredForms` applies to any list of forms.
- Options for select and radio fields: no rule in olaform/src/types/form.ts:13-20 ties `options` to `type`, so a select or radio field without options is accepted (`Schema.SelectWithoutOptionsAccepted`).
