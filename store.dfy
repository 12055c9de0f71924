/**
 * The in-memory form store of olaform/src/app/api/forms/data.ts: one
 * process-wide JavaScript `Map` from form id to form. A `Map` remembers the
 * order in which its keys were first inserted, so it is modelled as the
 * sequence of its keys in that order plus the key-to-form map.
 */
module FormStore {
  import opened Wrappers
  import opened Seqs
  import opened Schema

  predicate Distinct(keys: seq<string>) {
    forall i, j :: 0 <= i < j < |keys| ==> keys[i] != keys[j]
  }

  /** The key sequence lists every stored id exactly once. */
  ghost predicate StoreInv(keys: seq<string>, entries: map<string, Form>) {
    Distinct(keys) && (forall k :: k in keys <==> k in entries)
  }

  /** `forms.values()`: the stored forms in key-insertion order. */
  function Listed(keys: seq<string>, entries: map<string, Form>): seq<Form>
    requires forall k :: k in keys ==> k in entries
  {
    seq(|keys|, i requires 0 <= i < |keys| => entries[keys[i]])
  }

  /** The key order after `forms.set(id, …)`: a known key keeps its place, a new one goes last. */
  function KeysAfterSet(keys: seq<string>, id: string): (r: seq<string>)
    ensures |r| == |keys| + (if id in keys then 0 else 1) && r[..|keys|] == keys
    ensures forall k :: k in r <==> k in keys || k == id
  {
    if id in keys then keys else keys + [id]
  }

  function KeyIsNot(id: string): string -> bool {
    (k: string) => k != id
  }

  /** The key order after `forms.delete(id)`. */
  function KeysAfterDelete(keys: seq<string>, id: string): (r: seq<string>)
    ensures forall k :: k in r <==> k in keys && k != id
  {
    FilterMembers(keys, KeyIsNot(id));
    Filter(keys, KeyIsNot(id))
  }

  function HasSlug(slug: string): Form -> bool {
    (f: Form) => f.slug == slug
  }

  /** What `getFormBySlug` returns: the first stored form, in insertion order, with that slug. */
  function FirstWithSlug(keys: seq<string>, entries: map<string, Form>, slug: string): (r: Option<Form>)
    requires forall k :: k in keys ==> k in entries
    ensures r.Some? ==> r.value.slug == slug && r.value in Listed(keys, entries)
  {
    Find(Listed(keys, entries), HasSlug(slug))
  }

  /** The module-level `forms` map. */
  class Store {
    var keys: seq<string>
    var entries: map<string, Form>

    ghost predicate Valid()
      reads this
    {
      StoreInv(keys, entries)
    }

    /** `new Map<string, Form>()` */
    constructor ()
      ensures Valid() && keys == [] && entries == map[]
    {
      keys := [];
      entries := map[];
    }

    /** `upsertForm`: store `form` under its id, replacing any earlier record, and return it. */
    method Upsert(form: Form) returns (r: Form)
      requires Valid()
      modifies this
      ensures Valid()
      ensures r == form
      ensures entries == old(entries)[form.id := form]
      ensures keys == KeysAfterSet(old(keys), form.id)
    {
      keys := KeysAfterSet(keys, form.id);
      entries := entries[form.id := form];
      r := form;
    }

    /** `getFormById` */
    method GetById(id: string) returns (r: Option<Form>)
      requires Valid()
      ensures r.Some? <==> id in entries
      ensures r.Some? ==> r.value == entries[id]
    {
      r := if id in entries then Some(entries[id]) else None;
    }

    /** `getFormBySlug`: scan the forms in insertion order and stop at the first match. */
    method GetBySlug(slug: string) returns (r: Option<Form>)
      requires Valid()
      ensures r == FirstWithSlug(keys, entries, slug)
      ensures r.None? <==> forall k :: k in entries ==> entries[k].slug != slug
      ensures r.Some? ==> r.value.slug == slug && exists k :: k in entries && entries[k] == r.value
    {
      var i := 0;
      while i < |keys|
        invariant 0 <= i <= |keys|
        invariant forall j :: 0 <= j < i ==> entries[keys[j]].slug != slug
      {
        var f := entries[keys[i]];
        if f.slug == slug {
          assert Listed(keys, entries)[i] == f;
          return Some(f);
        }
        i := i + 1;
      }
      assert forall k :: k in entries ==> exists j :: 0 <= j < |keys| && keys[j] == k;
      return None;
    }

    /** `listForms`: `Array.from(forms.values())`. */
    method List() returns (r: seq<Form>)
      requires Valid()
      ensures r == Listed(keys, entries)
      ensures |r| == |entries|
    {
      ListedOnePerId(keys, entries);
      r := Listed(keys, entries);
    }

    /** `deleteForm`: remove the record for `id`, reporting whether there was one. */
    method Delete(id: string) returns (existed: bool)
      requires Valid()
      modifies this
      ensures Valid()
      ensures existed == (id in old(entries))
      ensures entries == old(entries) - {id}
      ensures keys == KeysAfterDelete(old(keys), id)
      ensures !existed ==> keys == old(keys) && entries == old(entries)
    {
      existed := id in entries;
      DeleteKeepsOthers(keys, entries, id);
      keys := KeysAfterDelete(keys, id);
      entries := entries - {id};
    }
  }

  // -----------------------------------------------------------------------
  // Properties of the store's abstract state
  // -----------------------------------------------------------------------

  /** A set of distinct keys has as many members as the sequence has elements. */
  lemma {:induction false} DistinctCardinality(keys: seq<string>)
    requires Distinct(keys)
    ensures |set k | k in keys| == |keys|
  {
    if keys != [] {
      var rest := keys[1..];
      DistinctCardinality(rest);
      assert (set k | k in keys) == (set k | k in rest) + {keys[0]};
      assert keys[0] !in rest;
    }
  }

  /** `listForms()` holds exactly one entry per stored id. */
  lemma ListedOnePerId(keys: seq<string>, entries: map<string, Form>)
    requires StoreInv(keys, entries)
    ensures |Listed(keys, entries)| == |entries|
    ensures forall k :: k in entries ==> exists i :: 0 <= i < |keys| && keys[i] == k && Listed(keys, entries)[i] == entries[k]
  {
    DistinctCardinality(keys);
    assert entries.Keys == set k | k in keys;
    forall k | k in entries
      ensures exists i :: 0 <= i < |keys| && keys[i] == k && Listed(keys, entries)[i] == entries[k]
    {
      var i :| 0 <= i < |keys| && keys[i] == k;
    }
  }

  /** Upserting a stored id replaces its record in place; every other position is unchanged. */
  lemma UpsertExistingKeepsPosition(keys: seq<string>, entries: map<string, Form>, f: Form, i: nat)
    requires StoreInv(keys, entries) && i < |keys| && keys[i] == f.id
    ensures KeysAfterSet(keys, f.id) == keys
    ensures Listed(KeysAfterSet(keys, f.id), entries[f.id := f]) == Listed(keys, entries)[i := f]
  {
  }

  /** Upserting a new id appends its record after all the others. */
  lemma UpsertNewAppends(keys: seq<string>, entries: map<string, Form>, f: Form)
    requires StoreInv(keys, entries) && f.id !in entries
    ensures StoreInv(KeysAfterSet(keys, f.id), entries[f.id := f])
    ensures Listed(KeysAfterSet(keys, f.id), entries[f.id := f]) == Listed(keys, entries) + [f]
  {
  }

  /** After upserting `f`, listing shows `f` and `getFormById(f.id)` finds it. */
  lemma UpsertedIsListed(keys: seq<string>, entries: map<string, Form>, f: Form)
    requires StoreInv(keys, entries)
    ensures StoreInv(KeysAfterSet(keys, f.id), entries[f.id := f])
    ensures f in Listed(KeysAfterSet(keys, f.id), entries[f.id := f])
  {
    var keys' := KeysAfterSet(keys, f.id);
    var i :| 0 <= i < |keys'| && keys'[i] == f.id;
    assert Listed(keys', entries[f.id := f])[i] == f;
  }

  /** Dropping one position of a distinct key sequence drops exactly that key. */
  lemma DistinctRemoveAt(keys: seq<string>, i: nat)
    requires Distinct(keys) && i < |keys|
    ensures Distinct(keys[..i] + keys[i + 1..])
    ensures forall k :: k in keys[..i] + keys[i + 1..] <==> k in keys && k != keys[i]
  {
    var rest := keys[..i] + keys[i + 1..];
    assert forall a :: 0 <= a < |rest| ==> rest[a] == if a < i then keys[a] else keys[a + 1];
    forall k | k in keys && k != keys[i]
      ensures k in rest
    {
      var a :| 0 <= a < |keys| && keys[a] == k;
      assert rest[if a < i then a else a - 1] == k;
    }
  }

  /** Deleting removes `id` from the key order and leaves the other keys in their relative order. */
  lemma DeleteKeepsOthers(keys: seq<string>, entries: map<string, Form>, id: string)
    requires StoreInv(keys, entries)
    ensures StoreInv(KeysAfterDelete(keys, id), entries - {id})
    ensures id !in entries ==> KeysAfterDelete(keys, id) == keys
    ensures forall i :: 0 <= i < |keys| && keys[i] == id ==>
              KeysAfterDelete(keys, id) == keys[..i] + keys[i + 1..]
  {
    if id in keys {
      var i :| 0 <= i < |keys| && keys[i] == id;
      FilterDropsOne(keys, KeyIsNot(id), i);
      DistinctRemoveAt(keys, i);
    } else {
      FilterAll(keys, KeyIsNot(id));
    }
  }

  /** Dropping one key position, and its key from the map, drops that position from the listing. */
  lemma ListedDropAt(keys: seq<string>, entries: map<string, Form>, i: nat)
    requires Distinct(keys) && i < |keys| && forall k :: k in keys ==> k in entries
    ensures forall k :: k in keys[..i] + keys[i + 1..] ==> k in entries - {keys[i]}
    ensures Listed(keys[..i] + keys[i + 1..], entries - {keys[i]}) ==
            Listed(keys, entries)[..i] + Listed(keys, entries)[i + 1..]
  {
    var rest := keys[..i] + keys[i + 1..];
    assert forall a :: 0 <= a < |rest| ==> rest[a] == if a < i then keys[a] else keys[a + 1];
    var listed := Listed(keys, entries);
    var dropped := listed[..i] + listed[i + 1..];
    assert forall a :: 0 <= a < |dropped| ==> dropped[a] == if a < i then listed[a] else listed[a + 1];
  }

  /** Deleting a stored form drops exactly its position from the listing. */
  lemma DeleteListedOrder(keys: seq<string>, entries: map<string, Form>, id: string, i: nat)
    requires StoreInv(keys, entries) && i < |keys| && keys[i] == id
    ensures Listed(KeysAfterDelete(keys, id), entries - {id}) ==
            Listed(keys, entries)[..i] + Listed(keys, entries)[i + 1..]
  {
    DeleteKeepsOthers(keys, entries, id);
    ListedDropAt(keys, entries, i);
  }

  /** The slug lookup fails exactly when no stored form has the slug. */
  lemma SlugLookupNone(keys: seq<string>, entries: map<string, Form>, slug: string)
    requires StoreInv(keys, entries)
    ensures FirstWithSlug(keys, entries, slug).None? <==> forall k :: k in entries ==> entries[k].slug != slug
  {
    var listed := Listed(keys, entries);
    if FirstWithSlug(keys, entries, slug).None? {
      forall k | k in entries
        ensures entries[k].slug != slug
      {
        var i :| 0 <= i < |keys| && keys[i] == k;
        assert listed[i] == entries[k];
      }
    }
  }

  /** A successful slug lookup yields the earliest stored form, in insertion order, with the slug. */
  lemma SlugLookupFirst(keys: seq<string>, entries: map<string, Form>, slug: string)
    requires StoreInv(keys, entries) && FirstWithSlug(keys, entries, slug).Some?
    ensures exists i :: 0 <= i < |keys| && entries[keys[i]] == FirstWithSlug(keys, entries, slug).value &&
                        entries[keys[i]].slug == slug &&
                        forall j :: 0 <= j < i ==> entries[keys[j]].slug != slug
  {
    var listed := Listed(keys, entries);
    var k := FirstIndex(listed, HasSlug(slug));
    assert FirstWithSlug(keys, entries, slug) == Some(listed[k]);
    assert forall j :: 0 <= j <= k ==> entries[keys[j]] == listed[j];
  }
}
