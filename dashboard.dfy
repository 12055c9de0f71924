/**
 * The form list of src/app/dashboard/page.tsx: the `filteredForms`
 * derivation from the search box and the status selector, and the badge
 * colour of a status. The search term and the status filter are the page's
 * two state cells, taken here as inputs.
 */
module Dashboard {
  import opened Seqs
  import opened Text

  datatype Status = Active | Draft | Archived

  /** The string a status is stored as, and the one the status selector compares with. */
  function StatusName(s: Status): string {
    match s
    case Active => "active"
    case Draft => "draft"
    case Archived => "archived"
  }

  /** The dashboard's `Form` record. */
  datatype DashboardForm = DashboardForm(id: string, title: string, description: string, responses: int,
                                         lastResponse: string, status: Status, createdAt: string)

  /** The selector value that lets every status through. */
  const AllStatuses: string := "all"

  /** `matchesSearch`: the lower-cased term occurs in the lower-cased title or the lower-cased description. */
  predicate MatchesSearch(f: DashboardForm, term: string) {
    Includes(ToLowerCase(f.title), ToLowerCase(term)) || Includes(ToLowerCase(f.description), ToLowerCase(term))
  }

  /** `matchesStatus` */
  predicate MatchesStatus(f: DashboardForm, filter: string) {
    filter == AllStatuses || StatusName(f.status) == filter
  }

  function Passes(term: string, filter: string): DashboardForm -> bool {
    (f: DashboardForm) => MatchesSearch(f, term) && MatchesStatus(f, filter)
  }

  /** `filteredForms`: the forms that pass both the search and the status filter, in their order. */
  function FilteredForms(forms: seq<DashboardForm>, term: string, filter: string): (r: seq<DashboardForm>)
    ensures forall i :: 0 <= i < |r| ==> r[i] in forms && MatchesSearch(r[i], term) && MatchesStatus(r[i], filter)
    ensures forall i :: 0 <= i < |forms| && MatchesSearch(forms[i], term) && MatchesStatus(forms[i], filter) ==>
              forms[i] in r
  {
    FilterMembers(forms, Passes(term, filter));
    Filter(forms, Passes(term, filter))
  }

  /** `getStatusColor`: the badge classes for a status string. */
  function GetStatusColor(status: string): (r: string)
    ensures status == "active" ==> r == "bg-green-100 text-green-800"
    ensures status == "draft" ==> r == "bg-yellow-100 text-yellow-800"
    ensures status != "active" && status != "draft" ==> r == "bg-gray-100 text-gray-800"
  {
    if status == "active" then "bg-green-100 text-green-800"
    else if status == "draft" then "bg-yellow-100 text-yellow-800"
    else if status == "archived" then "bg-gray-100 text-gray-800"
    else "bg-gray-100 text-gray-800"
  }

  // -----------------------------------------------------------------------
  // Properties of the filter and of the colours
  // -----------------------------------------------------------------------

  /** Filtering keeps the forms in their order, each as often as it occurs and passes. */
  lemma FilteredIsSubsequence(forms: seq<DashboardForm>, term: string, filter: string)
    ensures IsSubsequence(FilteredForms(forms, term, filter), forms)
    ensures forall f :: multiset(FilteredForms(forms, term, filter))[f] ==
              if MatchesSearch(f, term) && MatchesStatus(f, filter) then multiset(forms)[f] else 0
  {
    FilterIsSubsequence(forms, Passes(term, filter));
    forall f
      ensures multiset(FilteredForms(forms, term, filter))[f] ==
              if MatchesSearch(f, term) && MatchesStatus(f, filter) then multiset(forms)[f] else 0
    {
      FilterCount(forms, Passes(term, filter), f);
    }
  }

  /** A form matches the search exactly when the lower-cased term occurs at some position of its lower-cased title or description. */
  lemma SearchIff(f: DashboardForm, term: string)
    ensures MatchesSearch(f, term) <==>
              (exists i: nat :: OccursAt(ToLowerCase(f.title), ToLowerCase(term), i)) ||
              (exists i: nat :: OccursAt(ToLowerCase(f.description), ToLowerCase(term), i))
  {
    IncludesIff(ToLowerCase(f.title), ToLowerCase(term));
    IncludesIff(ToLowerCase(f.description), ToLowerCase(term));
  }

  /** Unless the filter is "all", every listed form has the selected status. */
  lemma FilteredStatus(forms: seq<DashboardForm>, term: string, filter: string)
    requires filter != AllStatuses
    ensures forall i :: 0 <= i < |FilteredForms(forms, term, filter)| ==>
              StatusName(FilteredForms(forms, term, filter)[i].status) == filter
  {
  }

  /** The page's initial state, an empty search and "all", lists every form. */
  lemma InitialListsAll(forms: seq<DashboardForm>)
    ensures FilteredForms(forms, "", AllStatuses) == forms
  {
    assert ToLowerCase("") == "";
    forall i | 0 <= i < |forms|
      ensures Passes("", AllStatuses)(forms[i])
    {
      IncludesEmpty(ToLowerCase(forms[i].title));
    }
    FilterAll(forms, Passes("", AllStatuses));
  }

  /** An empty search leaves the status filter alone in charge. */
  lemma EmptySearchByStatus(forms: seq<DashboardForm>, filter: string)
    ensures forall i :: 0 <= i < |forms| && MatchesStatus(forms[i], filter) ==> forms[i] in FilteredForms(forms, "", filter)
  {
    assert ToLowerCase("") == "";
    forall i | 0 <= i < |forms|
      ensures MatchesSearch(forms[i], "")
    {
      IncludesEmpty(ToLowerCase(forms[i].title));
    }
  }

  /** The search ignores letter case: two terms that lower-case alike select the same forms. */
  lemma SearchCaseInsensitive(forms: seq<DashboardForm>, term: string, other: string, filter: string)
    requires ToLowerCase(other) == ToLowerCase(term)
    ensures FilteredForms(forms, other, filter) == FilteredForms(forms, term, filter)
  {
    FilterExtensional(forms, Passes(other, filter), Passes(term, filter));
  }

  /** In particular the upper-cased term selects what the term does. */
  lemma UpperCaseSearch(forms: seq<DashboardForm>, term: string, filter: string)
    ensures FilteredForms(forms, ToUpperCase(term), filter) == FilteredForms(forms, term, filter)
  {
    LowerOfUpper(term);
    SearchCaseInsensitive(forms, term, ToUpperCase(term), filter);
  }

  /** Lower-casing the term first, as the filter does itself, changes nothing. */
  lemma LowerCaseSearch(forms: seq<DashboardForm>, term: string, filter: string)
    ensures FilteredForms(forms, ToLowerCase(term), filter) == FilteredForms(forms, term, filter)
  {
    LowerIdempotent(term);
    SearchCaseInsensitive(forms, term, ToLowerCase(term), filter);
  }

  /** A filter value that is neither "all" nor a status name lists nothing. */
  lemma UnknownFilterListsNothing(forms: seq<DashboardForm>, term: string, filter: string)
    requires filter != AllStatuses && filter != "active" && filter != "draft" && filter != "archived"
    ensures FilteredForms(forms, term, filter) == []
  {
    FilterNone(forms, Passes(term, filter));
  }

  /** Each status has its own colour except that "archived" shares the fallback of every unknown string. */
  lemma StatusColors(status: string)
    ensures GetStatusColor(StatusName(Active)) != GetStatusColor(StatusName(Draft))
    ensures GetStatusColor(StatusName(Active)) != GetStatusColor(StatusName(Archived))
    ensures GetStatusColor(StatusName(Draft)) != GetStatusColor(StatusName(Archived))
    ensures status != "active" && status != "draft" ==> GetStatusColor(status) == GetStatusColor(StatusName(Archived))
  {
  }
}
