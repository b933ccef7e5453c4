/**
 * The admin branch list: the search and country filters, the sort by a
 * chosen text field in either direction, the country choices, and the
 * create/edit dialog routing.
 */
module BranchesPage {
  import opened Common
  import opened Entities
  import opened BranchesApi
  import opened BranchForm

  // ---------------------------------------------------------------------
  // Filtering

  /** The search box: name, address or city includes the term, ignoring case. */
  predicate MatchesSearch(b: Branch, term: string)
  {
    ContainsIgnoringCase(b.name, term) || ContainsIgnoringCase(b.address, term) || ContainsIgnoringCase(b.city, term)
  }

  /** The country picker: nothing chosen, "all", or exactly the branch's country. */
  predicate MatchesCountry(b: Branch, countryFilter: string)
  {
    countryFilter == "" || countryFilter == "all" || b.country == countryFilter
  }

  function FilterBranches(branches: seq<Branch>, term: string, countryFilter: string): (r: seq<Branch>)
    ensures IsSubsequence(r, branches)
    ensures forall b :: b in r <==> b in branches && MatchesSearch(b, term) && MatchesCountry(b, countryFilter)
  {
    Filter(branches, b => MatchesSearch(b, term) && MatchesCountry(b, countryFilter))
  }

  /** An empty search term filters by country alone. */
  lemma EmptyTermFiltersByCountryOnly(branches: seq<Branch>, countryFilter: string)
    ensures forall b :: b in FilterBranches(branches, "", countryFilter) <==> b in branches && MatchesCountry(b, countryFilter)
  {
    forall b | b in branches
      ensures MatchesSearch(b, "")
    {
      assert Lower("") == "";
      ContainsEmpty(Lower(b.name));
    }
  }

  // ---------------------------------------------------------------------
  // Sorting

  /** JavaScript `<=` on strings: code unit by code unit, a prefix first. */
  predicate TextLe(a: string, b: string)
  {
    a == [] || (b != [] && (a[0] < b[0] || (a[0] == b[0] && TextLe(a[1..], b[1..]))))
  }

  lemma {:induction false} TextLeTotal(a: string, b: string)
    ensures TextLe(a, b) || TextLe(b, a)
  {
    if a != [] && b != [] && a[0] == b[0] {
      TextLeTotal(a[1..], b[1..]);
    }
  }

  lemma {:induction false} TextLeTransitive(a: string, b: string, c: string)
    requires TextLe(a, b) && TextLe(b, c)
    ensures TextLe(a, c)
  {
    if a != [] && b != [] && c != [] && a[0] == b[0] && b[0] == c[0] {
      TextLeTransitive(a[1..], b[1..], c[1..]);
    }
  }

  datatype SortKey = ByName | ByCity | ByCountry | ByAddress

  /** The lower-cased text a branch is compared by. */
  function KeyOf(b: Branch, sortBy: SortKey): string
  {
    match sortBy
    case ByName => Lower(b.name)
    case ByCity => Lower(b.city)
    case ByCountry => Lower(b.country)
    case ByAddress => Lower(b.address)
  }

  /** `x` may stand before `y`: its key is not after y's in the chosen direction. */
  predicate Precedes(x: Branch, y: Branch, sortBy: SortKey, ascending: bool)
  {
    if ascending then TextLe(KeyOf(x, sortBy), KeyOf(y, sortBy)) else TextLe(KeyOf(y, sortBy), KeyOf(x, sortBy))
  }

  lemma PrecedesTotal(x: Branch, y: Branch, sortBy: SortKey, ascending: bool)
    ensures Precedes(x, y, sortBy, ascending) || Precedes(y, x, sortBy, ascending)
  {
    TextLeTotal(KeyOf(x, sortBy), KeyOf(y, sortBy));
  }

  lemma PrecedesTransitive(x: Branch, y: Branch, z: Branch, sortBy: SortKey, ascending: bool)
    requires Precedes(x, y, sortBy, ascending) && Precedes(y, z, sortBy, ascending)
    ensures Precedes(x, z, sortBy, ascending)
  {
    if ascending {
      TextLeTransitive(KeyOf(x, sortBy), KeyOf(y, sortBy), KeyOf(z, sortBy));
    } else {
      TextLeTransitive(KeyOf(z, sortBy), KeyOf(y, sortBy), KeyOf(x, sortBy));
    }
  }

  predicate SortedBy(s: seq<Branch>, sortBy: SortKey, ascending: bool)
  {
    forall i, j :: 0 <= i < j < |s| ==> Precedes(s[i], s[j], sortBy, ascending)
  }

  /** Places `x` before the first element it may precede, so equal keys keep their order. */
  function Insert(x: Branch, s: seq<Branch>, sortBy: SortKey, ascending: bool): (r: seq<Branch>)
    ensures multiset(r) == multiset(s) + multiset{x}
  {
    if s == [] || Precedes(x, s[0], sortBy, ascending) then [x] + s
    else
      assert s == [s[0]] + s[1..];
      [s[0]] + Insert(x, s[1..], sortBy, ascending)
  }

  /** A sorted list stays sorted under a new head that may precede all of it. */
  lemma PrependSorted(x: Branch, s: seq<Branch>, sortBy: SortKey, ascending: bool)
    requires SortedBy(s, sortBy, ascending)
    requires forall y :: y in s ==> Precedes(x, y, sortBy, ascending)
    ensures SortedBy([x] + s, sortBy, ascending)
  {
    var t := [x] + s;
    forall i, j | 0 <= i < j < |t|
      ensures Precedes(t[i], t[j], sortBy, ascending)
    {
      assert t[j] == s[j - 1];
      if i > 0 {
        assert t[i] == s[i - 1];
      }
    }
  }

  lemma {:induction false} InsertSorted(x: Branch, s: seq<Branch>, sortBy: SortKey, ascending: bool)
    requires SortedBy(s, sortBy, ascending)
    ensures SortedBy(Insert(x, s, sortBy, ascending), sortBy, ascending)
  {
    if s == [] || Precedes(x, s[0], sortBy, ascending) {
      forall y | y in s
        ensures Precedes(x, y, sortBy, ascending)
      {
        var k :| 0 <= k < |s| && s[k] == y;
        if k > 0 {
          PrecedesTransitive(x, s[0], y, sortBy, ascending);
        }
      }
      PrependSorted(x, s, sortBy, ascending);
    } else {
      var tail := s[1..];
      assert SortedBy(tail, sortBy, ascending) by {
        forall i, j | 0 <= i < j < |tail|
          ensures Precedes(tail[i], tail[j], sortBy, ascending)
        {
          assert tail[i] == s[i + 1] && tail[j] == s[j + 1];
        }
      }
      InsertSorted(x, tail, sortBy, ascending);
      PrecedesTotal(x, s[0], sortBy, ascending);
      var rest := Insert(x, tail, sortBy, ascending);
      forall y | y in rest
        ensures Precedes(s[0], y, sortBy, ascending)
      {
        assert y in multiset(rest);
        if y != x {
          assert y in multiset(tail);
          var k :| 0 <= k < |tail| && tail[k] == y;
          assert s[k + 1] == y;
        }
      }
      PrependSorted(s[0], rest, sortBy, ascending);
    }
  }

  /** The comparator sort of the list page: ordered by the chosen key, and the same branches. */
  function SortBranches(s: seq<Branch>, sortBy: SortKey, ascending: bool): (r: seq<Branch>)
    ensures SortedBy(r, sortBy, ascending)
    ensures multiset(r) == multiset(s)
  {
    if s == [] then []
    else
      assert s == [s[0]] + s[1..];
      InsertSorted(s[0], SortBranches(s[1..], sortBy, ascending), sortBy, ascending);
      Insert(s[0], SortBranches(s[1..], sortBy, ascending), sortBy, ascending)
  }

  /** The rows shown: exactly the branches the filters keep, each once, in the chosen order. */
  function ShownBranches(branches: seq<Branch>, term: string, countryFilter: string, sortBy: SortKey, ascending: bool): (r: seq<Branch>)
    ensures SortedBy(r, sortBy, ascending)
    ensures multiset(r) == multiset(FilterBranches(branches, term, countryFilter))
    ensures forall b :: b in r <==> b in branches && MatchesSearch(b, term) && MatchesCountry(b, countryFilter)
  {
    var r := SortBranches(FilterBranches(branches, term, countryFilter), sortBy, ascending);
    assert forall b :: b in r <==> b in multiset(r);
    r
  }

  /** The country picker's choices: each country of the list, once, in the order the list first shows it. */
  function CountryChoices(branches: seq<Branch>): (r: seq<string>)
    ensures NoDuplicates(r)
    ensures forall c :: c in r <==> exists i :: 0 <= i < |branches| && branches[i].country == c
    ensures InFirstSeenOrder(r, Countries(branches))
  {
    var r := Unique(Countries(branches));
    assert forall c :: c in Countries(branches) <==> exists i :: 0 <= i < |branches| && branches[i].country == c by {
      forall c | c in Countries(branches)
        ensures exists i :: 0 <= i < |branches| && branches[i].country == c
      {
        var i :| 0 <= i < |Countries(branches)| && Countries(branches)[i] == c;
      }
    }
    r
  }

  // ---------------------------------------------------------------------
  // The page

  /** What the dialog's submit does: create a branch, or update the one being edited. */
  datatype SubmitAction = CreateBranch(data: BranchData) | UpdateBranch(branchId: string, data: BranchData)

  class Page {
    var searchTerm: string
    var countryFilter: string
    var sortBy: SortKey
    var ascending: bool
    var isFormOpen: bool
    var editingBranch: Option<Branch>

    constructor()
      ensures searchTerm == "" && countryFilter == "" && sortBy == ByName && ascending
      ensures !isFormOpen && editingBranch.None?
    {
      searchTerm := "";
      countryFilter := "";
      sortBy := ByName;
      ascending := true;
      isFormOpen := false;
      editingBranch := None;
    }

    function Shown(branches: seq<Branch>): (r: seq<Branch>)
      reads this
      ensures SortedBy(r, sortBy, ascending)
      ensures multiset(r) == multiset(FilterBranches(branches, searchTerm, countryFilter))
    {
      ShownBranches(branches, searchTerm, countryFilter, sortBy, ascending)
    }

    method ToggleSortOrder()
      modifies this
      ensures ascending == !old(ascending)
      ensures searchTerm == old(searchTerm) && countryFilter == old(countryFilter) && sortBy == old(sortBy)
      ensures isFormOpen == old(isFormOpen) && editingBranch == old(editingBranch)
    {
      ascending := !ascending;
    }

    /** "Add Branch": the dialog opens empty. */
    method OpenCreateForm()
      modifies this
      ensures isFormOpen && editingBranch.None?
      ensures searchTerm == old(searchTerm) && countryFilter == old(countryFilter)
      ensures sortBy == old(sortBy) && ascending == old(ascending)
    {
      editingBranch := None;
      isFormOpen := true;
    }

    method OpenEditForm(b: Branch)
      modifies this
      ensures isFormOpen && editingBranch == Some(b)
      ensures searchTerm == old(searchTerm) && countryFilter == old(countryFilter)
      ensures sortBy == old(sortBy) && ascending == old(ascending)
    {
      editingBranch := Some(b);
      isFormOpen := true;
    }

    method CloseForm()
      modifies this
      ensures !isFormOpen && editingBranch.None?
      ensures searchTerm == old(searchTerm) && countryFilter == old(countryFilter)
      ensures sortBy == old(sortBy) && ascending == old(ascending)
    {
      isFormOpen := false;
      editingBranch := None;
    }

    /** The dialog's submit routes to update exactly when a branch is being edited. */
    function SubmitFor(data: BranchData): (a: SubmitAction)
      reads this
      ensures a.UpdateBranch? <==> editingBranch.Some?
      ensures a.data == data
      ensures a.UpdateBranch? ==> a.branchId == editingBranch.value.id
    {
      if editingBranch.Some? then UpdateBranch(editingBranch.value.id, data) else CreateBranch(data)
    }

    /** A successful update forgets the edited branch; a failed one keeps it. */
    method UpdateSettled(succeeded: bool)
      modifies this
      ensures editingBranch == if succeeded then None else old(editingBranch)
      ensures isFormOpen == old(isFormOpen) && searchTerm == old(searchTerm) && countryFilter == old(countryFilter)
      ensures sortBy == old(sortBy) && ascending == old(ascending)
    {
      if succeeded {
        editingBranch := None;
      }
    }
  }
}
