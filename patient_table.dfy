/**
 * The patient table of the dashboard: the filter over the cohort (search,
 * sex, status and age), the risk badge of each row, the pagination of the
 * filtered list into pages of eight, and the Prev/Next buttons that step the
 * `page` state.
 */
module PatientTable {
  import opened JsBuiltins
  import opened Styles
  import opened MockData

  // ---------------------------------------------------------------------
  // Risk status and the row badge
  // ---------------------------------------------------------------------

  /** `hypoglycemia || hyperglycemia || bmi > 30`, with bmi in tenths. */
  predicate IsCritical(p: Patient)
    ensures IsCritical(p) <==> p.hypoglycemia || p.hyperglycemia || Tenths(p.bmi) > 30.0
  {
    p.hypoglycemia || p.hyperglycemia || p.bmi > 300
  }

  /** The "Risk Status" cell of a row. */
  function StatusBadge(p: Patient): (b: Badge)
    ensures b.text == "Need Attention" <==> IsCritical(p)
    ensures b.text == "Stable" <==> !IsCritical(p)
    ensures b.colour == Red <==> IsCritical(p)
    ensures b.colour == Emerald <==> !IsCritical(p)
  {
    if IsCritical(p) then Badge("Need Attention", Red) else Badge("Stable", Emerald)
  }

  // ---------------------------------------------------------------------
  // The filter
  // ---------------------------------------------------------------------

  /** The five filter inputs, each held as the text the control shows. */
  datatype Filters = Filters(search: string, sex: string, status: string, ageMin: string, ageMax: string)

  /** The inputs before the user touches them. */
  const DefaultFilters: Filters := Filters("", "All", "All", "", "")

  /** A case-insensitive substring match on the name or the id. */
  predicate MatchesSearch(p: Patient, search: string)
    ensures search == "" ==> MatchesSearch(p, search)
    ensures MatchesSearch(p, search) ==> |search| <= |p.name| || |search| <= |p.id|
  {
    assert search == "" ==> OccursAt(ToLower(p.name), ToLower(search), 0);
    Includes(ToLower(p.name), ToLower(search)) || Includes(ToLower(p.id), ToLower(search))
  }

  /** 'All', or the patient's own sex written as the select's option shows it. */
  predicate MatchesSex(p: Patient, sex: string)
    ensures MatchesSex(p, sex) <==>
      sex == "All" || (sex == "Male" && p.sex == Male) || (sex == "Female" && p.sex == Female)
  {
    sex == "All" || SexLabel(p.sex) == sex
  }

  /** A status other than 'All', 'Critical' and 'Stable' keeps nobody. */
  predicate MatchesStatus(p: Patient, status: string)
    ensures status != "All" && status != "Critical" && status != "Stable" ==> !MatchesStatus(p, status)
  {
    status == "All" || (status == "Critical" && IsCritical(p)) || (status == "Stable" && !IsCritical(p))
  }

  /**
   * `text ? parseInt(text) : blank`: an empty input stands for `blank`;
   * `None` is the NaN that `parseInt` gives for text without leading digits.
   */
  function AgeBound(text: string, blank: int): (r: Option<int>)
    ensures text == "" ==> r == Some(blank)
    ensures text != "" && (forall i :: 0 <= i < |text| ==> !IsDigit(text[i])) ==> r.None?
  {
    if text == "" then Some(blank)
    else
      ParseIntNoDigits(text);
      ParseInt(text)
  }

  /** `age >= min && age <= max`; every comparison with NaN is false. */
  predicate MatchesAge(p: Patient, ageMin: string, ageMax: string)
    ensures MatchesAge(p, ageMin, ageMax) ==> AgeBound(ageMin, 0).Some? && AgeBound(ageMax, 120).Some?
    ensures ageMin == "" ==> (MatchesAge(p, ageMin, ageMax) ==> p.age >= 0)
    ensures ageMax == "" ==> (MatchesAge(p, ageMin, ageMax) ==> p.age <= 120)
  {
    match (AgeBound(ageMin, 0), AgeBound(ageMax, 120))
    case (Some(lo), Some(hi)) => lo <= p.age <= hi
    case _ => false
  }

  /** All four filters at once; under the default inputs only the age range 0 to 120 is left. */
  predicate Matches(p: Patient, f: Filters)
    ensures f == DefaultFilters ==> (Matches(p, f) <==> 0 <= p.age <= 120)
  {
    MatchesSearch(p, f.search) && MatchesSex(p, f.sex) && MatchesStatus(p, f.status)
    && MatchesAge(p, f.ageMin, f.ageMax)
  }

  /** `patients.filter(p => Matches(p, f))`. */
  function FilterPatients(patients: seq<Patient>, f: Filters): (r: seq<Patient>)
    ensures |r| <= |patients|
    ensures forall k :: 0 <= k < |r| ==> Matches(r[k], f) && r[k] in patients
    ensures forall k :: 0 <= k < |patients| && Matches(patients[k], f) ==> patients[k] in r
    decreases |patients|
  {
    if patients == [] then []
    else
      var rest := FilterPatients(patients[1..], f);
      assert forall k :: 1 <= k < |patients| ==> patients[k] == patients[1..][k - 1];
      if Matches(patients[0], f) then [patients[0]] + rest else rest
  }

  /** `xs` is `ys` with some elements left out, the others kept in order. */
  ghost predicate IsSubsequence<T>(xs: seq<T>, ys: seq<T>)
    decreases |ys|
  {
    if xs == [] then true
    else if ys == [] then false
    else if xs[0] == ys[0] then IsSubsequence(xs[1..], ys[1..])
    else IsSubsequence(xs, ys[1..])
  }

  /** The filter keeps the cohort's order. */
  lemma {:induction false} FilterIsSubsequence(patients: seq<Patient>, f: Filters)
    ensures IsSubsequence(FilterPatients(patients, f), patients)
    decreases |patients|
  {
    if patients != [] {
      FilterIsSubsequence(patients[1..], f);
      var rest := FilterPatients(patients[1..], f);
      if Matches(patients[0], f) {
        assert ([patients[0]] + rest)[1..] == rest;
      } else {
        SubsequenceSkip(rest, patients);
      }
    }
  }

  /** Skipping the first element of `ys` keeps a subsequence of its tail a subsequence. */
  lemma {:induction false} SubsequenceSkip<T>(xs: seq<T>, ys: seq<T>)
    requires ys != [] && IsSubsequence(xs, ys[1..])
    ensures IsSubsequence(xs, ys)
    decreases |ys|, 0
  {
    if xs != [] && xs[0] == ys[0] {
      assert IsSubsequence(xs[1..], ys[1..]) by {
        SubsequenceTail(xs, ys[1..]);
      }
    }
  }

  /** Dropping the first element of a subsequence keeps a subsequence. */
  lemma {:induction false} SubsequenceTail<T>(xs: seq<T>, ys: seq<T>)
    requires xs != [] && IsSubsequence(xs, ys)
    ensures IsSubsequence(xs[1..], ys)
    decreases |ys|, 1
  {
    if xs[0] != ys[0] {
      SubsequenceTail(xs, ys[1..]);
      SubsequenceSkip(xs[1..], ys);
    } else if xs[1..] != [] {
      SubsequenceSkip(xs[1..], ys);
    }
  }

  /** When every patient matches, the filter keeps the whole cohort. */
  lemma {:induction false} FilterKeepsAll(patients: seq<Patient>, f: Filters)
    requires forall k :: 0 <= k < |patients| ==> Matches(patients[k], f)
    ensures FilterPatients(patients, f) == patients
    decreases |patients|
  {
    if patients != [] {
      assert forall k :: 0 <= k < |patients[1..]| ==> patients[1..][k] == patients[k + 1];
      FilterKeepsAll(patients[1..], f);
      assert [patients[0]] + patients[1..] == patients;
    }
  }

  /** The empty search matches every patient. */
  lemma EmptySearchMatchesAll(p: Patient)
    ensures MatchesSearch(p, "")
  {
    assert OccursAt(ToLower(p.name), ToLower(""), 0);
  }

  /** Searching for a patient's own id, in any letter case, finds the patient. */
  lemma SearchFindsId(p: Patient, search: string)
    requires ToLower(search) == ToLower(p.id)
    ensures MatchesSearch(p, search)
  {
    assert ToLower(p.id)[0..|ToLower(p.id)|] == ToLower(p.id);
    assert OccursAt(ToLower(p.id), ToLower(search), 0);
  }

  /** The search ignores letter case in the query. */
  lemma SearchIgnoresCase(p: Patient, search: string)
    ensures MatchesSearch(p, ToLower(search)) == MatchesSearch(p, search)
  {
    ToLowerIdempotent(search);
  }

  /** 'Critical' and 'Stable' split the patients; 'All' keeps them all. */
  lemma StatusPartition(p: Patient)
    ensures MatchesStatus(p, "All")
    ensures MatchesStatus(p, "Critical") != MatchesStatus(p, "Stable")
    ensures MatchesStatus(p, "Critical") == IsCritical(p)
  {
  }

  /** The row badge reads "Stable" exactly on the patients the 'Stable' filter keeps. */
  lemma BadgeAgreesWithStatusFilter(p: Patient)
    ensures StatusBadge(p).text == "Stable" <==> MatchesStatus(p, "Stable")
    ensures StatusBadge(p).text == "Need Attention" <==> MatchesStatus(p, "Critical")
  {
  }

  /**
   * With the other filters fixed, the 'Critical' and the 'Stable' lists
   * together are as long as the 'All' list.
   */
  lemma {:induction false} StatusSplitsCount(patients: seq<Patient>, f: Filters)
    ensures |FilterPatients(patients, f.(status := "Critical"))| + |FilterPatients(patients, f.(status := "Stable"))|
         == |FilterPatients(patients, f.(status := "All"))|
    decreases |patients|
  {
    if patients != [] {
      StatusSplitsCount(patients[1..], f);
      StatusPartition(patients[0]);
    }
  }

  /** Age bounds written as plain numbers are inclusive. */
  lemma AgeBoundsInclusive(p: Patient, lo: nat, hi: nat)
    ensures MatchesAge(p, Decimal(lo), Decimal(hi)) <==> lo <= p.age <= hi
  {
    ParseIntDecimal(lo, []);
    ParseIntDecimal(hi, []);
    assert Decimal(lo) + [] == Decimal(lo) && Decimal(hi) + [] == Decimal(hi);
  }

  /** A blank minimum means 0 and a blank maximum means 120. */
  lemma BlankAgeBounds(p: Patient)
    ensures MatchesAge(p, "", "") <==> 0 <= p.age <= 120
  {
  }

  /** A bound that `parseInt` reads as NaN excludes every patient. */
  lemma NonNumericAgeBoundExcludes(p: Patient, bound: string, other: string)
    requires bound != [] && ParseInt(bound).None?
    ensures !MatchesAge(p, bound, other) && !MatchesAge(p, other, bound)
  {
  }

  /** The default inputs keep everyone aged 0 to 120. */
  lemma DefaultFiltersMatch(p: Patient)
    requires 0 <= p.age <= 120
    ensures Matches(p, DefaultFilters)
  {
    EmptySearchMatchesAll(p);
  }

  /** The default inputs keep every cohort the generator can produce. */
  lemma DefaultFiltersKeepPlausible(patients: seq<Patient>)
    requires forall k :: 0 <= k < |patients| ==> Plausible(patients[k])
    ensures FilterPatients(patients, DefaultFilters) == patients
  {
    forall k | 0 <= k < |patients|
      ensures Matches(patients[k], DefaultFilters)
    {
      DefaultFiltersMatch(patients[k]);
    }
    FilterKeepsAll(patients, DefaultFilters);
  }

  /** Before any input, the table lists all 25 of MOCK_PATIENTS. */
  lemma DefaultFiltersKeepMockPatients()
    ensures FilterPatients(MockPatients(), DefaultFilters) == MockPatients()
    ensures |FilterPatients(MockPatients(), DefaultFilters)| == 25
  {
    MockPatientsShape();
    DefaultFiltersKeepPlausible(MockPatients());
  }

  // ---------------------------------------------------------------------
  // Pagination
  // ---------------------------------------------------------------------

  const ItemsPerPage: nat := 8

  /** `Math.ceil(n / itemsPerPage)`. */
  function TotalPages(n: nat): (r: nat)
    ensures r * ItemsPerPage >= n
    ensures (r - 1) * ItemsPerPage < n
  {
    (n + ItemsPerPage - 1) / ItemsPerPage
  }

  /** `list.slice((page - 1) * itemsPerPage, page * itemsPerPage)`. */
  function PageOf<T>(list: seq<T>, page: int): (r: seq<T>)
    ensures page >= 1 ==> |r| <= ItemsPerPage
    ensures page >= 1 ==>
      r == list[Min((page - 1) * ItemsPerPage, |list|)..Min(page * ItemsPerPage, |list|)]
    ensures page == 0 ==> r == []
  {
    Slice(list, (page - 1) * ItemsPerPage, page * ItemsPerPage)
  }

  /** Entry `j` of the list is entry `j % 8` of page `j / 8 + 1`, a page that exists. */
  lemma EveryEntryOnItsPage<T>(list: seq<T>, j: nat)
    requires j < |list|
    ensures 1 <= j / ItemsPerPage + 1 <= TotalPages(|list|)
    ensures j % ItemsPerPage < |PageOf(list, j / ItemsPerPage + 1)|
    ensures PageOf(list, j / ItemsPerPage + 1)[j % ItemsPerPage] == list[j]
  {
    var page := j / ItemsPerPage + 1;
    var r := TotalPages(|list|);
    assert (page - 1) * ItemsPerPage + j % ItemsPerPage == j;
  }

  /** A page from 1 on holds entries exactly when it is at most `totalPages`. */
  lemma PageNonEmptyIff<T>(list: seq<T>, page: int)
    requires page >= 1
    ensures PageOf(list, page) != [] <==> page <= TotalPages(|list|)
  {
    var r := TotalPages(|list|);
    if page <= r {
      assert (page - 1) * ItemsPerPage <= (r - 1) * ItemsPerPage;
    } else {
      assert (page - 1) * ItemsPerPage >= r * ItemsPerPage;
    }
  }

  /** The first row number of "Showing a to b of n". */
  function ShownFrom(page: int): (r: int)
    ensures page >= 1 ==> 1 <= r && (r - 1) % ItemsPerPage == 0
  {
    (page - 1) * ItemsPerPage + 1
  }

  /** The last row number of "Showing a to b of n". */
  function ShownTo(page: int, n: nat): (r: int)
    ensures r <= n && r <= page * ItemsPerPage
    ensures r == n || r == page * ItemsPerPage
  {
    Min(page * ItemsPerPage, n)
  }

  /** On an existing page the "Showing" numbers count exactly the rows shown. */
  lemma ShowingCountsThePage<T>(list: seq<T>, page: int)
    requires 1 <= page <= TotalPages(|list|)
    ensures 1 <= ShownFrom(page) <= ShownTo(page, |list|)
    ensures ShownTo(page, |list|) - ShownFrom(page) + 1 == |PageOf(list, page)|
  {
    PageNonEmptyIff(list, page);
  }

  // ---------------------------------------------------------------------
  // The Prev and Next buttons
  // ---------------------------------------------------------------------

  /** `disabled={page === 1}`: exactly where a click would leave page 1 where it is. */
  predicate PrevDisabled(page: int)
    ensures PrevDisabled(page) ==> PrevPage(page) == page
    ensures page >= 1 && PrevPage(page) == page ==> PrevDisabled(page)
  {
    page == 1
  }

  /** `disabled={page === totalPages}`: on the last page, where a click would change nothing anyway. */
  predicate NextDisabled(page: int, totalPages: nat)
    ensures NextDisabled(page, totalPages) ==> NextPageAsWritten(page, totalPages) == page
    ensures page <= totalPages && NextPageAsWritten(page, totalPages) == page ==> NextDisabled(page, totalPages)
  {
    page == totalPages
  }

  /** `p => Math.max(1, p - 1)`. */
  function PrevPage(p: int): (r: int)
    ensures r >= 1
    ensures p > 1 ==> r == p - 1
    ensures p <= 1 ==> r == 1
  {
    Max(1, p - 1)
  }

  /** `p => Math.min(totalPages, p + 1)`, as written. */
  function NextPageAsWritten(p: int, totalPages: nat): (r: int)
    ensures r <= totalPages
    ensures p + 1 <= totalPages ==> r == p + 1
    ensures p + 1 > totalPages ==> r == totalPages
  {
    Min(totalPages, p + 1)
  }

  /**
   * As written, Next is enabled on page 1 of an empty list (totalPages is 0)
   * and moves to page 0, where the slice `(-8, 0)` is empty for every list and
   * the footer reads "Showing -7 to 0":
   * the table stays empty after the filters widen, until Prev, or Next once
   * the list is non-empty, is pressed (see NextFromPageZeroRecovers).
   */
  lemma NextOnEmptyListReachesPageZero<T>(list: seq<T>)
    ensures !NextDisabled(1, TotalPages(0))
    ensures NextPageAsWritten(1, TotalPages(0)) == 0
    ensures PageOf(list, NextPageAsWritten(1, TotalPages(0))) == []
    ensures ShownFrom(NextPageAsWritten(1, TotalPages(0))) == -7
    ensures ShownTo(NextPageAsWritten(1, TotalPages(0)), 0) == 0
  {
  }

  /** From page 0 on a non-empty list both buttons are enabled and lead back to page 1. */
  lemma NextFromPageZeroRecovers(totalPages: nat)
    requires totalPages >= 1
    ensures !NextDisabled(0, totalPages) && NextPageAsWritten(0, totalPages) == 1
    ensures !PrevDisabled(0) && PrevPage(0) == 1
  {
  }

  /** Next, never leaving the pages 1 to `max(totalPages, 1)`. */
  function NextPage(p: int, totalPages: nat): (r: int)
    ensures 1 <= r <= Max(totalPages, 1)
    ensures 0 <= p && p + 1 <= totalPages ==> r == p + 1
    ensures 1 <= totalPages <= p ==> r == totalPages
  {
    Max(1, Min(totalPages, p + 1))
  }

  /** The corrected Next differs from the written one only when there are no pages. */
  lemma NextPageAgreesWhenPagesExist(p: int, totalPages: nat)
    requires p >= 1 && totalPages >= 1
    ensures NextPage(p, totalPages) == NextPageAsWritten(p, totalPages)
  {
  }

  /** Prev and Next keep a page in 1..totalPages there. */
  lemma SteppingStaysInRange(p: int, totalPages: nat)
    requires 1 <= p <= totalPages
    ensures 1 <= PrevPage(p) <= p
    ensures p <= NextPage(p, totalPages) <= totalPages
  {
  }

  // ---------------------------------------------------------------------
  // The component's state
  // ---------------------------------------------------------------------

  /**
   * The table's `useState` fields over the cohort it lists. The modal
   * selection is not part of this model.
   */
  class TableState {
    const patients: seq<Patient>
    var search: string
    var filterSex: string
    var filterStatus: string
    var filterAgeMin: string
    var filterAgeMax: string
    var page: int

    ghost predicate Valid()
      reads this
    {
      page >= 1
    }

    constructor (patients: seq<Patient>)
      ensures Valid()
      ensures this.patients == patients
      ensures CurrentFilters() == DefaultFilters && page == 1
      ensures Filtered() == FilterPatients(patients, DefaultFilters)
    {
      this.patients := patients;
      search := "";
      filterSex := "All";
      filterStatus := "All";
      filterAgeMin := "";
      filterAgeMax := "";
      page := 1;
    }

    function CurrentFilters(): Filters
      reads this
    {
      Filters(search, filterSex, filterStatus, filterAgeMin, filterAgeMax)
    }

    /** `filteredPatients`. */
    function Filtered(): (r: seq<Patient>)
      reads this
      ensures |r| <= |patients|
      ensures forall k :: 0 <= k < |r| ==> Matches(r[k], CurrentFilters()) && r[k] in patients
      ensures forall p :: p in patients && Matches(p, CurrentFilters()) ==> p in r
    {
      FilterPatients(patients, CurrentFilters())
    }

    /** `totalPages`. */
    function TotalPageCount(): (r: nat)
      reads this
      ensures r * ItemsPerPage >= |Filtered()| && (r - 1) * ItemsPerPage < |Filtered()|
    {
      TotalPages(|Filtered()|)
    }

    /** `paginatedPatients`. */
    function Paginated(): (r: seq<Patient>)
      reads this
      ensures page >= 1 ==> |r| <= ItemsPerPage
      ensures forall k :: 0 <= k < |r| ==> r[k] in Filtered()
    {
      var f := Filtered();
      var r := PageOf(f, page);
      assert page >= 1 ==> forall k :: 0 <= k < |r| ==> r[k] == f[Min((page - 1) * ItemsPerPage, |f|) + k];
      r
    }

    /** Typing in the search box; the page is left where it was. */
    method SetSearch(text: string)
      requires Valid()
      modifies this
      ensures Valid()
      ensures CurrentFilters() == old(CurrentFilters()).(search := text)
      ensures page == old(page)
    {
      search := text;
    }

    method SetFilterSex(value: string)
      requires Valid()
      modifies this
      ensures Valid()
      ensures CurrentFilters() == old(CurrentFilters()).(sex := value)
      ensures page == old(page)
    {
      filterSex := value;
    }

    method SetFilterStatus(value: string)
      requires Valid()
      modifies this
      ensures Valid()
      ensures CurrentFilters() == old(CurrentFilters()).(status := value)
      ensures page == old(page)
    {
      filterStatus := value;
    }

    method SetFilterAgeMin(text: string)
      requires Valid()
      modifies this
      ensures Valid()
      ensures CurrentFilters() == old(CurrentFilters()).(ageMin := text)
      ensures page == old(page)
    {
      filterAgeMin := text;
    }

    method SetFilterAgeMax(text: string)
      requires Valid()
      modifies this
      ensures Valid()
      ensures CurrentFilters() == old(CurrentFilters()).(ageMax := text)
      ensures page == old(page)
    {
      filterAgeMax := text;
    }

    /** A click on Prev: nothing when disabled, else one page back but never below 1. */
    method ClickPrev()
      requires Valid()
      modifies this
      ensures Valid()
      ensures CurrentFilters() == old(CurrentFilters())
      ensures page == (if PrevDisabled(old(page)) then old(page) else PrevPage(old(page)))
      ensures page <= old(page)
    {
      if !PrevDisabled(page) {
        page := PrevPage(page);
      }
    }

    /** A click on Next: nothing when disabled, else one page on but never past the last. */
    method ClickNext()
      requires Valid()
      modifies this
      ensures Valid()
      ensures CurrentFilters() == old(CurrentFilters())
      ensures page == (if NextDisabled(old(page), old(TotalPageCount())) then old(page)
                       else NextPage(old(page), old(TotalPageCount())))
      ensures page == old(page) || page <= Max(TotalPageCount(), 1)
    {
      var total := TotalPageCount();
      if !NextDisabled(page, total) {
        page := NextPage(page, total);
      }
    }
  }

  /** The dashboard's first render: all 25 mock patients pass the filter, the first 8 are shown. */
  method OpenDashboard() returns (t: TableState)
    ensures fresh(t) && t.Valid()
    ensures t.patients == MockPatients() && t.CurrentFilters() == DefaultFilters
    ensures t.Filtered() == MockPatients() && t.TotalPageCount() == 4
    ensures t.Paginated() == MockPatients()[..ItemsPerPage]
  {
    var cohort := MockPatients();
    DefaultFiltersKeepMockPatients();
    FirstPageOfTwentyFive(cohort);
    t := new TableState(cohort);
  }

  /** Twenty-five rows make four pages, the first holding the first eight. */
  lemma FirstPageOfTwentyFive<T>(list: seq<T>)
    requires |list| == 25
    ensures TotalPages(|list|) == 4
    ensures PageOf(list, 1) == list[..ItemsPerPage]
  {
  }
}
