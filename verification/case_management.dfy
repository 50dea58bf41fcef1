/** The case-management page: the sidebar filter and search over the case
    list, the per-priority counts, and "New Case", which prepends a case
    with a freshly minted CTV number. */
module CaseManagement {
  import opened Text
  import opened Seqs
  import opened Optional
  import opened CaseNumbers

  /** A case as the page holds it (ids are strings here). */
  datatype CaseRow = CaseRow(
    id: string,
    caseNumber: string,
    title: string,
    category: string,
    priority: string,
    status: string,
    nextHearing: Option<string>,
    filedDate: string,
    plaintiff: string,
    defendant: string)

  /** The sidebar test, written as the page writes it: each named filter
      rejects the cases that lack its priority or status. */
  predicate SidebarKeeps(sidebarFilter: string, c: CaseRow)
  {
    !(sidebarFilter == "high" && c.priority != "High")
    && !(sidebarFilter == "medium" && c.priority != "Medium")
    && !(sidebarFilter == "low" && c.priority != "Low")
    && !(sidebarFilter == "workable" && c.status != "In Progress")
    && !(sidebarFilter == "archived" && c.status != "Adjourned")
  }

  /** The search test: an empty query keeps everything, otherwise the title
      or the case number must contain the query, ignoring case. */
  predicate SearchKeeps(query: string, c: CaseRow)
  {
    query == "" || ContainsIgnoreCase(c.title, query) || ContainsIgnoreCase(c.caseNumber, query)
  }

  function SidebarTest(sidebarFilter: string): CaseRow -> bool
  {
    (c: CaseRow) => SidebarKeeps(sidebarFilter, c)
  }

  function SearchTest(query: string): CaseRow -> bool
  {
    (c: CaseRow) => SearchKeeps(query, c)
  }

  function BothTests(sidebarFilter: string, query: string): CaseRow -> bool
  {
    (c: CaseRow) => SidebarKeeps(sidebarFilter, c) && SearchKeeps(query, c)
  }

  /** `filteredCases`: the cases both tests keep, in list order. */
  function FilteredCases(cases: seq<CaseRow>, sidebarFilter: string, query: string): (r: seq<CaseRow>)
    ensures forall k :: 0 <= k < |r| ==>
      r[k] in cases && SidebarKeeps(sidebarFilter, r[k]) && SearchKeeps(query, r[k])
    ensures forall k ::
      0 <= k < |cases| && SidebarKeeps(sidebarFilter, cases[k]) && SearchKeeps(query, cases[k])
      ==> cases[k] in r
  {
    FilterComplete(cases, BothTests(sidebarFilter, query));
    Filter(cases, BothTests(sidebarFilter, query))
  }

  /** The sidebar rules as a table: "high", "medium" and "low" keep exactly
      that priority, "workable" keeps "In Progress", "archived" keeps
      "Adjourned", and any other value keeps every case. */
  lemma SidebarRules(sidebarFilter: string, c: CaseRow)
    ensures sidebarFilter == "high" ==> (SidebarKeeps(sidebarFilter, c) <==> c.priority == "High")
    ensures sidebarFilter == "medium" ==> (SidebarKeeps(sidebarFilter, c) <==> c.priority == "Medium")
    ensures sidebarFilter == "low" ==> (SidebarKeeps(sidebarFilter, c) <==> c.priority == "Low")
    ensures sidebarFilter == "workable" ==> (SidebarKeeps(sidebarFilter, c) <==> c.status == "In Progress")
    ensures sidebarFilter == "archived" ==> (SidebarKeeps(sidebarFilter, c) <==> c.status == "Adjourned")
    ensures sidebarFilter !in {"high", "medium", "low", "workable", "archived"}
            ==> SidebarKeeps(sidebarFilter, c)
  {
  }

  /** The search looks at the title and the case number only: the parties
      and every other field play no part. */
  lemma SearchIgnoresOtherFields(query: string, c: CaseRow, d: CaseRow)
    requires c.title == d.title && c.caseNumber == d.caseNumber
    ensures SearchKeeps(query, c) == SearchKeeps(query, d)
  {
  }

  /** The filtered list keeps the order of the case list. */
  lemma FilteredCasesIsSubsequence(cases: seq<CaseRow>, sidebarFilter: string, query: string)
    ensures IsSubsequence(FilteredCases(cases, sidebarFilter, query), cases)
  {
    FilterIsSubsequence(cases, BothTests(sidebarFilter, query));
  }

  /** With "all" and an empty query the page shows the whole list. */
  lemma FilteredCasesShowsAll(cases: seq<CaseRow>)
    ensures FilteredCases(cases, "all", "") == cases
  {
    FilterKeepsAll(cases, BothTests("all", ""));
  }

  /** The two tests are ANDed: filtering by both equals filtering by either
      one and then the other. */
  lemma FilteredCasesComposes(cases: seq<CaseRow>, sidebarFilter: string, query: string)
    ensures FilteredCases(cases, sidebarFilter, query)
            == Filter(Filter(cases, SidebarTest(sidebarFilter)), SearchTest(query))
    ensures FilteredCases(cases, sidebarFilter, query)
            == Filter(Filter(cases, SearchTest(query)), SidebarTest(sidebarFilter))
  {
    FilterFilter(cases, SidebarTest(sidebarFilter), SearchTest(query), BothTests(sidebarFilter, query));
    FilterFilter(cases, SearchTest(query), SidebarTest(sidebarFilter), BothTests(sidebarFilter, query));
  }

  function HasPriority(priority: string): CaseRow -> bool
  {
    (c: CaseRow) => c.priority == priority
  }

  /** `cases.filter(c => c.priority === priority).length`. */
  function PriorityCount(cases: seq<CaseRow>, priority: string): (n: nat)
    ensures n <= |cases|
  {
    |Filter(cases, HasPriority(priority))|
  }

  /** Each sidebar count is the length of the list the matching sidebar
      filter shows when the search box is empty. */
  lemma PriorityCountMatchesSidebar(cases: seq<CaseRow>)
    ensures PriorityCount(cases, "High") == |FilteredCases(cases, "high", "")|
    ensures PriorityCount(cases, "Medium") == |FilteredCases(cases, "medium", "")|
    ensures PriorityCount(cases, "Low") == |FilteredCases(cases, "low", "")|
  {
    FilterCongruent(cases, HasPriority("High"), BothTests("high", ""));
    FilterCongruent(cases, HasPriority("Medium"), BothTests("medium", ""));
    FilterCongruent(cases, HasPriority("Low"), BothTests("low", ""));
  }

  /** When every case has one of the three priorities, the three counts add
      up to the number of cases; otherwise they fall short of it. */
  lemma {:induction false} PriorityCountsPartition(cases: seq<CaseRow>)
    ensures PriorityCount(cases, "High") + PriorityCount(cases, "Medium")
            + PriorityCount(cases, "Low") <= |cases|
    ensures (forall k :: 0 <= k < |cases| ==> cases[k].priority in {"High", "Medium", "Low"})
            ==> PriorityCount(cases, "High") + PriorityCount(cases, "Medium")
                + PriorityCount(cases, "Low") == |cases|
    decreases |cases|
  {
    if cases != [] {
      PriorityCountsPartition(cases[1..]);
    }
  }

  /** The case "New Case" adds: category CMI, a CTV number, priority
      Medium, status Pending, no next hearing, id = old length + 1. */
  function NewCaseRow(count: nat, year: nat, today: string, r: nat): (c: CaseRow)
    requires r < 900000
    ensures |c.caseNumber| > 4 && c.caseNumber[..3] == "CTV" && c.caseNumber[3] == '/'
    ensures c.category == "CMI" && c.priority == "Medium" && c.status == "Pending"
    ensures c.filedDate == today && c.nextHearing.None?
  {
    CaseRow(NatToDecimal(count + 1), Mint("CMI", year, r), "New Case", "CMI",
            "Medium", "Pending", None, today, "New Plaintiff", "New Defendant")
  }

  /** The new case's number is CTV/<year>/<six digits> with the digits in
      [100000, 999999], and its id reads back as the old length + 1. */
  lemma NewCaseRowFormat(count: nat, year: nat, today: string, r: nat)
    requires r < 900000
    ensures var c := NewCaseRow(count, year, today, r);
      var parts := Split(c.caseNumber, '/');
      |parts| == 3 && parts[0] == "CTV" && parts[1] == NatToDecimal(year)
      && |parts[2]| == 6 && AllDigits(parts[2])
      && 100000 <= DecimalValue(parts[2]) <= 999999
      && DecimalValue(c.id) == count + 1
  {
    MintFormat("CMI", year, r);
    DecimalRoundTrip(count + 1);
  }

  /** Adding the new case raises the Medium count by one and leaves the
      other counts as they were. */
  lemma NewCaseCounts(cases: seq<CaseRow>, year: nat, today: string, r: nat)
    requires r < 900000
    ensures var after := [NewCaseRow(|cases|, year, today, r)] + cases;
      PriorityCount(after, "Medium") == PriorityCount(cases, "Medium") + 1
      && PriorityCount(after, "High") == PriorityCount(cases, "High")
      && PriorityCount(after, "Low") == PriorityCount(cases, "Low")
  {
    var c := NewCaseRow(|cases|, year, today, r);
    FilterAppend([c], cases, HasPriority("Medium"));
    FilterAppend([c], cases, HasPriority("High"));
    FilterAppend([c], cases, HasPriority("Low"));
  }

  class CaseManagementPage {
    var cases: seq<CaseRow>
    var searchQuery: string
    var sidebarFilter: string
    var isNewCaseModalOpen: bool

    constructor (initialCases: seq<CaseRow>)
      ensures cases == initialCases
      ensures searchQuery == "" && sidebarFilter == "all" && !isNewCaseModalOpen
    {
      cases := initialCases;
      searchQuery := "";
      sidebarFilter := "all";
      isNewCaseModalOpen := false;
    }

    /** The search box. */
    method SetSearchQuery(query: string)
      modifies this`searchQuery
      ensures searchQuery == query
    {
      searchQuery := query;
    }

    /** A sidebar entry: "all", "high", "medium", "low", "workable" or
        "archived". */
    method SetSidebarFilter(choice: string)
      modifies this`sidebarFilter
      ensures sidebarFilter == choice
    {
      sidebarFilter := choice;
    }

    /** The "New Case" button and the modal's cancel button. */
    method SetNewCaseModal(open: bool)
      modifies this`isNewCaseModalOpen
      ensures isNewCaseModalOpen == open
    {
      isNewCaseModalOpen := open;
    }

    /** The empty-result button: clear the search and show all cases, so
        every case is on show again. */
    method ClearSearchAndFilter()
      modifies this`searchQuery, this`sidebarFilter
      ensures searchQuery == "" && sidebarFilter == "all"
      ensures FilteredCases(cases, sidebarFilter, searchQuery) == cases
    {
      searchQuery := "";
      sidebarFilter := "all";
      FilteredCasesShowsAll(cases);
    }

    /** `handleCreateNewCase`: put the new case first and close the modal. */
    method CreateNewCase(year: nat, today: string, r: nat)
      requires r < 900000
      modifies this
      ensures cases == [NewCaseRow(|old(cases)|, year, today, r)] + old(cases)
      ensures |cases| == |old(cases)| + 1 && cases[1..] == old(cases)
      ensures !isNewCaseModalOpen
      ensures searchQuery == old(searchQuery) && sidebarFilter == old(sidebarFilter)
    {
      var c := NewCaseRow(|cases|, year, today, r);
      cases := [c] + cases;
      isNewCaseModalOpen := false;
    }
  }
}
