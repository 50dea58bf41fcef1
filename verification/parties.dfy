/** The party directory: search and filters over the parties, adding a
    party, deleting one after a confirmation, resetting the filters, the
    per-type counts and the CSV export of the filtered list. The answer to
    the confirmation dialog is an input. */
module Parties {
  import opened Text
  import opened Seqs

  datatype Party = Party(
    id: nat,
    name: string,
    partyType: string,
    cases: nat,
    role: string,
    email: string,
    phone: string,
    status: string,
    avatarColor: string,
    caseNumbers: seq<string>)

  /** The add-party form. */
  datatype PartyForm = PartyForm(name: string, partyType: string, email: string, phone: string, role: string)

  /** The three selects; "all" is the wildcard. */
  datatype PartyFilters = PartyFilters(partyType: string, status: string, role: string)

  /** The select a filter change comes from. */
  datatype FilterSelect = TypeSelect | StatusSelect | RoleSelect

  /** The add-party inputs. */
  datatype PartyFormField = NameInput | TypeInput | RoleInput | EmailInput | PhoneInput

  const BlankPartyForm := PartyForm("", "Individual", "", "", "Petitioner")

  const AllFilters := PartyFilters("all", "all", "all")

  function SelectValue(f: PartyFilters, select: FilterSelect): string
  {
    match select
    case TypeSelect => f.partyType
    case StatusSelect => f.status
    case RoleSelect => f.role
  }

  /** `setFilters({...filters, [key]: value})`: the named select takes the
      value and the other two stay. */
  function WithPartyFilter(f: PartyFilters, select: FilterSelect, value: string): (r: PartyFilters)
    ensures SelectValue(r, select) == value
    ensures forall other :: other != select ==> SelectValue(r, other) == SelectValue(f, other)
  {
    match select
    case TypeSelect => f.(partyType := value)
    case StatusSelect => f.(status := value)
    case RoleSelect => f.(role := value)
  }

  function InputValue(form: PartyForm, field: PartyFormField): string
  {
    match field
    case NameInput => form.name
    case TypeInput => form.partyType
    case RoleInput => form.role
    case EmailInput => form.email
    case PhoneInput => form.phone
  }

  /** `setNewParty({...newParty, [key]: value})`: the named input takes the
      value and the others stay. */
  function WithPartyFormField(form: PartyForm, field: PartyFormField, value: string): (r: PartyForm)
    ensures InputValue(r, field) == value
    ensures forall other :: other != field ==> InputValue(r, other) == InputValue(form, other)
  {
    match field
    case NameInput => form.(name := value)
    case TypeInput => form.(partyType := value)
    case RoleInput => form.(role := value)
    case EmailInput => form.(email := value)
    case PhoneInput => form.(phone := value)
  }

  /** The search: an empty term matches everything; otherwise the name or
      the e-mail must contain the term ignoring case, or the phone must
      contain it exactly. */
  predicate MatchesSearch(term: string, p: Party)
  {
    term == ""
    || ContainsIgnoreCase(p.name, term)
    || ContainsIgnoreCase(p.email, term)
    || Contains(p.phone, term)
  }

  /** Each select either is "all" or equals the party's value. */
  predicate MatchesFilters(f: PartyFilters, p: Party)
  {
    (f.partyType == "all" || p.partyType == f.partyType)
    && (f.status == "all" || p.status == f.status)
    && (f.role == "all" || p.role == f.role)
  }

  function IsShown(term: string, f: PartyFilters): Party -> bool
  {
    (p: Party) => MatchesSearch(term, p) && MatchesFilters(f, p)
  }

  /** `filteredParties`: the parties that match the search and all three
      selects, in list order. */
  function FilteredParties(parties: seq<Party>, term: string, f: PartyFilters): (r: seq<Party>)
    ensures forall k :: 0 <= k < |r| ==>
      r[k] in parties && MatchesSearch(term, r[k]) && MatchesFilters(f, r[k])
    ensures forall k ::
      0 <= k < |parties| && MatchesSearch(term, parties[k]) && MatchesFilters(f, parties[k])
      ==> parties[k] in r
  {
    FilterComplete(parties, IsShown(term, f));
    Filter(parties, IsShown(term, f))
  }

  /** The filtered list keeps the directory's order, and after a reset it
      is the whole directory. */
  lemma FilteredPartiesOrder(parties: seq<Party>, term: string, f: PartyFilters)
    ensures IsSubsequence(FilteredParties(parties, term, f), parties)
    ensures FilteredParties(parties, "", AllFilters) == parties
  {
    FilterIsSubsequence(parties, IsShown(term, f));
    FilterKeepsAll(parties, IsShown("", AllFilters));
  }

  /** The phone is searched case-sensitively, unlike the name and e-mail:
      "x" finds a party named "X" but not one whose phone only holds "X". */
  lemma PhoneSearchIsCaseSensitive()
    ensures MatchesSearch("x", Party(1, "X", "Individual", 0, "Petitioner", "a", "0", "Active", "", []))
    ensures !MatchesSearch("x", Party(1, "A", "Individual", 0, "Petitioner", "a", "X", "Active", "", []))
  {
    assert ToLower("X")[0] == 'x';
    assert OccursAt(ToLower("X"), ToLower("x"), 0);
    assert ToLower("A") == "a" && ToLower("a") == "a" && ToLower("x") == "x";
    assert !OccursAt("X", "x", 0);
  }

  /** The party `handleAddParty` appends. */
  function NewParty(id: nat, form: PartyForm): (p: Party)
    ensures p.id == id && p.cases == 0 && p.status == "Active" && p.caseNumbers == []
    ensures p.name == form.name && p.email == form.email && p.phone == form.phone
    ensures p.partyType == form.partyType && p.role == form.role
  {
    Party(id, form.name, form.partyType, 0, form.role, form.email, form.phone,
          "Active", "bg-gray-500", [])
  }

  function HasType(partyType: string): Party -> bool
  {
    (p: Party) => p.partyType == partyType
  }

  /** `parties.filter(p => p.type === partyType).length` */
  function TypeCount(parties: seq<Party>, partyType: string): (n: nat)
    ensures n <= |parties|
  {
    |Filter(parties, HasType(partyType))|
  }

  /** The Individuals and Organizations counts never exceed the total, and
      add up to it when every party has one of those two types. */
  lemma {:induction false} TypeCountsPartition(parties: seq<Party>)
    ensures TypeCount(parties, "Individual") + TypeCount(parties, "Organization") <= |parties|
    ensures (forall k :: 0 <= k < |parties| ==> parties[k].partyType in {"Individual", "Organization"})
            ==> TypeCount(parties, "Individual") + TypeCount(parties, "Organization") == |parties|
    decreases |parties|
  {
    if parties != [] {
      TypeCountsPartition(parties[1..]);
    }
  }

  /** Adding a party raises the count of its own type by one and leaves the
      count of every other type as it was. */
  lemma AddRaisesOwnTypeCount(parties: seq<Party>, p: Party, partyType: string)
    ensures TypeCount(parties + [p], partyType)
            == TypeCount(parties, partyType) + (if p.partyType == partyType then 1 else 0)
  {
    FilterAppend(parties, [p], HasType(partyType));
  }

  function PartyIdIsNot(id: nat): Party -> bool
  {
    (p: Party) => p.id != id
  }

  /** Deleting removes every party with the id and keeps the others, in
      order. */
  lemma DeleteRemovesExactlyTheId(parties: seq<Party>, id: nat)
    ensures IsSubsequence(Filter(parties, PartyIdIsNot(id)), parties)
    ensures forall k :: 0 <= k < |Filter(parties, PartyIdIsNot(id))| ==>
      Filter(parties, PartyIdIsNot(id))[k].id != id
    ensures forall k :: 0 <= k < |parties| && parties[k].id != id ==>
      parties[k] in Filter(parties, PartyIdIsNot(id))
  {
  }

  const CsvHeader: seq<string> := ["Name", "Type", "Role", "Email", "Phone", "Cases", "Status"]

  /** The seven exported fields of a party, the case count in decimal. */
  function CsvFields(p: Party): (r: seq<string>)
    ensures |r| == |CsvHeader|
  {
    [p.name, p.partyType, p.role, p.email, p.phone, NatToDecimal(p.cases), p.status]
  }

  /** One line per row: the fields joined with ",", nothing quoted; the
      header line first. */
  function CsvLines(parties: seq<Party>): (r: seq<string>)
    ensures |r| == |parties| + 1
    ensures r[0] == Join(CsvHeader, ',')
    ensures forall k :: 0 <= k < |parties| ==> r[k + 1] == Join(CsvFields(parties[k]), ',')
  {
    [Join(CsvHeader, ',')] + seq(|parties|, k requires 0 <= k < |parties| => Join(CsvFields(parties[k]), ','))
  }

  /** `handleExport`'s text for the filtered list: lines joined with "\n".
      It has at least a header line and one line per party (more when a
      field holds a line break). */
  function CsvText(parties: seq<Party>): (r: string)
    ensures |Split(r, '\n')| >= |parties| + 1
  {
    JoinSeparatorCount(CsvLines(parties), '\n');
    SplitCount(Join(CsvLines(parties), '\n'), '\n');
    Join(CsvLines(parties), '\n')
  }

  /** No field holds a comma or a line break. */
  predicate PlainFields(p: Party)
  {
    ',' !in p.name && ',' !in p.partyType && ',' !in p.role && ',' !in p.email
    && ',' !in p.phone && ',' !in p.status
    && '\n' !in p.name && '\n' !in p.partyType && '\n' !in p.role && '\n' !in p.email
    && '\n' !in p.phone && '\n' !in p.status
  }

  lemma DigitsArePlain(n: nat)
    ensures ',' !in NatToDecimal(n) && '\n' !in NatToDecimal(n)
  {
  }

  /** A party whose fields hold no comma or line break exports as one line
      that splits back into its fields. */
  lemma PlainLine(p: Party)
    requires PlainFields(p)
    ensures '\n' !in Join(CsvFields(p), ',')
    ensures Split(Join(CsvFields(p), ','), ',') == CsvFields(p)
  {
    DigitsArePlain(p.cases);
    JoinAvoids(CsvFields(p), ',', '\n');
    SplitJoin(CsvFields(p), ',');
  }

  /** When no field holds a comma or a line break, the export reads back:
      it has one line per party after the header, and each line splits on
      "," into that party's seven fields. */
  lemma CsvReadsBack(parties: seq<Party>)
    requires forall k :: 0 <= k < |parties| ==> PlainFields(parties[k])
    ensures |Split(CsvText(parties), '\n')| == |parties| + 1
    ensures Split(CsvText(parties), '\n') == CsvLines(parties)
    ensures forall k :: 0 <= k < |parties| ==>
      Split(Split(CsvText(parties), '\n')[k + 1], ',') == CsvFields(parties[k])
  {
    var lines := CsvLines(parties);
    forall k | 0 <= k < |lines|
      ensures '\n' !in lines[k]
    {
      if k == 0 {
        JoinAvoids(CsvHeader, ',', '\n');
      } else {
        PlainLine(parties[k - 1]);
      }
    }
    SplitJoin(lines, '\n');
    forall k | 0 <= k < |parties|
      ensures Split(lines[k + 1], ',') == CsvFields(parties[k])
    {
      PlainLine(parties[k]);
    }
  }

  /** Nothing is quoted: a name with one comma, say "Smith, John", turns
      the party's line into eight fields, the name split in two and every
      later column shifted by one. */
  lemma CommaInNameShiftsColumns(p: Party, first: string, last: string)
    requires p.name == first + [','] + last
    requires ',' !in first && ',' !in last
    requires PlainFields(p.(name := ""))
    ensures Split(Join(CsvFields(p), ','), ',') == [first, last] + CsvFields(p)[1..]
    ensures |Split(Join(CsvFields(p), ','), ',')| == |CsvHeader| + 1
  {
    var rest := CsvFields(p)[1..];
    DigitsArePlain(p.cases);
    assert Join(CsvFields(p), ',') == Join([first, last] + rest, ',') by {
      assert CsvFields(p) == [p.name] + rest;
      assert ([first, last] + rest)[1..] == [last] + rest;
      assert ([last] + rest)[1..] == rest;
    }
    SplitJoin([first, last] + rest, ',');
  }

  class PartiesPage {
    var parties: seq<Party>
    var searchTerm: string
    var filters: PartyFilters
    var newParty: PartyForm
    var showAddPartyModal: bool

    constructor (initialParties: seq<Party>)
      ensures parties == initialParties && searchTerm == "" && filters == AllFilters
      ensures newParty == BlankPartyForm && !showAddPartyModal
    {
      parties := initialParties;
      searchTerm := "";
      filters := AllFilters;
      newParty := BlankPartyForm;
      showAddPartyModal := false;
    }

    /** `handleAddParty`: without a name or an e-mail nothing changes;
        otherwise the party is appended with id = old length + 1 (an id a
        delete may have left in use), the form is reset and the modal
        closes. */
    method AddParty() returns (added: bool)
      modifies this
      ensures added <==> old(newParty).name != "" && old(newParty).email != ""
      ensures searchTerm == old(searchTerm) && filters == old(filters)
      ensures !added ==>
        parties == old(parties) && newParty == old(newParty)
        && showAddPartyModal == old(showAddPartyModal)
      ensures added ==>
        parties == old(parties) + [NewParty(|old(parties)| + 1, old(newParty))]
        && newParty == BlankPartyForm && !showAddPartyModal
    {
      added := newParty.name != "" && newParty.email != "";
      if added {
        parties := parties + [NewParty(|parties| + 1, newParty)];
        newParty := BlankPartyForm;
        showAddPartyModal := false;
      }
    }

    /** `handleDeleteParty`, with the answer to the confirmation dialog. */
    method DeleteParty(id: nat, confirmed: bool)
      modifies this`parties
      ensures confirmed ==> parties == Filter(old(parties), PartyIdIsNot(id))
      ensures !confirmed ==> parties == old(parties)
    {
      if confirmed {
        parties := Filter(parties, PartyIdIsNot(id));
      }
    }

    /** The search box. */
    method SetSearchTerm(term: string)
      modifies this`searchTerm
      ensures searchTerm == term
    {
      searchTerm := term;
    }

    /** One of the three selects. */
    method ChangeFilter(select: FilterSelect, value: string)
      modifies this`filters
      ensures filters == WithPartyFilter(old(filters), select, value)
    {
      filters := WithPartyFilter(filters, select, value);
    }

    /** One of the add-party inputs. */
    method ChangeNewParty(field: PartyFormField, value: string)
      modifies this`newParty
      ensures newParty == WithPartyFormField(old(newParty), field, value)
    {
      newParty := WithPartyFormField(newParty, field, value);
    }

    /** The "Add Party" button and the modal's close and cancel buttons. */
    method SetAddPartyModal(open: bool)
      modifies this`showAddPartyModal
      ensures showAddPartyModal == open
    {
      showAddPartyModal := open;
    }

    /** `handleExport`'s text: the CSV of the parties on show. When none of
        them holds a comma or a line break, it reads back line by line into
        their fields. */
    method Export() returns (csv: string)
      ensures csv == CsvText(FilteredParties(parties, searchTerm, filters))
      ensures (forall k :: 0 <= k < |parties| ==> PlainFields(parties[k])) ==>
        var shown := FilteredParties(parties, searchTerm, filters);
        |Split(csv, '\n')| == |shown| + 1
        && forall k :: 0 <= k < |shown| ==> Split(Split(csv, '\n')[k + 1], ',') == CsvFields(shown[k])
    {
      var shown := FilteredParties(parties, searchTerm, filters);
      if forall k | 0 <= k < |parties| :: PlainFields(parties[k]) {
        CsvReadsBack(shown);
      }
      csv := CsvText(shown);
    }

    /** `resetFilters` */
    method ResetFilters()
      modifies this`filters, this`searchTerm
      ensures filters == AllFilters && searchTerm == ""
    {
      filters := AllFilters;
      searchTerm := "";
    }
  }
}
