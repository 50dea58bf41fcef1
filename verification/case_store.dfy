/** The back end's record store: the Case, Hearing and User collections and
    the routes that create, update, delete and list them.

    Ids are the store's object ids, drawn from one counter shared by the
    case and hearing collections (users carry no id here); a record is never given an id in use. A required String
    field that is empty counts as missing, as it does for the document
    store's `required` validator; a field the request leaves out is modelled
    as the empty string. The clock and `Math.random()` are inputs. */
module CaseStore {
  import opened Text
  import opened Seqs
  import opened Optional
  import opened CaseNumbers

  datatype Case = Case(
    id: nat,
    caseNumber: string,
    title: string,
    category: string,
    priority: string,
    status: string,
    plaintiff: string,
    defendant: string,
    filedDate: string,
    nextHearing: Option<string>)

  /** The body of a create-case request. */
  datatype CaseFields = CaseFields(
    title: string,
    category: string,
    priority: string,
    status: string,
    plaintiff: string,
    defendant: string)

  /** The body of an update request: the fields it supplies. */
  datatype CasePatch = CasePatch(
    caseNumber: Option<string>,
    title: Option<string>,
    category: Option<string>,
    priority: Option<string>,
    status: Option<string>,
    plaintiff: Option<string>,
    defendant: Option<string>,
    filedDate: Option<string>,
    nextHearing: Option<Option<string>>)

  /** A hearing; `caseId` holds a case number, a lookup-by-value reference
      that nothing checks. `start` and `end` are instants in milliseconds. */
  datatype Hearing = Hearing(
    id: nat,
    title: string,
    caseId: string,
    start: int,
    end: int,
    judge: Option<string>,
    parties: seq<string>,
    caseType: Option<string>,
    priority: string,
    status: string,
    courtroom: Option<string>,
    description: Option<string>)

  /** The body of a create-hearing request. */
  datatype HearingFields = HearingFields(
    title: string,
    caseId: string,
    start: Option<int>,
    end: Option<int>,
    judge: Option<string>,
    parties: seq<string>,
    caseType: Option<string>,
    priority: Option<string>,
    status: Option<string>,
    courtroom: Option<string>,
    description: Option<string>)

  datatype User = User(name: Option<string>, email: string, password: string)

  /** The outcomes the routes report besides success. */
  datatype Error =
    | Validation(missing: set<string>)
    | DuplicateCaseNumber
    | CaseNotFound
    | UserExists
    | InvalidCredentials

  datatype Result<T> = Ok(value: T) | Err(error: Error)

  /** The required case fields that are missing or empty. */
  function MissingCaseFields(f: CaseFields): (m: set<string>)
    ensures m <= {"title", "category", "priority", "status", "plaintiff", "defendant"}
    ensures m == {} <==>
      f.title != "" && f.category != "" && f.priority != "" && f.status != ""
      && f.plaintiff != "" && f.defendant != ""
    ensures f.title == "" ==> "title" in m
    ensures f.defendant == "" ==> "defendant" in m
  {
    (if f.title == "" then {"title"} else {})
    + (if f.category == "" then {"category"} else {})
    + (if f.priority == "" then {"priority"} else {})
    + (if f.status == "" then {"status"} else {})
    + (if f.plaintiff == "" then {"plaintiff"} else {})
    + (if f.defendant == "" then {"defendant"} else {})
  }

  /** The required hearing fields that are missing or empty. */
  function MissingHearingFields(f: HearingFields): (m: set<string>)
    ensures m <= {"title", "caseId", "start", "end"}
    ensures m == {} <==> f.title != "" && f.caseId != "" && f.start.Some? && f.end.Some?
  {
    (if f.title == "" then {"title"} else {})
    + (if f.caseId == "" then {"caseId"} else {})
    + (if f.start.None? then {"start"} else {})
    + (if f.end.None? then {"end"} else {})
  }

  /** The hearing a valid request stores: priority defaults to "Medium" and
      status to "Scheduled" when the request leaves them out. */
  function NewHearing(id: nat, f: HearingFields): (h: Hearing)
    requires MissingHearingFields(f) == {}
    ensures h.id == id && h.title == f.title && h.caseId == f.caseId
    ensures h.start == f.start.value && h.end == f.end.value && h.parties == f.parties
    ensures h.judge == f.judge && h.caseType == f.caseType
    ensures h.courtroom == f.courtroom && h.description == f.description
    ensures f.priority.None? ==> h.priority == "Medium"
    ensures f.status.None? ==> h.status == "Scheduled"
    ensures f.priority.Some? ==> h.priority == f.priority.value
    ensures f.status.Some? ==> h.status == f.status.value
  {
    Hearing(id, f.title, f.caseId, f.start.value, f.end.value, f.judge, f.parties,
            f.caseType, f.priority.GetOr("Medium"), f.status.GetOr("Scheduled"),
            f.courtroom, f.description)
  }

  /** Some stored case already carries `number`. */
  predicate NumberTaken(cases: seq<Case>, number: string)
  {
    exists i | 0 <= i < |cases| :: cases[i].caseNumber == number
  }

  /** `findById`: the position of the case with `id`, if there is one. */
  function FindCase(cases: seq<Case>, id: nat): (r: Option<nat>)
    ensures r.Some? ==> r.value < |cases| && cases[r.value].id == id
    ensures r.None? ==> forall i :: 0 <= i < |cases| ==> cases[i].id != id
    decreases |cases|
  {
    if cases == [] then None
    else if cases[|cases| - 1].id == id then Some(|cases| - 1)
    else FindCase(cases[..|cases| - 1], id)
  }

  /** The update merge: every supplied field overwrites, every other field
      is kept; the id is never touched. */
  function ApplyPatch(c: Case, p: CasePatch): (r: Case)
    ensures r.id == c.id
  {
    Case(c.id,
         p.caseNumber.GetOr(c.caseNumber),
         p.title.GetOr(c.title),
         p.category.GetOr(c.category),
         p.priority.GetOr(c.priority),
         p.status.GetOr(c.status),
         p.plaintiff.GetOr(c.plaintiff),
         p.defendant.GetOr(c.defendant),
         p.filedDate.GetOr(c.filedDate),
         p.nextHearing.GetOr(c.nextHearing))
  }

  const EmptyPatch := CasePatch(None, None, None, None, None, None, None, None, None)

  /** A later update's supplied fields win over an earlier one's. */
  function ThenPatch(p: CasePatch, q: CasePatch): CasePatch
  {
    CasePatch(
      if q.caseNumber.Some? then q.caseNumber else p.caseNumber,
      if q.title.Some? then q.title else p.title,
      if q.category.Some? then q.category else p.category,
      if q.priority.Some? then q.priority else p.priority,
      if q.status.Some? then q.status else p.status,
      if q.plaintiff.Some? then q.plaintiff else p.plaintiff,
      if q.defendant.Some? then q.defendant else p.defendant,
      if q.filedDate.Some? then q.filedDate else p.filedDate,
      if q.nextHearing.Some? then q.nextHearing else p.nextHearing)
  }

  /** Every field the update supplies overwrites the stored one, and every
      field it leaves out is kept. */
  lemma ApplyPatchFields(c: Case, p: CasePatch)
    ensures p.caseNumber.Some? ==> ApplyPatch(c, p).caseNumber == p.caseNumber.value
    ensures p.caseNumber.None? ==> ApplyPatch(c, p).caseNumber == c.caseNumber
    ensures p.title.Some? ==> ApplyPatch(c, p).title == p.title.value
    ensures p.title.None? ==> ApplyPatch(c, p).title == c.title
    ensures p.category.Some? ==> ApplyPatch(c, p).category == p.category.value
    ensures p.category.None? ==> ApplyPatch(c, p).category == c.category
    ensures p.priority.Some? ==> ApplyPatch(c, p).priority == p.priority.value
    ensures p.priority.None? ==> ApplyPatch(c, p).priority == c.priority
    ensures p.status.Some? ==> ApplyPatch(c, p).status == p.status.value
    ensures p.status.None? ==> ApplyPatch(c, p).status == c.status
    ensures p.plaintiff.Some? ==> ApplyPatch(c, p).plaintiff == p.plaintiff.value
    ensures p.plaintiff.None? ==> ApplyPatch(c, p).plaintiff == c.plaintiff
    ensures p.defendant.Some? ==> ApplyPatch(c, p).defendant == p.defendant.value
    ensures p.defendant.None? ==> ApplyPatch(c, p).defendant == c.defendant
    ensures p.filedDate.Some? ==> ApplyPatch(c, p).filedDate == p.filedDate.value
    ensures p.filedDate.None? ==> ApplyPatch(c, p).filedDate == c.filedDate
    ensures p.nextHearing.Some? ==> ApplyPatch(c, p).nextHearing == p.nextHearing.value
    ensures p.nextHearing.None? ==> ApplyPatch(c, p).nextHearing == c.nextHearing
  {
  }

  /** An empty update changes nothing, and repeating an update changes
      nothing more. */
  lemma ApplyPatchMerges(c: Case, p: CasePatch)
    ensures ApplyPatch(c, EmptyPatch) == c
    ensures ApplyPatch(ApplyPatch(c, p), p) == ApplyPatch(c, p)
  {
  }

  /** Two updates in a row equal one update by the merged body. */
  lemma ApplyPatchSequential(c: Case, p: CasePatch, q: CasePatch)
    ensures ApplyPatch(ApplyPatch(c, p), q) == ApplyPatch(c, ThenPatch(p, q))
  {
  }

  /** Two stored cases never share an id or a case number. */
  predicate DifferentCases(a: Case, b: Case)
  {
    a.id != b.id && a.caseNumber != b.caseNumber
  }

  predicate DifferentHearings(a: Hearing, b: Hearing)
  {
    a.id != b.id
  }

  predicate DifferentUsers(a: User, b: User)
  {
    a.email != b.email
  }

  /** `findByIdAndDelete`'s test for the records it keeps. */
  function CaseIdIsNot(id: nat): Case -> bool
  {
    (c: Case) => c.id != id
  }

  function HearingIdIsNot(id: nat): Hearing -> bool
  {
    (h: Hearing) => h.id != id
  }

  /** Newest filing first: `sort({ filedDate: -1 })` on the date strings. */
  predicate FiledNoEarlier(a: Case, b: Case)
  {
    LexLe(b.filedDate, a.filedDate)
  }

  /** Earliest start first: `sort({ start: 1 })`. */
  predicate StartsNoLater(a: Hearing, b: Hearing)
  {
    a.start <= b.start
  }

  lemma FiledNoEarlierIsOrder()
    ensures TotalPreorder(FiledNoEarlier)
  {
    forall a: Case, b: Case ensures FiledNoEarlier(a, b) || FiledNoEarlier(b, a) {
      LexLeTotal(a.filedDate, b.filedDate);
    }
    forall a: Case, b: Case, c: Case | FiledNoEarlier(a, b) && FiledNoEarlier(b, c)
      ensures FiledNoEarlier(a, c)
    {
      LexLeTrans(c.filedDate, b.filedDate, a.filedDate);
    }
  }

  /** With distinct ids, deleting by id removes the one record with that id,
      or nothing when there is none. */
  lemma {:induction false} DeleteRemovesAtMostOne(cases: seq<Case>, id: nat)
    requires Pairwise(cases, DifferentCases)
    ensures |Filter(cases, CaseIdIsNot(id))|
            == |cases| - (if exists i :: 0 <= i < |cases| && cases[i].id == id then 1 else 0)
    decreases |cases|
  {
    if cases != [] {
      var rest := cases[1..];
      assert Pairwise(rest, DifferentCases);
      if cases[0].id == id {
        assert forall k :: 0 <= k < |rest| ==> CaseIdIsNot(id)(rest[k]) by {
          forall k | 0 <= k < |rest| ensures CaseIdIsNot(id)(rest[k]) {
            assert DifferentCases(cases[0], cases[k + 1]);
          }
        }
        FilterKeepsAll(rest, CaseIdIsNot(id));
      } else {
        DeleteRemovesAtMostOne(rest, id);
        assert (exists i :: 0 <= i < |cases| && cases[i].id == id)
           <==> (exists i :: 0 <= i < |rest| && rest[i].id == id) by {
          if exists i :: 0 <= i < |cases| && cases[i].id == id {
            var i :| 0 <= i < |cases| && cases[i].id == id;
            assert rest[i - 1].id == id;
          }
          if exists i :: 0 <= i < |rest| && rest[i].id == id {
            var i :| 0 <= i < |rest| && rest[i].id == id;
            assert cases[i + 1].id == id;
          }
        }
      }
    }
  }

  class Store {
    var cases: seq<Case>
    var hearings: seq<Hearing>
    var users: seq<User>
    var nextId: nat

    /** Ids and case numbers are unique, every id is below the counter, and
        e-mail addresses identify users. */
    ghost predicate Valid()
      reads this
    {
      Pairwise(cases, DifferentCases)
      && Pairwise(hearings, DifferentHearings)
      && Pairwise(users, DifferentUsers)
      && (forall i :: 0 <= i < |cases| ==> cases[i].id < nextId)
      && (forall i :: 0 <= i < |hearings| ==> hearings[i].id < nextId)
    }

    constructor ()
      ensures Valid()
      ensures cases == [] && hearings == [] && users == []
    {
      cases, hearings, users, nextId := [], [], [], 0;
    }

    /** POST /api/cases/create: validate, mint a number with the prefix
        lookup as written, store. A missing field or a number already in
        use stores nothing; there is no retry. */
    method CreateCase(f: CaseFields, year: nat, today: string, r: nat) returns (result: Result<Case>)
      requires Valid() && r < 900000
      modifies this
      ensures Valid()
      ensures hearings == old(hearings) && users == old(users)
      ensures result.Ok? <==>
        MissingCaseFields(f) == {} && !NumberTaken(old(cases), MintAsWritten(f.category, year, r))
      ensures MissingCaseFields(f) != {} ==> result == Err(Validation(MissingCaseFields(f)))
      ensures MissingCaseFields(f) == {} && NumberTaken(old(cases), MintAsWritten(f.category, year, r))
              ==> result == Err(DuplicateCaseNumber)
      ensures result.Err? ==> cases == old(cases) && nextId == old(nextId)
      ensures result.Ok? ==>
        result.value == Case(old(nextId), MintAsWritten(f.category, year, r), f.title, f.category,
                             f.priority, f.status, f.plaintiff, f.defendant, today, None)
        && cases == old(cases) + [result.value]
        && nextId == old(nextId) + 1
    {
      var missing := MissingCaseFields(f);
      if missing != {} {
        return Err(Validation(missing));
      }
      var number := MintAsWritten(f.category, year, r);
      if NumberTaken(cases, number) {
        return Err(DuplicateCaseNumber);
      }
      var c := Case(nextId, number, f.title, f.category, f.priority, f.status,
                    f.plaintiff, f.defendant, today, None);
      cases := cases + [c];
      nextId := nextId + 1;
      result := Ok(c);
    }

    /** PUT /api/cases/:id: merge the supplied fields over the stored case
        and return the result. The case number may be changed, but not to
        one another case carries (the unique index refuses it). */
    method UpdateCase(id: nat, p: CasePatch) returns (result: Result<Case>)
      requires Valid()
      modifies this
      ensures Valid()
      ensures hearings == old(hearings) && users == old(users) && nextId == old(nextId)
      ensures FindCase(old(cases), id).None? ==> result == Err(CaseNotFound)
      ensures result.Err? ==> cases == old(cases)
      ensures FindCase(old(cases), id).Some? ==>
        var i := FindCase(old(cases), id).value;
        var updated := ApplyPatch(old(cases)[i], p);
        (result.Ok? <==> !(exists j :: 0 <= j < |old(cases)| && j != i
                                         && old(cases)[j].caseNumber == updated.caseNumber))
        && (result.Err? ==> result == Err(DuplicateCaseNumber))
        && (result.Ok? ==> result.value == updated && cases == old(cases)[i := updated])
    {
      var found := FindCase(cases, id);
      if found.None? {
        return Err(CaseNotFound);
      }
      var i := found.value;
      var updated := ApplyPatch(cases[i], p);
      if exists j | 0 <= j < |cases| :: j != i && cases[j].caseNumber == updated.caseNumber {
        return Err(DuplicateCaseNumber);
      }
      cases := cases[i := updated];
      result := Ok(updated);
    }

    /** DELETE /api/cases/:id: drop the case with that id, if any, and report
        success either way. Hearings that name its case number stay. */
    method DeleteCase(id: nat)
      requires Valid()
      modifies this
      ensures Valid()
      ensures cases == Filter(old(cases), CaseIdIsNot(id))
      ensures hearings == old(hearings) && users == old(users) && nextId == old(nextId)
    {
      FilterPairwise(cases, CaseIdIsNot(id), DifferentCases);
      cases := Filter(cases, CaseIdIsNot(id));
    }

    /** GET /api/cases: every stored case, newest filing first. */
    method ListCases() returns (r: seq<Case>)
      ensures multiset(r) == multiset(cases)
      ensures SortedBy(r, FiledNoEarlier)
    {
      FiledNoEarlierIsOrder();
      r := Sort(cases, FiledNoEarlier);
    }

    /** POST /api/hearings/create: store the hearing with its defaults. No
        case need carry its `caseId`. */
    method CreateHearing(f: HearingFields) returns (result: Result<Hearing>)
      requires Valid()
      modifies this
      ensures Valid()
      ensures cases == old(cases) && users == old(users)
      ensures result.Ok? <==> MissingHearingFields(f) == {}
      ensures result.Err? ==> result == Err(Validation(MissingHearingFields(f)))
                              && hearings == old(hearings) && nextId == old(nextId)
      ensures result.Ok? ==> result.value == NewHearing(old(nextId), f)
                             && hearings == old(hearings) + [result.value]
                             && nextId == old(nextId) + 1
    {
      var missing := MissingHearingFields(f);
      if missing != {} {
        return Err(Validation(missing));
      }
      var h := NewHearing(nextId, f);
      hearings := hearings + [h];
      nextId := nextId + 1;
      result := Ok(h);
    }

    /** DELETE /api/hearings/:id: drop the hearing with that id, if any, and
        report success either way. */
    method DeleteHearing(id: nat)
      requires Valid()
      modifies this
      ensures Valid()
      ensures hearings == Filter(old(hearings), HearingIdIsNot(id))
      ensures cases == old(cases) && users == old(users) && nextId == old(nextId)
    {
      FilterPairwise(hearings, HearingIdIsNot(id), DifferentHearings);
      hearings := Filter(hearings, HearingIdIsNot(id));
    }

    /** GET /api/hearings: every stored hearing, earliest start first. */
    method ListHearings() returns (r: seq<Hearing>)
      ensures multiset(r) == multiset(hearings)
      ensures SortedBy(r, StartsNoLater)
    {
      r := Sort(hearings, StartsNoLater);
    }

    /** POST /api/auth/signup: refuse a registered e-mail address, then store
        the user; e-mail and password are required. */
    method Signup(name: Option<string>, email: string, password: string) returns (result: Result<User>)
      requires Valid()
      modifies this
      ensures Valid()
      ensures cases == old(cases) && hearings == old(hearings) && nextId == old(nextId)
      ensures (exists i :: 0 <= i < |old(users)| && old(users)[i].email == email)
              ==> result == Err(UserExists)
      ensures result.Ok? <==>
        !(exists i :: 0 <= i < |old(users)| && old(users)[i].email == email)
        && email != "" && password != ""
      ensures result.Err? ==> users == old(users)
      ensures result.Ok? ==> result.value == User(name, email, password)
                             && users == old(users) + [result.value]
    {
      if exists i | 0 <= i < |users| :: users[i].email == email {
        return Err(UserExists);
      }
      var missing := (if email == "" then {"email"} else {})
                     + (if password == "" then {"password"} else {});
      if missing != {} {
        return Err(Validation(missing));
      }
      var u := User(name, email, password);
      users := users + [u];
      result := Ok(u);
    }

    /** POST /api/auth/login: succeed iff a stored user has exactly this
        e-mail address and password. */
    method Login(email: string, password: string) returns (result: Result<string>)
      ensures result.Ok? <==>
        exists i :: 0 <= i < |users| && users[i].email == email && users[i].password == password
      ensures result.Ok? ==> result.value == "dummy-jwt-token"
      ensures result.Err? ==> result.error == InvalidCredentials
    {
      if exists i | 0 <= i < |users| :: users[i].email == email && users[i].password == password {
        result := Ok("dummy-jwt-token");
      } else {
        result := Err(InvalidCredentials);
      }
    }
  }
}
