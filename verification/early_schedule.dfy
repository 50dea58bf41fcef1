/** The earlier revision of the hearing schedule page. It differs from the
    later one in three places: the colours come from an if/else chain, the
    "Schedule" action has no required-field guard, and the parties text is
    split and trimmed without dropping blank pieces. Its form also starts,
    and is reset, with `parties` holding an empty LIST, on which `split`
    throws a TypeError; the form value is therefore either text or a list.
    The page class follows the code as written: its "Schedule" action
    schedules nothing until the parties box has been typed in.
    `FixedBlankForm` is the corrected reset, with `parties` as empty text. */
module EarlySchedule {
  import opened Text
  import opened Seqs
  import opened Optional
  import opened Schedule

  /** `eventStyleGetter` as the earlier revision writes it: blue by default,
      then an if/else chain on the priority, then the "Completed" override.
      It colours every hearing as the later revision's `switch` does. */
  function EventColoursIfChain(priority: string, status: string): (c: Colours)
    ensures c == EventColours(priority, status)
  {
    var initial := Blue;
    var byPriority :=
      if priority == "High" then Red
      else if priority == "Medium" then Orange
      else if priority == "Low" then Green
      else initial;
    if status == "Completed" then Grey else byPriority
  }

  /** What the form's `parties` holds: the typed text, or the list the form
      is created and reset with. */
  datatype PartiesValue = PartiesText(text: string) | PartiesList(items: seq<string>)

  datatype EarlyForm = EarlyForm(
    title: string,
    caseId: string,
    start: int,
    end: int,
    judge: string,
    parties: PartiesValue,
    caseType: string,
    priority: string,
    status: string,
    courtroom: string,
    description: string)

  /** A scheduled hearing of the earlier revision (no creation stamp). */
  datatype EarlyEvent = EarlyEvent(
    id: nat,
    title: string,
    caseId: string,
    start: int,
    end: int,
    judge: string,
    parties: seq<string>,
    caseType: string,
    priority: string,
    status: string,
    courtroom: string,
    description: string)

  /** The form as created and as reset: `parties` is the empty list, so
      the "Schedule" action cannot build an event from it. */
  function EarlyBlankForm(now: int): (f: EarlyForm)
    ensures forall id: nat :: EventToAdd(id, f).None?
    ensures f.start == now && f.end == now + TwoHours
  {
    EarlyForm("", "", now, now + TwoHours, "", PartiesList([]), "", "Medium", "Scheduled", "", "")
  }

  /** `parties.split(',').map(p => p.trim())`: blank pieces stay. */
  function SplitParties(text: string): (r: seq<string>)
    ensures |r| == |Split(text, ',')| == multiset(text)[','] + 1
    ensures forall k :: 0 <= k < |r| ==> r[k] == Trim(Split(text, ',')[k])
  {
    SplitCount(text, ',');
    TrimAll(Split(text, ','))
  }

  /** A piece becomes an empty name exactly when it was blank; the later
      revision's parsing is this list with the empty names dropped. */
  lemma SplitPartiesBlankPieces(text: string)
    ensures forall k :: 0 <= k < |SplitParties(text)| ==>
      (SplitParties(text)[k] == "" <==> AllWhitespace(Split(text, ',')[k]))
    ensures ParseParties(text) == Filter(SplitParties(text), IsNonEmpty())
  {
  }

  /** An untouched parties box yields one empty name, where the later
      revision yields none. */
  lemma EmptyTextGivesOneEmptyName()
    ensures SplitParties("") == [""]
    ensures ParseParties("") == []
  {
  }

  /** The event the action builds, or None where `split` throws because
      `parties` is still a list. */
  function EventToAdd(id: nat, form: EarlyForm): (r: Option<EarlyEvent>)
    ensures r.Some? <==> form.parties.PartiesText?
    ensures r.Some? ==>
      r.value.id == id && r.value.title == form.title && r.value.caseId == form.caseId
      && r.value.start == form.start && r.value.end == form.end
      && |r.value.parties| == multiset(form.parties.text)[','] + 1
  {
    match form.parties
    case PartiesList(_) => None
    case PartiesText(t) =>
      Some(EarlyEvent(id, form.title, form.caseId, form.start, form.end, form.judge,
                      SplitParties(t), form.caseType, form.priority, form.status,
                      form.courtroom, form.description))
  }

  /** `handleNewEventChange` for the named inputs, and the parties box's own
      handler, which stores the typed text. */
  function WithEarlyFormField(form: EarlyForm, field: FormField, value: string): (r: EarlyForm)
    ensures field != PartiesField ==> r.parties == form.parties
    ensures field == PartiesField ==> r.parties == PartiesText(value)
  {
    match field
    case TitleField => form.(title := value)
    case CaseIdField => form.(caseId := value)
    case JudgeField => form.(judge := value)
    case CaseTypeField => form.(caseType := value)
    case PriorityField => form.(priority := value)
    case StatusField => form.(status := value)
    case PartiesField => form.(parties := PartiesText(value))
    case CourtroomField => form.(courtroom := value)
    case DescriptionField => form.(description := value)
  }

  /** The form after a sequence of edits and slot selections. */
  datatype FormEdit = Edit(field: FormField, value: string) | Slot(start: int, end: int)

  predicate TypesParties(e: FormEdit)
  {
    e.Edit? && e.field == PartiesField
  }

  function ApplyEdits(form: EarlyForm, edits: seq<FormEdit>): EarlyForm
    decreases |edits|
  {
    if edits == [] then form
    else
      var next := match edits[0]
        case Edit(field, value) => WithEarlyFormField(form, field, value)
        case Slot(start, end) => form.(start := start, end := end);
      ApplyEdits(next, edits[1..])
  }

  /** Unless the parties box is typed in, the action throws: on a fresh form
      and on every form reached from it, or from a reset, by edits that do
      not touch the parties box. */
  lemma {:induction false} ScheduleAfterResetFails(now: int, edits: seq<FormEdit>, id: nat)
    requires forall k :: 0 <= k < |edits| ==> !TypesParties(edits[k])
    ensures EventToAdd(id, ApplyEdits(EarlyBlankForm(now), edits)).None?
  {
    UntypedPartiesStayList(EarlyBlankForm(now), edits);
  }

  lemma {:induction false} UntypedPartiesStayList(form: EarlyForm, edits: seq<FormEdit>)
    requires forall k :: 0 <= k < |edits| ==> !TypesParties(edits[k])
    ensures ApplyEdits(form, edits).parties == form.parties
    decreases |edits|
  {
    if edits != [] {
      var next := match edits[0]
        case Edit(field, value) => WithEarlyFormField(form, field, value)
        case Slot(start, end) => form.(start := start, end := end);
      assert next.parties == form.parties by {
        assert !TypesParties(edits[0]);
      }
      UntypedPartiesStayList(next, edits[1..]);
    }
  }

  /** The corrected reset, as the later revision has it: `parties` is empty
      text, so the action succeeds on every form reached from it. */
  function FixedBlankForm(now: int): (f: EarlyForm)
    ensures f == EarlyBlankForm(now).(parties := PartiesText(""))
  {
    EarlyForm("", "", now, now + TwoHours, "", PartiesText(""), "", "Medium", "Scheduled", "", "")
  }

  lemma {:induction false} FixedResetSchedules(now: int, edits: seq<FormEdit>, id: nat)
    ensures EventToAdd(id, ApplyEdits(FixedBlankForm(now), edits)).Some?
  {
    EditsKeepText(FixedBlankForm(now), edits);
  }

  lemma {:induction false} EditsKeepText(form: EarlyForm, edits: seq<FormEdit>)
    requires form.parties.PartiesText?
    ensures ApplyEdits(form, edits).parties.PartiesText?
    decreases |edits|
  {
    if edits != [] {
      var next := match edits[0]
        case Edit(field, value) => WithEarlyFormField(form, field, value)
        case Slot(start, end) => form.(start := start, end := end);
      EditsKeepText(next, edits[1..]);
    }
  }

  /** The page as written: the form starts, and is reset, with `parties`
      as the empty list. */
  class EarlySchedulePage {
    var events: seq<EarlyEvent>
    var newEvent: EarlyForm
    var filter: FilterState
    var isNewEventModalOpen: bool

    constructor (now: int)
      ensures events == [] && newEvent == EarlyBlankForm(now) && filter == NoFilter
      ensures !isNewEventModalOpen
    {
      events := [];
      newEvent := EarlyBlankForm(now);
      filter := NoFilter;
      isNewEventModalOpen := false;
    }

    /** `handleSelectSlot` */
    method SelectSlot(start: int, end: int)
      modifies this
      ensures newEvent == old(newEvent).(start := start, end := end)
      ensures isNewEventModalOpen
      ensures events == old(events) && filter == old(filter)
    {
      newEvent := newEvent.(start := start, end := end);
      isNewEventModalOpen := true;
    }

    /** `handleNewEventChange` and the parties box's handler. */
    method ChangeFormField(field: FormField, value: string)
      modifies this`newEvent
      ensures newEvent == WithEarlyFormField(old(newEvent), field, value)
    {
      newEvent := WithEarlyFormField(newEvent, field, value);
    }

    /** `handleFilterChange` */
    method ChangeFilter(key: FilterKey, value: string)
      modifies this`filter
      ensures filter == WithFilter(old(filter), key, value)
    {
      filter := WithFilter(filter, key, value);
    }

    /** `clearFilters` */
    method ClearFilters()
      modifies this`filter
      ensures filter == NoFilter
    {
      filter := NoFilter;
    }

    /** `handleScheduleNewHearing` without a guard: while `parties` is still
        the list, `split` throws before any state is set and nothing
        changes; otherwise the form is appended, empty title and case id
        included, with id = old count + 1, the modal closes and the form is
        reset to the list again. */
    method ScheduleNewHearing(now: int) returns (scheduled: bool)
      modifies this
      ensures scheduled <==> old(newEvent).parties.PartiesText?
      ensures filter == old(filter)
      ensures !scheduled ==>
        events == old(events) && newEvent == old(newEvent)
        && isNewEventModalOpen == old(isNewEventModalOpen)
      ensures scheduled ==>
        events == old(events) + [EventToAdd(|old(events)| + 1, old(newEvent)).value]
        && newEvent == EarlyBlankForm(now) && !isNewEventModalOpen
    {
      var e := EventToAdd(|events| + 1, newEvent);
      scheduled := e.Some?;
      if scheduled {
        events := events + [e.value];
        isNewEventModalOpen := false;
        newEvent := EarlyBlankForm(now);
      }
    }
  }
}
