/** The hearing schedule page: calendar colours by priority and status, the
    new-hearing form and its "Schedule" action, slot selection, and the
    filter object with its reset. Instants are milliseconds; the clock is an
    input (`now`, and `createdAt` for the ISO time stamp). */
module Schedule {
  import opened Text
  import opened Seqs

  /** Background and border colour of a calendar block. */
  datatype Colours = Colours(background: string, border: string)

  /** The part of the returned style that depends on the event. */
  datatype EventStyle = EventStyle(backgroundColor: string, border: string)

  const Red := Colours("#f56565", "#c53030")
  const Orange := Colours("#ed8936", "#c05621")
  const Green := Colours("#48bb78", "#38a169")
  const Blue := Colours("#4299e1", "#3182ce")
  const Grey := Colours("#a0aec0", "#718096")

  /** `eventStyleGetter`'s colours: the `switch` on the priority sets the
      pair, then a "Completed" status replaces it. */
  function EventColours(priority: string, status: string): (c: Colours)
    ensures c in {Red, Orange, Green, Blue, Grey}
    ensures c == Grey <==> status == "Completed"
  {
    var byPriority :=
      if priority == "High" then Red
      else if priority == "Medium" then Orange
      else if priority == "Low" then Green
      else Blue;
    if status == "Completed" then Grey else byPriority
  }

  /** `eventStyleGetter`: the background colour and a 2px solid border. A
      completed hearing is grey; otherwise High is red, Medium orange, Low
      green and any other priority blue. */
  function StyleOf(priority: string, status: string): (s: EventStyle)
    ensures status == "Completed" ==> s == EventStyle("#a0aec0", "2px solid #718096")
    ensures status != "Completed" && priority == "High" ==> s == EventStyle("#f56565", "2px solid #c53030")
    ensures status != "Completed" && priority == "Medium" ==> s == EventStyle("#ed8936", "2px solid #c05621")
    ensures status != "Completed" && priority == "Low" ==> s == EventStyle("#48bb78", "2px solid #38a169")
    ensures status != "Completed" && priority !in {"High", "Medium", "Low"}
            ==> s == EventStyle("#4299e1", "2px solid #3182ce")
  {
    var c := EventColours(priority, status);
    EventStyle(c.background, "2px solid " + c.border)
  }

  /** The colour table: each priority has its own pair, any other priority
      is blue, and "Completed" is grey whatever the priority. */
  lemma EventColoursTable(priority: string, status: string)
    ensures status == "Completed" ==> EventColours(priority, status) == Grey
    ensures status != "Completed" ==>
      EventColours(priority, status)
      == (if priority == "High" then Red
          else if priority == "Medium" then Orange
          else if priority == "Low" then Green
          else Blue)
  {
  }

  /** The status override wins: the priority only matters when the hearing
      is not completed. */
  lemma CompletedIgnoresPriority(p1: string, p2: string)
    ensures StyleOf(p1, "Completed") == StyleOf(p2, "Completed")
  {
  }

  /** The new-hearing form; `parties` is the comma-separated text input. */
  datatype HearingForm = HearingForm(
    title: string,
    caseId: string,
    start: int,
    end: int,
    judge: string,
    parties: string,
    caseType: string,
    priority: string,
    status: string,
    courtroom: string,
    description: string)

  /** A scheduled hearing as the calendar holds it. */
  datatype Event = Event(
    id: nat,
    title: string,
    caseId: string,
    start: int,
    end: int,
    judge: string,
    parties: seq<string>,
    caseType: string,
    priority: string,
    status: string,
    courtroom: string,
    description: string,
    createdAt: string)

  /** The text inputs that `handleNewEventChange` serves, by `name`. */
  datatype FormField =
    | TitleField | CaseIdField | JudgeField | CaseTypeField | PriorityField
    | StatusField | PartiesField | CourtroomField | DescriptionField

  datatype FilterState = FilterState(judge: string, caseType: string, priority: string, status: string)

  /** The selects that `handleFilterChange` serves, by `name`. */
  datatype FilterKey = ByJudge | ByCaseType | ByPriority | ByStatus

  const TwoHours: int := 2 * 60 * 60 * 1000

  const NoFilter := FilterState("", "", "", "")

  /** The form as it starts and as scheduling leaves it: empty strings, a
      two-hour slot from now, priority "Medium", status "Scheduled". */
  function BlankForm(now: int): (f: HearingForm)
    ensures f.start == now && f.end - f.start == TwoHours
    ensures f.title == "" && f.caseId == "" && ParseParties(f.parties) == []
  {
    HearingForm("", "", now, now + TwoHours, "", "", "", "Medium", "Scheduled", "", "")
  }

  function IsNonEmpty(): string -> bool
  {
    (x: string) => x != ""
  }

  /** `parties.split(',').map(p => p.trim()).filter(p => p !== '')` */
  function ParseParties(text: string): (r: seq<string>)
    ensures forall k :: 0 <= k < |r| ==>
      r[k] != "" && !IsWhitespace(r[k][0]) && !IsWhitespace(r[k][|r[k]| - 1])
  {
    Filter(TrimAll(Split(text, ',')), IsNonEmpty())
  }

  /** The names come out in the order they were typed: the result is a
      subsequence of the trimmed pieces, and every non-blank piece is kept. */
  lemma ParsePartiesKeepsOrder(text: string)
    ensures IsSubsequence(ParseParties(text), TrimAll(Split(text, ',')))
    ensures forall k ::
      0 <= k < |Split(text, ',')| && Trim(Split(text, ',')[k]) != ""
      ==> Trim(Split(text, ',')[k]) in ParseParties(text)
  {
    FilterIsSubsequence(TrimAll(Split(text, ',')), IsNonEmpty());
    FilterComplete(TrimAll(Split(text, ',')), IsNonEmpty());
  }

  /** Text without a comma gives at most one name: itself, trimmed. */
  lemma ParsePartiesSingle(text: string)
    requires ',' !in text
    ensures Trim(text) != "" ==> ParseParties(text) == [Trim(text)]
    ensures Trim(text) == "" ==> ParseParties(text) == []
  {
    SplitNoSeparator(text, ',');
  }

  /** The event the form schedules, with id = number of events + 1: the
      form's fields, and the parties text parsed into non-empty names. */
  function EventFrom(id: nat, form: HearingForm, createdAt: string): (e: Event)
    ensures e.id == id && e.title == form.title && e.caseId == form.caseId
    ensures e.start == form.start && e.end == form.end && e.createdAt == createdAt
    ensures forall k :: 0 <= k < |e.parties| ==> e.parties[k] != ""
  {
    Event(id, form.title, form.caseId, form.start, form.end, form.judge,
          ParseParties(form.parties), form.caseType, form.priority, form.status,
          form.courtroom, form.description, createdAt)
  }

  /** `{ ...prev, [name]: value }` on the form. */
  function WithFormField(form: HearingForm, field: FormField, value: string): (r: HearingForm)
    ensures r.start == form.start && r.end == form.end
  {
    match field
    case TitleField => form.(title := value)
    case CaseIdField => form.(caseId := value)
    case JudgeField => form.(judge := value)
    case CaseTypeField => form.(caseType := value)
    case PriorityField => form.(priority := value)
    case StatusField => form.(status := value)
    case PartiesField => form.(parties := value)
    case CourtroomField => form.(courtroom := value)
    case DescriptionField => form.(description := value)
  }

  /** `{ ...prev, [name]: value }` on the filter object: the named key
      takes the value and no other key changes. */
  function WithFilter(f: FilterState, key: FilterKey, value: string): (r: FilterState)
    ensures FilterValue(r, key) == value
    ensures forall other :: other != key ==> FilterValue(r, other) == FilterValue(f, other)
  {
    match key
    case ByJudge => f.(judge := value)
    case ByCaseType => f.(caseType := value)
    case ByPriority => f.(priority := value)
    case ByStatus => f.(status := value)
  }

  function FilterValue(f: FilterState, key: FilterKey): string
  {
    match key
    case ByJudge => f.judge
    case ByCaseType => f.caseType
    case ByPriority => f.priority
    case ByStatus => f.status
  }

  class SchedulePage {
    var events: seq<Event>
    var newEvent: HearingForm
    var filter: FilterState
    var isNewEventModalOpen: bool

    constructor (now: int)
      ensures events == [] && newEvent == BlankForm(now) && filter == NoFilter
      ensures !isNewEventModalOpen
    {
      events := [];
      newEvent := BlankForm(now);
      filter := NoFilter;
      isNewEventModalOpen := false;
    }

    /** `handleSelectSlot`: copy the slot's start and end into the form and
        open the modal. */
    method SelectSlot(start: int, end: int)
      modifies this
      ensures newEvent == old(newEvent).(start := start, end := end)
      ensures isNewEventModalOpen
      ensures events == old(events) && filter == old(filter)
    {
      newEvent := newEvent.(start := start, end := end);
      isNewEventModalOpen := true;
    }

    /** `handleNewEventChange` */
    method ChangeFormField(field: FormField, value: string)
      modifies this`newEvent
      ensures newEvent == WithFormField(old(newEvent), field, value)
    {
      newEvent := WithFormField(newEvent, field, value);
    }

    /** `handleFilterChange` */
    method ChangeFilter(key: FilterKey, value: string)
      modifies this`filter
      ensures filter == WithFilter(old(filter), key, value)
    {
      filter := WithFilter(filter, key, value);
    }

    /** `clearFilters` */
    method ClearFilters()
      modifies this`filter
      ensures filter == NoFilter
    {
      filter := NoFilter;
    }

    /** `handleScheduleNewHearing`: without a title or a case id nothing
        changes; otherwise the hearing is appended with id = old count + 1,
        the modal closes and the form is reset. */
    method ScheduleNewHearing(now: int, createdAt: string) returns (scheduled: bool)
      modifies this
      ensures scheduled <==> old(newEvent).title != "" && old(newEvent).caseId != ""
      ensures filter == old(filter)
      ensures !scheduled ==>
        events == old(events) && newEvent == old(newEvent)
        && isNewEventModalOpen == old(isNewEventModalOpen)
      ensures scheduled ==>
        events == old(events) + [EventFrom(|old(events)| + 1, old(newEvent), createdAt)]
        && newEvent == BlankForm(now) && !isNewEventModalOpen
    {
      scheduled := newEvent.title != "" && newEvent.caseId != "";
      if scheduled {
        var e := EventFrom(|events| + 1, newEvent, createdAt);
        events := events + [e];
        isNewEventModalOpen := false;
        newEvent := BlankForm(now);
      }
    }
  }
}
