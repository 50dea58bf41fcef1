# Streamlined Caseflow: a verified model of the case and hearing core

Streamlined Caseflow is a court case-management application: an Express
back end over a document store (cases, hearings, users) and React pages for
case management, the hearing calendar, the party directory and login /
signup. This project models the behaviour of that core in Dafny and proves
properties of it.

Modules, one per file:

- `Text` (`text.dfy`): the JavaScript string operations the core relies on.
  These are `toLowerCase` (ASCII letters), `includes`, `trim` (the
  ECMAScript whitespace set), `split` / `join` on one character, decimal
  rendering of non-negative integers, and the code-point string order.
- `Seqs` (`seqs.dfy`): `Array.prototype.filter` as an order-keeping
  filter, and an insertion sort by a total preorder (what the store's
  `sort` promises: a permutation in order).
- `Optional` (`optional.dfy`): an option type.
- `CaseNumbers` (`case_numbers.dfy`): the category-to-prefix table and
  the `PREFIX/YEAR/NNNNNN` minting.
- `CaseStore` (`case_store.dfy`): the back end's routes as a `Store` class
  over the case, hearing and user collections.
- `CaseManagement` (`case_management.dfy`): the case list page: sidebar
  filter, search, priority counts, "New Case".
- `Schedule` (`schedule.dfy`): the hearing calendar page (later revision).
- `EarlySchedule` (`early_schedule.dfy`): the earlier revision of the same
  page, kept in `Backend/server.js`.
- `Parties` (`parties.dfy`): the party directory, including the CSV export.
- `AuthForm` (`auth_form.dfy`): validation and state of the login / signup
  form.

The clock and the random draw are inputs: `year` stands for
`getFullYear()`, `today` for the ISO date, `now` / `createdAt` for the
current instant and its ISO text, and `r` (with `0 <= r < 900000`) for
`Math.floor(Math.random() * 900000)`. The answer to `window.confirm` is a
boolean input. Store ids are naturals from a counter shared by the case
and hearing collections; users carry no id.

In three places the code is more permissive than one might expect; the
model follows the code:

- An update may change a case's number; the unique index then refuses a
  number another case carries.
- Deleting an unknown case or hearing reports success, not "not found".
- A required String field that is empty is rejected like a missing one.

Both defects listed under "## Findings" are kept in the model of the code
that has them: the store mints with the prefix lookup as written, and the
earlier schedule page starts and resets with `parties` as a list. The
corrected definitions stand beside them, with the intended property proved.

## Model

| member | source | states |
|---|---|---|
| Text.Trim | src/pages/SchedulePage.jsx:236 | the result neither starts nor ends with whitespace and is no longer than the input |
| Text.TrimIsInfix | src/pages/SchedulePage.jsx:236 | the result is the input with a whitespace-only start and a whitespace-only end cut off, nothing else |
| Text.TrimStartIsSuffix | src/pages/SchedulePage.jsx:236 | trimming the start leaves a suffix of the input |
| Text.TrimEndIsPrefix | src/pages/SchedulePage.jsx:236 | trimming the end leaves a prefix of the input |
| Text.TrimEmptyIff | src/pages/Authpage.jsx:39 | `trim()` is empty exactly when the string is all whitespace |
| Text.ToLower | src/pages/CaseManagement.jsx:136-141 | same length; each ASCII capital becomes its small letter, every other character is kept |
| Text.Contains | src/pages/Parties.jsx:115-118 | the empty string is contained in every string; nothing longer than the string is |
| Text.Split | src/pages/SchedulePage.jsx:236 | at least one piece, and no piece contains the separator |
| Text.JoinSplit | src/pages/Parties.jsx:177 | joining the pieces of a split restores the string |
| Text.SplitJoin | src/pages/Parties.jsx:177 | splitting a join of separator-free pieces gives the pieces back |
| Text.SplitCount | Backend/server.js:196 | a split has one more piece than the string has separators |
| Text.Join | src/pages/Parties.jsx:177 | a join of one piece is that piece |
| Text.JoinSeparatorCount | src/pages/Parties.jsx:177 | a join of n pieces holds at least n - 1 separators |
| Text.NatToDecimal | Backend/server1.js:101 | at least one digit, all digits, a leading '0' only for zero |
| Text.DecimalRoundTrip | Backend/server1.js:101 | reading a rendered number back gives the number |
| Text.NatToDecimalInjective | Backend/server1.js:101 | distinct numbers render differently |
| Text.DecimalLength | Backend/server1.js:100-101 | a number in [10^k, 10^(k+1)) has k+1 digits |
| Text.LexLeTotal | Backend/server1.js:142 | any two date strings are comparable |
| Text.LexLeTrans | Backend/server1.js:142 | the string order is transitive |
| Seqs.Filter | src/pages/Parties.jsx:113-130 | every kept element is in the input and passes the test |
| Seqs.FilterComplete | src/pages/Parties.jsx:113-130 | every element that passes the test is kept |
| Seqs.FilterIsSubsequence | src/pages/CaseManagement.jsx:124-145 | filtering keeps the input order |
| Seqs.Sort | Backend/server1.js:142 | the result is a permutation of the input, sorted by the order |
| CaseNumbers.TableLookup | Backend/server1.js:97 | an own key of the table gives a three-letter prefix without '/' and other than "CAS" |
| CaseNumbers.PrefixAsWritten | Backend/server1.js:97-98 | table keys give their prefix; other non-inherited categories give "CAS" |
| CaseNumbers.PrefixAsWrittenInheritedKey | Backend/server1.js:97-98 | "toString" yields a function's source text as prefix; "constructor" gives no three-letter prefix |
| CaseNumbers.Prefix | Backend/server1.js:97-98 | three letters without '/'; "CAS" exactly when the category is not a table key |
| CaseNumbers.PrefixTableRows | Backend/server1.js:97-98 | CMI→CTV, Criminal→CRV, Family→FAW, Commercial→TCM, Civil→CIV, anything else→CAS |
| CaseNumbers.PrefixIdentifiesCategory | Backend/server1.js:97 | a prefix other than CAS identifies its category |
| CaseNumbers.PrefixAgreesOutsideInheritedKeys | Backend/server1.js:97-98 | the lookup as written and the corrected one agree on every non-inherited key |
| CaseNumbers.RandomNumber | Backend/server1.js:100 | the draw is in [100000, 999999] |
| CaseNumbers.CaseNumber | Backend/server1.js:101 | the prefix comes first, then '/', and the length is prefix + year digits + number digits + 2 |
| CaseNumbers.Mint | Backend/server1.js:97-101 | with the corrected prefix: three letters, '/', and year digits + 11 characters in all |
| CaseNumbers.MintAsWritten | Backend/server1.js:97-101 | with the prefix as written: starts with that prefix and a '/'; equals the corrected mint for every non-inherited category |
| CaseNumbers.RandomNumberSixDigits | Backend/server1.js:100 | the draw always renders as six digits |
| CaseNumbers.MintFormat | Backend/server1.js:97-101 | a minted number splits at '/' into prefix, year and six digits that read back as the draw |
| CaseNumbers.MintInjective | Backend/server1.js:101 | equal numbers need equal prefix, year and draw |
| CaseStore.MissingCaseFields | Backend/server1.js:27-34 | the missing set is empty exactly when all six required fields are non-empty |
| CaseStore.MissingHearingFields | Backend/server1.js:41-45 | empty exactly when title and caseId are non-empty and start and end are given |
| CaseStore.NewHearing | Backend/server1.js:41-53 | keeps title, case id, start, end, parties, judge, case type, courtroom and description; priority defaults to "Medium", status to "Scheduled" |
| CaseStore.FindCase | Backend/server1.js:117-122 | a found index holds the id; none found means no case has it |
| CaseStore.ApplyPatch | Backend/server1.js:117-121 | the id is never changed |
| CaseStore.ApplyPatchFields | Backend/server1.js:117-121 | each of the nine fields: supplied overwrites, left out is kept |
| CaseStore.ApplyPatchMerges | Backend/server1.js:117-121 | an empty update is the identity; updates are idempotent |
| CaseStore.ApplyPatchSequential | Backend/server1.js:117-121 | two updates in a row equal one update by the merged body |
| CaseStore.FiledNoEarlierIsOrder | Backend/server1.js:142 | newest-first on filedDate is a total preorder |
| CaseStore.DeleteRemovesAtMostOne | Backend/server1.js:130-133 | with distinct ids a delete removes one case, or none if the id is absent |
| CaseStore.Store.constructor | Backend/server1.js:19-54 | the collections start empty and valid |
| CaseStore.Store.CreateCase | Backend/server1.js:94-111 | stores exactly when all fields are present and the number minted with the prefix as written is free; the stored case has that number, today's date and no next hearing; errors change nothing |
| CaseStore.Store.UpdateCase | Backend/server1.js:115-127 | unknown id → not found; a number another case carries → conflict; otherwise exactly that case is replaced by the merge |
| CaseStore.Store.DeleteCase | Backend/server1.js:130-137 | the cases become those with another id; hearings and users unchanged |
| CaseStore.Store.ListCases | Backend/server1.js:140-147 | a permutation of the cases, newest filedDate first |
| CaseStore.Store.CreateHearing | Backend/server1.js:160-168 | stores exactly when the required fields are present, with defaults; errors change nothing |
| CaseStore.Store.DeleteHearing | Backend/server1.js:170-177 | the hearings become those with another id; cases unchanged |
| CaseStore.Store.ListHearings | Backend/server1.js:151-158 | a permutation of the hearings, earliest start first |
| CaseStore.Store.Signup | Backend/server1.js:63-75 | a registered e-mail is refused first; otherwise the user is stored exactly when e-mail and password are non-empty |
| CaseStore.Store.Login | Backend/server1.js:77-89 | succeeds with "dummy-jwt-token" exactly when a user has this e-mail and password |
| CaseManagement.FilteredCases | src/pages/CaseManagement.jsx:124-145 | a case is shown exactly when both the sidebar and the search test keep it |
| CaseManagement.SidebarRules | src/pages/CaseManagement.jsx:127-133 | high/medium/low keep that priority, workable keeps "In Progress", archived keeps "Adjourned", others keep all |
| CaseManagement.SearchIgnoresOtherFields | src/pages/CaseManagement.jsx:136-141 | only title and case number are searched |
| CaseManagement.FilteredCasesIsSubsequence | src/pages/CaseManagement.jsx:124-145 | the filtered list keeps the case order |
| CaseManagement.FilteredCasesShowsAll | src/pages/CaseManagement.jsx:124-145 | "all" with an empty query shows every case |
| CaseManagement.FilteredCasesComposes | src/pages/CaseManagement.jsx:124-145 | the combined filter equals either filter after the other |
| CaseManagement.PriorityCount | src/pages/CaseManagement.jsx:322-356 | a count never exceeds the number of cases |
| CaseManagement.PriorityCountMatchesSidebar | src/pages/CaseManagement.jsx:322-356 | each count equals the length of the matching sidebar view |
| CaseManagement.PriorityCountsPartition | src/pages/CaseManagement.jsx:545-557 | the three counts add up to at most the total, and to the total when every priority is High/Medium/Low |
| CaseManagement.NewCaseRow | src/pages/CaseManagement.jsx:147-174 | a CTV/ number, category CMI, priority Medium, status Pending, today's date, no next hearing |
| CaseManagement.NewCaseRowFormat | src/pages/CaseManagement.jsx:149-165 | the new case number is CTV/year/six digits in range, and the id reads back as old length + 1 |
| CaseManagement.NewCaseCounts | src/pages/CaseManagement.jsx:162-176 | a new case raises the Medium count by one and leaves High and Low |
| CaseManagement.CaseManagementPage.constructor | src/pages/CaseManagement.jsx:115-118 | initial cases, empty search, sidebar "all", modal closed |
| CaseManagement.CaseManagementPage.SetSearchQuery | src/pages/CaseManagement.jsx:422 | the query becomes the typed text |
| CaseManagement.CaseManagementPage.SetSidebarFilter | src/pages/CaseManagement.jsx:285-376 | the sidebar filter becomes the chosen entry |
| CaseManagement.CaseManagementPage.SetNewCaseModal | src/pages/CaseManagement.jsx:299 | the modal opens or closes as asked |
| CaseManagement.CaseManagementPage.ClearSearchAndFilter | src/pages/CaseManagement.jsx:525-527 | empty query and "all", so every case is shown |
| CaseManagement.CaseManagementPage.CreateNewCase | src/pages/CaseManagement.jsx:148-178 | the new case is prepended, the rest unchanged, the modal closed |
| Schedule.EventColours | src/pages/SchedulePage.jsx:149-174 | one of the five colour pairs; grey exactly when "Completed" |
| Schedule.StyleOf | src/pages/SchedulePage.jsx:149-187 | the concrete background and "2px solid" border for completed, High, Medium, Low and any other priority |
| Schedule.EventColoursTable | src/pages/SchedulePage.jsx:149-174 | red/orange/green/blue by priority; grey exactly when "Completed" |
| Schedule.CompletedIgnoresPriority | src/pages/SchedulePage.jsx:171-174 | a completed hearing looks the same whatever its priority |
| Schedule.ParseParties | src/pages/SchedulePage.jsx:236 | every name is non-empty with no surrounding whitespace |
| Schedule.ParsePartiesKeepsOrder | src/pages/SchedulePage.jsx:236 | names come out in typed order, and every non-blank piece is kept |
| Schedule.ParsePartiesSingle | src/pages/SchedulePage.jsx:236 | text without a comma gives its trimmed self, or nothing if blank |
| Schedule.BlankForm | src/pages/SchedulePage.jsx:37-49 | a two-hour slot from now, empty title and case id, no parties |
| Schedule.EventFrom | src/pages/SchedulePage.jsx:233-238 | id, title, case id, slot and time stamp copied; every party name non-empty |
| Schedule.WithFormField | src/pages/SchedulePage.jsx:219-225 | a text field change never moves the slot |
| Schedule.WithFilter | src/pages/SchedulePage.jsx:202-208 | a filter change sets the named key and no other |
| Schedule.SchedulePage.constructor | src/pages/SchedulePage.jsx:24-48 | no events, the blank form, empty filters, modal closed |
| Schedule.SchedulePage.SelectSlot | src/pages/SchedulePage.jsx:193-200 | the slot's start and end go into the form, the modal opens |
| Schedule.SchedulePage.ChangeFormField | src/pages/SchedulePage.jsx:219-225 | only the named form field changes |
| Schedule.SchedulePage.ChangeFilter | src/pages/SchedulePage.jsx:202-208 | only the named filter key changes |
| Schedule.SchedulePage.ClearFilters | src/pages/SchedulePage.jsx:210-217 | all four filter keys become "" |
| Schedule.SchedulePage.ScheduleNewHearing | src/pages/SchedulePage.jsx:227-260 | schedules exactly when title and case id are non-empty: appends the event with id = old count + 1, resets the form, closes the modal; otherwise nothing changes |
| EarlySchedule.EventColoursIfChain | Backend/server.js:123-141 | the if/else chain colours every hearing as the later switch does |
| EarlySchedule.EarlyBlankForm | Backend/server.js:36-48 | a two-hour slot from now, and no event can be built from it |
| EarlySchedule.SplitParties | Backend/server.js:196 | commas + 1 names, each the trimmed piece |
| EarlySchedule.SplitPartiesBlankPieces | Backend/server.js:196 | a name is empty exactly when its piece was blank; the later parsing is this list without empty names |
| EarlySchedule.EmptyTextGivesOneEmptyName | Backend/server.js:196 | "" gives [""] here and [] in the later revision |
| EarlySchedule.EventToAdd | Backend/server.js:193-197 | an event exactly when parties is text, with id, title, case id and slot copied and commas + 1 names |
| EarlySchedule.WithEarlyFormField | Backend/server.js:184-190 | only the parties box changes parties, and it stores text |
| EarlySchedule.ScheduleAfterResetFails | Backend/server.js:203-215 | from the form as written, every edit sequence that skips the parties box leaves scheduling failing |
| EarlySchedule.FixedBlankForm | Backend/server.js:203-215 | the reset form as written with parties as empty text |
| EarlySchedule.FixedResetSchedules | Backend/server.js:203-215 | from the corrected reset, every edit sequence leaves scheduling succeeding |
| EarlySchedule.EarlySchedulePage.constructor | Backend/server.js:24-48 | no events, the form with `parties` as the empty list, empty filters, modal closed |
| EarlySchedule.EarlySchedulePage.SelectSlot | Backend/server.js:158-165 | the slot goes into the form, the modal opens, whatever `parties` holds |
| EarlySchedule.EarlySchedulePage.ChangeFormField | Backend/server.js:184-190 | only the named form field changes |
| EarlySchedule.EarlySchedulePage.ChangeFilter | Backend/server.js:167-173 | only the named filter key changes |
| EarlySchedule.EarlySchedulePage.ClearFilters | Backend/server.js:175-182 | all four filter keys become "" |
| EarlySchedule.EarlySchedulePage.ScheduleNewHearing | Backend/server.js:192-216 | schedules exactly when `parties` holds text: appends with id = old count + 1, resets to the list form, closes the modal; otherwise (the TypeError) nothing changes |
| Parties.FilteredParties | src/pages/Parties.jsx:113-130 | a party is shown exactly when it matches the search and all three selects |
| Parties.FilteredPartiesOrder | src/pages/Parties.jsx:113-130 | the list order is kept; after a reset every party is shown |
| Parties.PhoneSearchIsCaseSensitive | src/pages/Parties.jsx:115-118 | a name matches ignoring case, a phone only exactly |
| Parties.NewParty | src/pages/Parties.jsx:139-150 | the form's fields, 0 cases, "Active", no case numbers, the given id |
| Parties.TypeCount | src/pages/Parties.jsx:445 | a count never exceeds the number of parties |
| Parties.TypeCountsPartition | src/pages/Parties.jsx:445-457 | Individuals + Organizations is at most the total, and equals it when every type is one of the two |
| Parties.AddRaisesOwnTypeCount | src/pages/Parties.jsx:152 | adding raises its own type's count by one and leaves the others |
| Parties.DeleteRemovesExactlyTheId | src/pages/Parties.jsx:191 | every party with the id goes, the others stay in order |
| Parties.CsvFields | src/pages/Parties.jsx:168-176 | as many fields as header columns |
| Parties.WithPartyFilter | src/pages/Parties.jsx:277-309 | a select change sets that select and keeps the other two |
| Parties.WithPartyFormField | src/pages/Parties.jsx:487-541 | an input change sets that field and keeps the others |
| Parties.CsvLines | src/pages/Parties.jsx:166-177 | the header line, then one line per party in order |
| Parties.CsvText | src/pages/Parties.jsx:165-177 | splitting on line breaks gives at least one line per party plus the header |
| Parties.PlainLine | src/pages/Parties.jsx:166-177 | a party without commas or line breaks exports as one line that splits back into its fields |
| Parties.CsvReadsBack | src/pages/Parties.jsx:166-177 | such parties give parties + 1 lines, each splitting back into that party's fields |
| Parties.CommaInNameShiftsColumns | src/pages/Parties.jsx:166-177 | a comma in a name yields eight fields, shifting every later column |
| Parties.PartiesPage.constructor | src/pages/Parties.jsx:95-110 | initial parties, empty search, "all" filters, the blank form |
| Parties.PartiesPage.AddParty | src/pages/Parties.jsx:133-162 | adds exactly when name and e-mail are non-empty: appends with id = old length + 1, resets the form, closes the modal; otherwise nothing changes |
| Parties.PartiesPage.DeleteParty | src/pages/Parties.jsx:189-194 | confirmed: the parties become those with another id; declined: unchanged |
| Parties.PartiesPage.SetSearchTerm | src/pages/Parties.jsx:228 | the search term becomes the typed text |
| Parties.PartiesPage.ChangeFilter | src/pages/Parties.jsx:277-309 | the filters change in the named select only |
| Parties.PartiesPage.ChangeNewParty | src/pages/Parties.jsx:487-541 | the form changes in the named input only |
| Parties.PartiesPage.SetAddPartyModal | src/pages/Parties.jsx:248 | the modal opens or closes as asked |
| Parties.PartiesPage.Export | src/pages/Parties.jsx:165-177 | the CSV of the parties on show; when no field holds a comma or line break, one line per shown party that splits back into its fields |
| Parties.PartiesPage.ResetFilters | src/pages/Parties.jsx:202-209 | filters "all"/"all"/"all" and an empty search |
| AuthForm.Utf16Length | src/pages/Authpage.jsx:34 | between one and two code units per character |
| AuthForm.Utf16LengthBmp | src/pages/Authpage.jsx:34 | inside the Basic Multilingual Plane the length is the character count |
| AuthForm.AstralPasswordLength | src/pages/Authpage.jsx:34 | three emoji pass the six-character minimum, five letters do not |
| AuthForm.EmailPattern | src/pages/Authpage.jsx:28 | a match needs at least five characters |
| AuthForm.EmailMatchAt | src/pages/Authpage.jsx:28 | at a match the '@' and '.' differ and each `\S+` part has a non-space character |
| AuthForm.EmailError | src/pages/Authpage.jsx:26-30 | no error exactly when the e-mail is non-empty and matches the pattern |
| AuthForm.PasswordError | src/pages/Authpage.jsx:32-36 | no error exactly when the password is non-empty and has at least six code units |
| AuthForm.FormErrors | src/pages/Authpage.jsx:25-43 | an entry per failing check; name and confirmation only in signup mode |
| AuthForm.ValidIff | src/pages/Authpage.jsx:24-47 | no errors exactly when e-mail and password pass and, in signup, the name is not blank and the passwords agree |
| AuthForm.LoginChecksLess | src/pages/Authpage.jsx:38-43 | login ignores name and confirmation, and its errors are among signup's with the same messages |
| AuthForm.EmailMessages | src/pages/Authpage.jsx:26-30 | empty → "Email is required", pattern failure → "Email is invalid" |
| AuthForm.EmailPatternUnanchored | src/pages/Authpage.jsx:28 | text around a match still matches |
| AuthForm.EmailPatternNeedsAtAndDot | src/pages/Authpage.jsx:28 | a match needs an '@' and a '.' |
| AuthForm.EmailPatternExamples | src/pages/Authpage.jsx:28 | "a@b.c" and "x y@b.c" match; "a@b" and "a@.c" do not |
| AuthForm.WithAuthField | src/pages/Authpage.jsx:99 | the named field takes the value and no other field changes |
| AuthForm.ClearError | src/pages/Authpage.jsx:100 | same keys, the field's entry blank, every other entry unchanged |
| AuthForm.KeyCount | src/pages/Authpage.jsx:46 | zero exactly for the empty map |
| AuthForm.AuthPage.constructor | src/pages/Authpage.jsx:12-20 | login mode, blank fields, no errors |
| AuthForm.AuthPage.ValidateForm | src/pages/Authpage.jsx:24-47 | stores the error map of the current data and mode, and reports whether it is empty |
| AuthForm.AuthPage.HandleChange | src/pages/Authpage.jsx:97-101 | sets the named field and blanks that field's error |
| AuthForm.AuthPage.ToggleForm | src/pages/Authpage.jsx:103-107 | flips the mode, empties the errors, blanks all four fields |

## Left out

- Network and storage: Express routing, the HTTP status codes, the MongoDB connection, `fetch`, `localStorage`, `navigate`, `alert`, the `Blob` download and `mailto:`. Outcomes are modelled as results (ok, validation, conflict, not found, invalid credentials); a server crash (status 500) is not.
- The mock data loads (`setTimeout` in both schedule revisions). The schedule filter only triggers such a reload and is never applied to events, so no event filtering is modelled.
- Rendering, modals, routing and calendar display, including the event details modal and `moment` formatting.
- Text.ToLower: lower-cases ASCII letters only; JavaScript's `toLowerCase` also maps non-ASCII letters.
- CaseStore.Store.UpdateCase: a body with `null` or non-string values, unknown keys, or an ill-formed id is not modelled; a supplied field is a string (or, for `nextHearing`, a string or null).
- CaseStore.Store.Signup: an absent e-mail or password is modelled as the empty string; how the store's lookup treats an `undefined` e-mail (in Signup and Login) is not modelled.
- CaseStore.Store.CreateHearing: `end` after `start` is not checked, as in the code; `caseId` is not checked against any case.
- CaseStore.Store.CreateCase: `year` and `today` are independent inputs; the code takes the local year for the number and the UTC date for `filedDate`, which can differ around New Year.
- CaseNumbers.PrefixAsWritten: the text an inherited key renders to follows the V8 engine's `Function.prototype.toString`.
- Concurrency: two requests minting at once are modelled as two sequential calls.
- Mongo ObjectIds are naturals from one counter; their hex form and ordering are not modelled.

## Findings

| source | as written | input that shows it | evidently intended | confidence | as-written member | corrected member |
|---|---|---|---|---|---|---|
| Backend/server1.js:97-98 | `prefixes[category] \|\| 'CAS'` also finds the members every object inherits from `Object.prototype` | category "toString" gives a number starting "function toString() { [native code] }/" | any category outside the five table keys gets "CAS" | high, not executed | CaseNumbers.PrefixAsWrittenInheritedKey | CaseNumbers.Prefix |
| Backend/server.js:192-216 | the form starts (line 42) and is reset (line 209) with `parties: []`, and `handleScheduleNewHearing` calls `newEvent.parties.split` | schedule a hearing without typing in the parties box: `[].split` throws a TypeError and nothing is scheduled | `parties: ''`, as the later revision has it (src/pages/SchedulePage.jsx:250) | high, not executed | EarlySchedule.ScheduleAfterResetFails | EarlySchedule.FixedResetSchedules |
