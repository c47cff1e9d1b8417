# Lab-test booking storefront: a Dafny model of its client-side logic

This project models the logic of a browser storefront for a pathology lab,
where users browse lab tests and combo packages and book an appointment
through a three-step wizard.

- **Booking wizard** (`src/components/MainFeature.jsx`). Three steps collect
  contact details, an appointment date and time, and a test or package.
  - `validateForm` checks the current step and replaces the error map.
  - `handleChange` edits one field and clears only that field's error.
  - `nextStep` / `prevStep` move between steps; the buttons that call them
    are shown only on some steps.
  - `handleSubmit` validates step 3, then runs a simulated submission.
  - `handleClose` asks for confirmation once contact data or a date is
    entered.
  - `calculatePrice` / `getSelectionName` look the selection up in the
    built-in catalog.
- **Home page category filter** (`src/pages/Home.jsx`).
- **Data services** (`src/services/*.js`). For tests, combo packages and
  bookings they build the query parameters for the hosted record store and
  unwrap its responses.
- **Authentication slice** (`src/store/slices/userSlice.js`): a three-action
  reducer.

Modules, one per source file plus shared ones:

| file | module | models |
|---|---|---|
| results.dfy | `Results` | `Option` (a JavaScript `undefined`/`null`), `Result` (a return or a throw) |
| text.dfy | `Text` | JavaScript white space, `trim`, string truthiness |
| patterns.dfy | `Patterns` | the e-mail regex `/\S+@\S+\.\S+/` and the phone regex `/^\d{10}$/` |
| booking_form.dfy | `BookingForm` | form data, `validateForm`, `handleChange`, the `handleClose` test |
| catalog.dfy | `Catalog` | the built-in catalog, `calculatePrice`, `getSelectionName` |
| wizard.dfy | `BookingWizard` | the step state machine, its UI guards, its reachable-state invariant |
| home.dfy | `Home` | `filteredTests` and the initial tab |
| record_store.dfy | `RecordStore` | query and response shapes shared by the services |
| lab_test_service.dfy, combo_package_service.dfy, booking_service.dfy | one per service | `where`/paging/ordering construction, record wrapping, response unwrapping |
| user_slice.dfy | `UserSlice` | `initialState`, `setUser`, `clearUser`, `setError` |

Modelling choices:

- **Strings.** A string is `seq<char>`, and a string is truthy exactly when
  it is non-empty. `trim` and the regex class `\s` use the ECMAScript
  WhiteSpace and LineTerminator characters, listed in `Text.IsSpace`.
- **E-mail test.** The regex is unanchored. `Patterns.EmailRegexMatches`
  states its meaning with four indices. The validator uses the equivalent
  test `IsEmailLike`: a non-space, `@`, a run of non-space, `.`, a
  non-space. `EmailTestMatchesRegex` proves the two agree.
- **Wizard.** The wizard is a value of type `WizardState`, and a user action
  is an `Event`. An event does something only when its control is rendered
  and enabled (`Enabled`):
  - each step renders its own fields only (lines 704-706);
  - the time select is disabled while no date is chosen (line 339);
  - step 3 renders the test select for a 'test' booking and the package
    select otherwise (line 408);
  - Back is shown from step 2 (line 709);
  - Continue is shown below step 3, Confirm Booking from step 3 (line 721);
  - Confirm Booking is disabled while a submission is pending (line 733);
  - after confirmation only the recap is shown (line 686).
- **Submission.** The simulated submission is two events: `ConfirmBooking`
  validates and sets `isLoading`; `Settle(ok)` delivers the outcome.
- **Record store.** The client is a function parameter that maps the
  parameters sent to a reply. A reply is either a thrown error, which the
  services rethrow unchanged, or a returned value that may be null.
- **Prices** are integer cents.

Behaviour of the code worth knowing:

- Choosing a date installs the same fixed list of time slots whatever the
  date, and never clears a time already chosen.
- The date input's `min`/`max` are HTML attributes only; validation does not
  check the date's range.
- A failed submission leaves the user on the step they are on. Back is not
  disabled while a submission is pending
  (`BookingWizard.EditWhileSubmissionPending`).
- The wizard's submission is a timer. It does not call `createBooking`, so
  the wizard never sets a `status`. The timer never rejects, so the `catch`
  at lines 134-138 is reached only if the success path itself throws;
  `Settle(false)` stands for such a failure, which the code as written does
  not produce.
- The close button is available in every state, including while a submission
  is pending.

## Model

| member | source | states |
|---|---|---|
| Text.Trim | src/components/MainFeature.jsx:70-81 | `trim` returns the slice of the input between its leading and trailing white space; both ends of a non-empty result are non-space; the result is empty exactly when the input is all white space |
| Text.TrimIdempotent | src/components/MainFeature.jsx:70-81 | trimming a trimmed string changes nothing |
| Patterns.EmailTestMatchesRegex | src/components/MainFeature.jsx:73 | the executable e-mail test accepts exactly the strings that contain a match of `\S+@\S+\.\S+` anywhere |
| Patterns.EmailNeedsAtAndDot | src/components/MainFeature.jsx:73 | an accepted e-mail contains an `@` and a `.` |
| Patterns.EmailLikeNotBlank | src/components/MainFeature.jsx:71-75 | an accepted e-mail is never blank, so "required" and "invalid" never both apply |
| Patterns.EmailExamples | src/components/MainFeature.jsx:73 | "john@example.com" passes; "john@" and "johnexample.com" fail |
| Patterns.TenDigitsNotBlank | src/components/MainFeature.jsx:76-80 | a ten-digit phone is never blank |
| Patterns.PhoneExamples | src/components/MainFeature.jsx:78 | "1234567890" passes; " 1234567890", "123-456-7890" and "12345" fail, since the untrimmed string must be exactly ten ASCII digits |
| BookingForm.Set | src/components/MainFeature.jsx:104-107 | a field edit sets that field to the value and leaves every other field as it was |
| BookingForm.FieldErrorOnItsStep | src/components/MainFeature.jsx:66-95 | a field only draws a message at the step that renders it, and every message is non-empty |
| BookingForm.StepErrors | src/components/MainFeature.jsx:66-96 | the new error map holds exactly the fields whose rule fails at that step; it has no other keys, and every entry is a truthy message |
| BookingForm.StepOneRules | src/components/MainFeature.jsx:69-82 | at step 1, name and address are flagged exactly when blank after trim; e-mail is flagged "required" when blank, otherwise "invalid" when the regex fails; phone is flagged "required" when blank, otherwise "must be 10 digits" unless exactly ten digits |
| BookingForm.LaterStepRules | src/components/MainFeature.jsx:84-95 | step 2 flags exactly an empty date and an empty time; step 3 flags the test only for a 'test' booking with none selected, and the package only for a 'combo' booking with none selected; any other step flags nothing |
| BookingForm.NoFieldErrorIffValid | src/components/MainFeature.jsx:66-98 | no field draws a message exactly when the step's rules all hold |
| BookingForm.ValidateForm | src/components/MainFeature.jsx:97-98 | the whole error map is replaced; the result is true exactly when the step's rules hold, which is exactly when the new map is empty |
| BookingForm.StepValidFrame | src/components/MainFeature.jsx:66-95 | whether a step validates depends only on the fields that step renders |
| BookingForm.HandleChange | src/components/MainFeature.jsx:102-116 | the edited field takes the value, and no other field changes; a truthy error on that field becomes null; without one the error map is unchanged; keys and other entries are always kept |
| BookingForm.CloseConfirmationFields | src/components/MainFeature.jsx:156-168 | closing asks for confirmation exactly when one of name, e-mail, phone, address or date is non-empty (untrimmed); edits to any other field never change that |
| BookingForm.CloseConfirmationExamples | src/components/MainFeature.jsx:156-168 | the fresh form closes without asking; a single space in the name makes it ask; additional info alone does not |
| Catalog.FindIndex | src/components/MainFeature.jsx:193 | the position found is the first entry with the id, or past the end when no entry has it |
| Catalog.Find | src/components/MainFeature.jsx:193-197 | `find` yields nothing exactly when no entry has the id; otherwise it yields the first entry with that id |
| Catalog.SelectedItem | src/components/MainFeature.jsx:191-199 | the lookup uses the catalog of the active booking kind and that kind's selection, and finds the first entry carrying the selected id, as `find` does; an empty selection or a kind other than 'test'/'combo' finds nothing; an unmatched id finds nothing |
| Catalog.CalculatePrice | src/components/MainFeature.jsx:191-200 | the price of the selected entry, or 0 when nothing is selected or the id is unknown |
| Catalog.GetSelectionName | src/components/MainFeature.jsx:203-212 | the name of the selected entry, or '' when nothing is selected or the id is unknown |
| Catalog.InactiveSelectionIgnored | src/components/MainFeature.jsx:191-211 | changing the selection of the inactive kind never changes the lookup; an unknown kind prices 0 with an empty name |
| Catalog.LookupFindsUniqueEntry | src/components/MainFeature.jsx:193 | in a catalog with distinct ids, looking up an entry's id returns that entry |
| Catalog.KnownTestResolves | src/components/MainFeature.jsx:41-48 | selecting test 'cbc' prices 2599 cents, named "Complete Blood Count (CBC)" |
| Catalog.KnownComboResolves | src/components/MainFeature.jsx:50-54 | selecting package 'senior' prices 12999 cents |
| Catalog.UnknownOrEmptySelectionIsFree | src/components/MainFeature.jsx:191-200 | an unknown test id and an empty selection both price 0 |
| BookingWizard.NextStep | src/components/MainFeature.jsx:142-146 | the step goes up by exactly 1 when the current step validates; the error map is then empty; otherwise the step stays and the error map is non-empty; the form never changes |
| BookingWizard.PrevStep | src/components/MainFeature.jsx:149-151 | the step goes down by 1 without validation; the form, errors and flags are kept |
| BookingWizard.ApplyEdit | src/components/MainFeature.jsx:102-116 | an edit in the wizard sets one field and clears that field's error without adding or removing any error key; other fields, other errors, the step and the flags are unchanged, and with no truthy error on the field the error map is kept as it is |
| BookingWizard.HandleSubmit | src/components/MainFeature.jsx:119-122 | submission re-validates step 3 and installs its errors; `isLoading` is set only if step 3 passes; step, form and `isSubmitted` are untouched |
| BookingWizard.SettleSubmit | src/components/MainFeature.jsx:124-138 | when the submission settles, `isLoading` drops; success sets `isSubmitted`; the step, the draft and the errors are kept either way |
| BookingWizard.Step | src/components/MainFeature.jsx:704-733 | an action whose control is not rendered or is disabled (including the time select before a date is chosen, line 339, and the step-3 select of the booking kind not chosen, line 408) leaves the state unchanged |
| BookingWizard.InitialInv | src/components/MainFeature.jsx:22-37 | the opened wizard (step 1, fresh form, no errors, nothing pending) satisfies the invariant |
| BookingWizard.StepFieldsDisjoint | src/components/MainFeature.jsx:704-706 | different steps render disjoint sets of fields |
| BookingWizard.EditPreservesInv | src/components/MainFeature.jsx:102-116 | an edit through a rendered control keeps the invariant: it changes only a field of the current step, so every earlier step still validates and the booking kind stays 'test' or 'combo' |
| BookingWizard.ContinuePreservesInv | src/components/MainFeature.jsx:142-147 | Continue keeps the invariant: it advances only past a step that validates, and never beyond step 3 |
| BookingWizard.StepPreservesInv | src/components/MainFeature.jsx:704-733 | every action keeps the invariant: step in 1..3; every earlier step validates; booking kind is 'test' or 'combo'; never pending and confirmed at once |
| BookingWizard.RunPreservesInv | src/components/MainFeature.jsx:704-733 | any sequence of actions keeps the invariant |
| BookingWizard.ReachableStatesInv | src/components/MainFeature.jsx:142-151 | in every reachable state the step is in 1..3, and at step k every step j < k validates |
| BookingWizard.SubmissionStartsOnlyWhenComplete | src/components/MainFeature.jsx:119-122 | a submission starts only on a draft that passes all three steps, and never while another is pending |
| BookingWizard.ContinueBlockedByErrors | src/components/MainFeature.jsx:142-146 | Continue on a step that fails validation leaves the step and the form unchanged |
| BookingWizard.BackThenContinue | src/components/MainFeature.jsx:142-151 | Back then Continue on an unchanged draft returns to the same step with the same data and no errors |
| BookingWizard.FailedSubmissionKeepsDraft | src/components/MainFeature.jsx:134-138 | a failed submission keeps the step and the draft and clears the pending flag; the timer as written never fails, so this is the `catch` path only |
| BookingWizard.EditWhileSubmissionPending | src/components/MainFeature.jsx:709-716 | Back stays enabled while a submission is pending; a booking can be confirmed after its date was cleared on step 2 |
| Home.InCategory | src/pages/Home.jsx:84 | the result has only tests of the tab's category, and has every input test of that category as many times as the input has it; it is no longer than the input |
| Home.FilteredTests | src/pages/Home.jsx:82-84 | the 'all' tab yields the input list itself; any other tab yields only tests of that category, each as many times as the input has it |
| Home.InCategoryIsSubsequence | src/pages/Home.jsx:84 | the category filter keeps the input order |
| Home.FilteredIsSubsequence | src/pages/Home.jsx:82-84 | the tests shown are an order-preserving subsequence of the loaded tests, so never more of them |
| Home.SubsequenceNoLonger | src/pages/Home.jsx:82-84 | a subsequence is never longer than the sequence it is drawn from |
| Home.InitialTabShowsAll | src/pages/Home.jsx:7 | the page opens on 'all', which shows every test |
| RecordStore.PagingOf | src/services/labTestService.js:18 | `limit` defaults to 20 and `offset` to 0 only when absent; supplied values pass through |
| RecordStore.Single | src/services/labTestService.js:81-83 | create and update send exactly one record, the given one |
| RecordStore.UnwrapList | src/services/labTestService.js:44 | a list read returns the response data, or an empty list when the response or its data is missing; a client error is rethrown unchanged |
| RecordStore.UnwrapItem | src/services/labTestService.js:65 | a read by id returns the data, or null when it is missing; a client error is rethrown |
| RecordStore.UnwrapMutation | src/services/labTestService.js:87-91 | create/update succeed exactly when the response reports success with a non-empty result list, returning the first result's data; they fail with the service's message otherwise, or rethrow the client's error |
| RecordStore.EmptyResultsRejected | src/services/labTestService.js:87 | a reported success with no results still fails |
| LabTestService.LabTestWhere | src/services/labTestService.js:21-34 | the `where` list starts with IsDeleted = false and has 1 to 3 conditions; a category condition appears exactly for a truthy category other than 'all', right after the first; a Name-contains condition appears exactly for a truthy search, last; nothing else appears |
| LabTestService.LabTestQuery | src/services/labTestService.js:36-41 | the query orders by Name ascending, pages with limit 20 and offset 0 when absent, and carries the lab-test fields |
| LabTestService.FetchLabTests | src/services/labTestService.js:15-49 | fetch fails exactly when the client throws, with the client's error unchanged; a non-empty result is the store's data; an empty one means the store returned no data or an empty list |
| LabTestService.GetLabTestById | src/services/labTestService.js:56-70 | get-by-id fails exactly when the client throws, with the client's error unchanged; it returns the store's record, or null when there is none |
| LabTestService.CreateLabTest | src/services/labTestService.js:77-96 | create succeeds exactly when the store accepts the single record, returning the first result's data; a refused response fails with "Failed to create lab test", and a client exception is rethrown unchanged |
| LabTestService.UpdateLabTest | src/services/labTestService.js:103-122 | update succeeds exactly when the store accepts the single record, returning the first result's data; a refused response fails with "Failed to update lab test", and a client exception is rethrown unchanged |
| LabTestService.AllCategoryIsNoFilter | src/services/labTestService.js:27 | category 'all' and an empty category build the same filter as no category |
| LabTestService.BothFiltersInOrder | src/services/labTestService.js:21-34 | with both filters given, the list is exactly not-deleted, category, search |
| ComboPackageService.ComboWhere | src/services/comboPackageService.js:20-28 | the `where` list starts with IsDeleted = false; it has a second, Name-contains condition exactly for a truthy search; it never has a category condition |
| ComboPackageService.ComboQuery | src/services/comboPackageService.js:30-38 | the query orders by Name ascending, pages with 20/0 when absent, and carries the package fields |
| ComboPackageService.FetchComboPackages | src/services/comboPackageService.js:14-46 | fetch fails exactly when the client throws, with the client's error unchanged; it returns the store's data or an empty list |
| ComboPackageService.GetComboPackageById | src/services/comboPackageService.js:53-70 | get-by-id fails exactly when the client throws, with the client's error unchanged; it returns the record or null |
| ComboPackageService.CreateComboPackage | src/services/comboPackageService.js:77-96 | create sends exactly the given package; it succeeds exactly when the store accepts it, returning the first result's data; a refused response fails with "Failed to create combo package", and a client exception is rethrown unchanged |
| ComboPackageService.UpdateComboPackage | src/services/comboPackageService.js:103-122 | update sends exactly the given package and succeeds exactly when the store accepts it; a refused response fails with "Failed to update combo package", and a client exception is rethrown unchanged |
| BookingService.BookingWhere | src/services/bookingService.js:21-34 | the `where` list starts with IsDeleted = false; a status condition follows exactly for a truthy status; an email condition comes last exactly for a truthy email |
| BookingService.BookingQuery | src/services/bookingService.js:36-57 | the query orders by selectedDate descending, pages with 20/0 when absent, and carries the booking fields and catalog expands |
| BookingService.FetchBookings | src/services/bookingService.js:15-65 | fetch fails exactly when the client throws, with the client's error unchanged; it returns the store's data or an empty list |
| BookingService.GetBookingById | src/services/bookingService.js:72-102 | get-by-id fails exactly when the client throws, with the client's error unchanged; it returns the record or null |
| BookingService.WithDefaultStatus | src/services/bookingService.js:114-116 | a falsy status (absent or '') becomes 'pending'; a truthy one and every other field are kept; the result always has a truthy status |
| BookingService.DefaultStatusIdempotent | src/services/bookingService.js:114-116 | defaulting the status twice is defaulting it once |
| BookingService.CreateBooking | src/services/bookingService.js:109-133 | create sends the one status-defaulted booking; it succeeds exactly when the store accepts it, returning the first result's data; a refused response fails with "Failed to create booking", and a client exception is rethrown unchanged |
| BookingService.CreateSendsDefaultedBooking | src/services/bookingService.js:114-120 | the one record sent keeps the booking's fields and has a truthy status; an empty status is sent as 'pending' |
| UserSlice.InitialState | src/store/slices/userSlice.js:6-11 | the initial state has no user, is not authenticated, is not loading and has no error |
| UserSlice.Reduce | src/store/slices/userSlice.js:20-36 | setUser stores the payload and authenticates, clearing loading and error; clearUser yields exactly the initial state; setError stores the error and clears loading, keeping user and authentication |
| UserSlice.ClearUserIdempotent | src/store/slices/userSlice.js:27-32 | clearing twice is clearing once |
| UserSlice.DispatchKeepsConsistent | src/store/slices/userSlice.js:20-36 | any sequence of actions keeps `loading` false, and keeps "not authenticated implies no user" |
| UserSlice.DispatchSnoc | src/store/slices/userSlice.js:20-36 | dispatching one more action is reducing the previous result by it |
| UserSlice.AuthenticatedIffLastWasSetUser | src/store/slices/userSlice.js:20-36 | from the initial state, the user is authenticated exactly when the most recent setUser/clearUser was a setUser |
| UserSlice.ReachableConsistent | src/store/slices/userSlice.js:6-36 | every reachable state has `loading` false and no user unless authenticated |

## Left out

- Rendering is not modelled: JSX markup, animation, icons, toasts and console logging. Only the guards that decide which controls exist are kept, in `BookingWizard.Enabled`.
- The step-3 markup around `src/components/MainFeature.jsx:417-560` is not modelled. It refers to undefined loading and error variables, so there is nothing coherent to model.
- `getUpdatedSelectionName` / `getUpdatedPrice` are not modelled. They compare `Id` with `==` against entries keyed by `id`, so in this code they always yield '' / 0, and modelling them would mean modelling JavaScript loose equality.
- `getCurrentDate` / `getMaxDate` are not modelled. They read the clock, and the window they compute is only an HTML `min`/`max`; validation never checks it.
- The time-slot effect is not modelled. Whenever a date is set, it installs a constant list of seven slots; it never clears `selectedTime`, and validation does not consult the list.
- The 1.5-second timer inside `handleSubmit` is not modelled. Its outcome is the abstract `Settle(succeeded)` event, and the wizard does not send the booking anywhere.
- Floating-point prices and `toFixed(2)` are not modelled. Prices are integer cents.
- The record-store client is not modelled: the SDK behind `getApperClient`, `window.ApperSDK` and environment variables. The services receive the client as a function parameter; only the parameters they build and the responses they read are modelled.
- The table name and the `fields` lists are modelled only as constants; nothing is proved about them.
- `createBooking` mutates the caller's object when it sets `status`. The model returns a new value instead, so that side effect on the caller is not represented.
- An explicit `null` for `limit` or `offset` is not modelled. Destructuring defaults replace only `undefined`, and the model's `None` stands for an absent option.
- `setUser`'s `JSON.parse(JSON.stringify(...))` copy is modelled as a value copy. What that round trip does to non-JSON values (functions, dates, `undefined`) is not modelled.
- JavaScript strings are UTF-16 code units; the model's characters are Unicode scalar values. Surrogate pairs are not modelled.
- These files are not modelled because they are routing, SDK or theming wiring with no logic of their own: Login, Signup, App (dark mode, local storage), main, the store set-up, NotFound, ProtectedRoute and PublicRoute.
