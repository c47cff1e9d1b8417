/** The booking wizard of src/components/MainFeature.jsx as a state machine.

    A state holds the current step, the form, the error map and the two
    submission flags. A user action is an `Event`; it only has an effect
    when the control that fires it is on screen and enabled (`Enabled`):
    each step renders only its own fields, the time select is disabled
    until a date is chosen, step 3 shows the test select for a 'test'
    booking and the package select otherwise, Back appears from step 2 on,
    Continue below step 3, Confirm Booking at step 3 and disabled while a
    submission is pending, and nothing but the recap is shown once the
    booking is confirmed. The simulated submission is split in two events:
    `ConfirmBooking` starts it and `Settle` delivers its outcome. */
module BookingWizard {
  import opened Text
  import opened BookingForm

  datatype WizardState = WizardState(
    step: int,
    form: FormData,
    errors: Errors,
    isLoading: bool,
    isSubmitted: bool)

  /** The state the wizard opens in. */
  const Initial := WizardState(1, InitialForm, map[], false, false)

  datatype Event =
    | Edit(field: Field, value: string)   // an input's change handler
    | Continue                            // the Continue button
    | Back                                // the Back button
    | ConfirmBooking                      // the Confirm Booking button
    | Settle(succeeded: bool)             // the pending submission completes

  /** `nextStep`: advance by exactly one step when the current step
      validates; the error map is replaced by the validator's either way. */
  function NextStep(w: WizardState): (r: WizardState)
    ensures StepValid(w.form, w.step) ==> r.step == w.step + 1 && r.errors == map[]
    ensures !StepValid(w.form, w.step) ==> r.step == w.step && r.errors != map[]
    ensures r.errors == StepErrors(w.form, w.step)
    ensures r.form == w.form && r.isLoading == w.isLoading && r.isSubmitted == w.isSubmitted
  {
    var v := ValidateForm(w.form, w.step);
    if v.ok then w.(step := w.step + 1, errors := v.errors)
    else w.(errors := v.errors)
  }

  /** `prevStep`: go back one step, validating nothing and keeping every
      entered value and recorded error. */
  function PrevStep(w: WizardState): (r: WizardState)
    ensures r.step == w.step - 1
    ensures r.form == w.form && r.errors == w.errors
    ensures r.isLoading == w.isLoading && r.isSubmitted == w.isSubmitted
  {
    w.(step := w.step - 1)
  }

  /** `handleChange` on the wizard's state. */
  function ApplyEdit(w: WizardState, f: Field, v: string): (r: WizardState)
    ensures Get(r.form, f) == v
    ensures forall g :: g != f ==> Get(r.form, g) == Get(w.form, g)
    ensures !HasError(r.errors, f)
    ensures forall g :: g != f && g in w.errors ==> g in r.errors && r.errors[g] == w.errors[g]
    ensures r.errors.Keys == w.errors.Keys
    ensures !HasError(w.errors, f) ==> r.errors == w.errors
    ensures r.step == w.step && r.isLoading == w.isLoading && r.isSubmitted == w.isSubmitted
  {
    var (form, errors) := HandleChange(w.form, w.errors, f, v);
    w.(form := form, errors := errors)
  }

  /** `handleSubmit` up to its `await`: re-validate step 3, and only when it
      passes, mark a submission as pending. */
  function HandleSubmit(w: WizardState): (r: WizardState)
    ensures r.errors == StepErrors(w.form, 3)
    ensures StepValid(w.form, 3) ==> r.isLoading
    ensures !StepValid(w.form, 3) ==> r.isLoading == w.isLoading
    ensures r.step == w.step && r.form == w.form && r.isSubmitted == w.isSubmitted
  {
    var v := ValidateForm(w.form, 3);
    if v.ok then w.(errors := v.errors, isLoading := true)
    else w.(errors := v.errors)
  }

  /** `handleSubmit` after its `await`: the pending flag drops, and on
      success the booking is confirmed; the draft is kept on failure. */
  function SettleSubmit(w: WizardState, succeeded: bool): (r: WizardState)
    ensures !r.isLoading
    ensures r.isSubmitted <==> w.isSubmitted || succeeded
    ensures r.step == w.step && r.form == w.form && r.errors == w.errors
  {
    if succeeded then w.(isLoading := false, isSubmitted := true)
    else w.(isLoading := false)
  }

  /** Whether the control behind an event is rendered and enabled. */
  predicate Enabled(w: WizardState, e: Event) {
    match e
    case Edit(f, v) =>
      && !w.isSubmitted
      && f in StepFields(w.step)
      && (f == BookingType ==> v == "test" || v == "combo")
      && (f == SelectedTime ==> Truthy(w.form.selectedDate))
      && (f == SelectedTest ==> w.form.bookingType == "test")
      && (f == SelectedCombo ==> w.form.bookingType != "test")
    case Continue => !w.isSubmitted && w.step < 3
    case Back => !w.isSubmitted && w.step > 1
    case ConfirmBooking => !w.isSubmitted && w.step >= 3 && !w.isLoading
    case Settle(_) => w.isLoading
  }

  /** One user action; a control that is not there does nothing. */
  function Step(w: WizardState, e: Event): (r: WizardState)
    ensures !Enabled(w, e) ==> r == w
  {
    if !Enabled(w, e) then w
    else match e
      case Edit(f, v) => ApplyEdit(w, f, v)
      case Continue => NextStep(w)
      case Back => PrevStep(w)
      case ConfirmBooking => HandleSubmit(w)
      case Settle(ok) => SettleSubmit(w, ok)
  }

  /** A sequence of user actions, applied in order. */
  function Run(w: WizardState, es: seq<Event>): WizardState
    decreases |es|
  {
    if |es| == 0 then w else Run(Step(w, es[0]), es[1..])
  }

  /** The invariant of every reachable state: the step stays in 1..3, every
      step before the current one validates, the booking kind is one of the
      two offered, and a confirmed booking has nothing pending. */
  predicate Inv(w: WizardState) {
    && 1 <= w.step <= 3
    && (forall j :: 1 <= j < w.step ==> StepValid(w.form, j))
    && (w.form.bookingType == "test" || w.form.bookingType == "combo")
    && !(w.isLoading && w.isSubmitted)
  }

  lemma InitialInv()
    ensures Inv(Initial)
  {
  }

  /** Distinct steps render disjoint sets of fields. */
  lemma StepFieldsDisjoint(i: int, j: int)
    requires i != j
    ensures StepFields(i) !! StepFields(j)
  {
  }

  /** An edit keeps the invariant: it only touches a field of the current
      step, and no earlier step reads that field. */
  lemma EditPreservesInv(w: WizardState, f: Field, v: string)
    requires Inv(w)
    ensures Inv(Step(w, Edit(f, v)))
  {
    if Enabled(w, Edit(f, v)) {
      var r := Step(w, Edit(f, v));
      forall j | 1 <= j < r.step ensures StepValid(r.form, j) {
        StepFieldsDisjoint(j, w.step);
        StepValidFrame(w.form, f, v, j);
      }
    }
  }

  /** Continue keeps the invariant: it only advances past a step that
      validates. */
  lemma ContinuePreservesInv(w: WizardState)
    requires Inv(w)
    ensures Inv(Step(w, Continue))
  {
    if Enabled(w, Continue) {
      var r := Step(w, Continue);
      forall j | 1 <= j < r.step ensures StepValid(r.form, j) {
        if j == w.step {
          assert StepValid(w.form, w.step);
        }
      }
    }
  }

  /** Every enabled action keeps the invariant. */
  lemma StepPreservesInv(w: WizardState, e: Event)
    requires Inv(w)
    ensures Inv(Step(w, e))
  {
    match e
    case Edit(f, v) => EditPreservesInv(w, f, v);
    case Continue => ContinuePreservesInv(w);
    case Back =>
    case ConfirmBooking =>
    case Settle(_) =>
  }

  /** The invariant survives any sequence of actions. */
  lemma {:induction false} RunPreservesInv(w: WizardState, es: seq<Event>)
    requires Inv(w)
    ensures Inv(Run(w, es))
    decreases |es|
  {
    if |es| > 0 {
      StepPreservesInv(w, es[0]);
      RunPreservesInv(Step(w, es[0]), es[1..]);
    }
  }

  /** Every state reachable from the opened wizard satisfies the invariant:
      the step never leaves 1..3, and at step k every earlier step validates. */
  lemma ReachableStatesInv(es: seq<Event>)
    ensures Inv(Run(Initial, es))
    ensures 1 <= Run(Initial, es).step <= 3
    ensures forall j :: 1 <= j < Run(Initial, es).step ==> StepValid(Run(Initial, es).form, j)
  {
    InitialInv();
    RunPreservesInv(Initial, es);
  }

  /** A submission only starts on a draft that passes all three steps, and
      never while another is pending. */
  lemma SubmissionStartsOnlyWhenComplete(w: WizardState)
    requires Inv(w)
    ensures !w.isLoading && Step(w, ConfirmBooking).isLoading ==>
              forall j :: 1 <= j <= 3 ==> StepValid(w.form, j)
    ensures w.isLoading ==> Step(w, ConfirmBooking) == w
  {
  }

  /** Continue never moves a step whose validation reports an error. */
  lemma ContinueBlockedByErrors(w: WizardState)
    requires !StepValid(w.form, w.step)
    ensures Step(w, Continue).step == w.step
    ensures Step(w, Continue).form == w.form
  {
  }

  /** Back, then Continue again on an unchanged draft, returns to the step
      left: going back loses nothing. */
  lemma BackThenContinue(w: WizardState)
    requires Inv(w) && !w.isSubmitted && w.step > 1
    ensures var r := Step(Step(w, Back), Continue);
            r.step == w.step && r.form == w.form && r.errors == map[]
  {
    assert StepValid(w.form, w.step - 1);
  }

  /** A failed submission leaves the user on the same step with the draft
      intact, free to confirm again. */
  lemma FailedSubmissionKeepsDraft(w: WizardState)
    requires w.isLoading
    ensures var r := Step(w, Settle(false));
            r.step == w.step && r.form == w.form && !r.isLoading && r.isSubmitted == w.isSubmitted
  {
  }

  /** Back is not disabled while a submission is pending, so the draft can
      be edited before the outcome arrives: a booking can be confirmed with
      a date the user has since cleared. */
  lemma EditWhileSubmissionPending(w: WizardState)
    requires Inv(w) && w.step == 3 && !w.isLoading && !w.isSubmitted
    requires StepValid(w.form, 3)
    ensures var r := Run(w, [ConfirmBooking, Back, Edit(SelectedDate, ""), Settle(true)]);
            r.isSubmitted && r.step == 2 && !StepValid(r.form, 2)
  {
    var w1 := Step(w, ConfirmBooking);
    var w2 := Step(w1, Back);
    var w3 := Step(w2, Edit(SelectedDate, ""));
    var w4 := Step(w3, Settle(true));
    assert Run(w, [ConfirmBooking, Back, Edit(SelectedDate, ""), Settle(true)]) == w4 by {
      assert [ConfirmBooking, Back, Edit(SelectedDate, ""), Settle(true)][1..] == [Back, Edit(SelectedDate, ""), Settle(true)];
      assert [Back, Edit(SelectedDate, ""), Settle(true)][1..] == [Edit(SelectedDate, ""), Settle(true)];
      assert [Edit(SelectedDate, ""), Settle(true)][1..] == [Settle(true)];
    }
  }
}
