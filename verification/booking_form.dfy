/** The booking wizard's form data, its per-step validator (`validateForm`),
    the field-edit rule (`handleChange`) and the close-confirmation test
    (`handleClose`), all in src/components/MainFeature.jsx. */
module BookingForm {
  import opened Results
  import opened Text
  import opened Patterns

  /** The names of the form's inputs; they double as the keys of the error map. */
  datatype Field =
    | Name | Email | Phone | Address
    | SelectedDate | SelectedTime
    | BookingType | SelectedTest | SelectedCombo | AdditionalInfo

  /** Every form value is a string, as the inputs deliver them. */
  datatype FormData = FormData(
    name: string, email: string, phone: string, address: string,
    selectedDate: string, selectedTime: string,
    bookingType: string, selectedTest: string, selectedCombo: string,
    additionalInfo: string)

  /** The form as the wizard opens it: every field empty, booking a single test. */
  const InitialForm := FormData("", "", "", "", "", "", "test", "", "", "")

  function Get(d: FormData, f: Field): string {
    match f
    case Name => d.name
    case Email => d.email
    case Phone => d.phone
    case Address => d.address
    case SelectedDate => d.selectedDate
    case SelectedTime => d.selectedTime
    case BookingType => d.bookingType
    case SelectedTest => d.selectedTest
    case SelectedCombo => d.selectedCombo
    case AdditionalInfo => d.additionalInfo
  }

  /** `{...prev, [name]: value}`. */
  function Set(d: FormData, f: Field, v: string): (r: FormData)
    ensures Get(r, f) == v
    ensures forall g :: g != f ==> Get(r, g) == Get(d, g)
  {
    match f
    case Name => d.(name := v)
    case Email => d.(email := v)
    case Phone => d.(phone := v)
    case Address => d.(address := v)
    case SelectedDate => d.(selectedDate := v)
    case SelectedTime => d.(selectedTime := v)
    case BookingType => d.(bookingType := v)
    case SelectedTest => d.(selectedTest := v)
    case SelectedCombo => d.(selectedCombo := v)
    case AdditionalInfo => d.(additionalInfo := v)
  }

  /** The error map: a field name to its message. `handleChange` writes
      `null` (here `None`) over a message rather than deleting the key. */
  type Errors = map<Field, Option<string>>

  /** `errors[name]` is truthy: a non-empty message is recorded. */
  predicate HasError(errs: Errors, f: Field) {
    f in errs && errs[f].Some? && Truthy(errs[f].value)
  }

  const NameRequired := "Name is required"
  const EmailRequired := "Email is required"
  const EmailInvalid := "Email is invalid"
  const PhoneRequired := "Phone is required"
  const PhoneInvalid := "Phone number must be 10 digits"
  const AddressRequired := "Address is required"
  const DateRequired := "Date is required"
  const TimeRequired := "Time is required"
  const TestRequired := "Please select a test"
  const ComboRequired := "Please select a package"

  /** The fields each step renders, and so the only ones a user can edit there. */
  function StepFields(step: int): set<Field> {
    if step == 1 then {Name, Email, Phone, Address}
    else if step == 2 then {SelectedDate, SelectedTime}
    else if step == 3 then {BookingType, SelectedTest, SelectedCombo, AdditionalInfo}
    else {}
  }

  /** What a step requires of the form, field by field: the reference the
      validator is proved against. */
  predicate StepValid(d: FormData, step: int) {
    if step == 1 then
      && !IsBlank(d.name)
      && !IsBlank(d.email) && IsEmailLike(d.email)
      && !IsBlank(d.phone) && IsTenDigits(d.phone)
      && !IsBlank(d.address)
    else if step == 2 then
      Truthy(d.selectedDate) && Truthy(d.selectedTime)
    else if step == 3 then
      && (d.bookingType == "test" ==> Truthy(d.selectedTest))
      && (d.bookingType == "combo" ==> Truthy(d.selectedCombo))
    else
      true
  }

  /** The messages a single field draws at a given step, if any, in the
      order the validator tests its rules. */
  function FieldError(d: FormData, step: int, f: Field): Option<string> {
    match f
    case Name =>
      if step == 1 && IsBlank(d.name) then Some(NameRequired) else None
    case Email =>
      if step != 1 then None
      else if IsBlank(d.email) then Some(EmailRequired)
      else if !IsEmailLike(d.email) then Some(EmailInvalid)
      else None
    case Phone =>
      if step != 1 then None
      else if IsBlank(d.phone) then Some(PhoneRequired)
      else if !IsTenDigits(d.phone) then Some(PhoneInvalid)
      else None
    case Address =>
      if step == 1 && IsBlank(d.address) then Some(AddressRequired) else None
    case SelectedDate =>
      if step == 2 && !Truthy(d.selectedDate) then Some(DateRequired) else None
    case SelectedTime =>
      if step == 2 && !Truthy(d.selectedTime) then Some(TimeRequired) else None
    case SelectedTest =>
      if step == 3 && d.bookingType == "test" && !Truthy(d.selectedTest) then Some(TestRequired) else None
    case SelectedCombo =>
      if step == 3 && d.bookingType == "combo" && !Truthy(d.selectedCombo) then Some(ComboRequired) else None
    case BookingType => None
    case AdditionalInfo => None
  }

  const AllFields := {Name, Email, Phone, Address, SelectedDate, SelectedTime,
                      BookingType, SelectedTest, SelectedCombo, AdditionalInfo}

  /** A field draws a message only at the step that renders it. */
  lemma FieldErrorOnItsStep(d: FormData, step: int, f: Field)
    ensures FieldError(d, step, f).Some? ==> f in StepFields(step)
    ensures FieldError(d, step, f).Some? ==> Truthy(FieldError(d, step, f).value)
  {
  }

  /** The `newErrors` object `validateForm(step)` builds: a fresh map holding
      one message per failing field of `step`, and nothing else. */
  function StepErrors(d: FormData, step: int): (errs: Errors)
    ensures forall f :: f in errs <==> FieldError(d, step, f).Some?
    ensures forall f :: f in errs ==> errs[f] == FieldError(d, step, f)
    ensures errs.Keys <= StepFields(step)
    ensures forall f :: f in errs ==> HasError(errs, f)
  {
    var errs := map f | f in AllFields && FieldError(d, step, f).Some? :: FieldError(d, step, f);
    assert forall f :: f in errs ==> f in StepFields(step) && HasError(errs, f) by {
      forall f | f in errs ensures f in StepFields(step) && HasError(errs, f) {
        FieldErrorOnItsStep(d, step, f);
      }
    }
    errs
  }

  /** A field of step 1 is flagged exactly when its rule fails, with the
      message for the first rule that fails. */
  lemma StepOneRules(d: FormData)
    ensures Name in StepErrors(d, 1) <==> IsBlank(d.name)
    ensures Address in StepErrors(d, 1) <==> IsBlank(d.address)
    ensures Email in StepErrors(d, 1) <==> IsBlank(d.email) || !IsEmailLike(d.email)
    ensures IsBlank(d.email) ==> StepErrors(d, 1)[Email] == Some(EmailRequired)
    ensures !IsBlank(d.email) && !IsEmailLike(d.email) ==> StepErrors(d, 1)[Email] == Some(EmailInvalid)
    ensures Phone in StepErrors(d, 1) <==> IsBlank(d.phone) || !IsTenDigits(d.phone)
    ensures IsBlank(d.phone) ==> StepErrors(d, 1)[Phone] == Some(PhoneRequired)
    ensures !IsBlank(d.phone) && !IsTenDigits(d.phone) ==> StepErrors(d, 1)[Phone] == Some(PhoneInvalid)
    ensures StepErrors(d, 1).Keys <= {Name, Email, Phone, Address}
  {
  }

  /** Step 2 flags exactly an empty date and an empty time; step 3 flags the
      selection of the active booking kind only; other steps flag nothing. */
  lemma LaterStepRules(d: FormData, step: int)
    ensures SelectedDate in StepErrors(d, 2) <==> !Truthy(d.selectedDate)
    ensures SelectedTime in StepErrors(d, 2) <==> !Truthy(d.selectedTime)
    ensures StepErrors(d, 2).Keys <= {SelectedDate, SelectedTime}
    ensures SelectedTest in StepErrors(d, 3) <==> d.bookingType == "test" && !Truthy(d.selectedTest)
    ensures SelectedCombo in StepErrors(d, 3) <==> d.bookingType == "combo" && !Truthy(d.selectedCombo)
    ensures StepErrors(d, 3).Keys <= {SelectedTest, SelectedCombo}
    ensures step !in {1, 2, 3} ==> StepErrors(d, step) == map[]
  {
    if step !in {1, 2, 3} {
      assert StepErrors(d, step).Keys == {};
    }
  }

  /** `validateForm(step)`: the error map it installs and the value it returns. */
  datatype Validation = Validation(errors: Errors, ok: bool)

  /** No field draws a message: the eight fields with rules, one by one. */
  predicate NoListedError(d: FormData, step: int) {
    && FieldError(d, step, Name).None? && FieldError(d, step, Email).None?
    && FieldError(d, step, Phone).None? && FieldError(d, step, Address).None?
    && FieldError(d, step, SelectedDate).None? && FieldError(d, step, SelectedTime).None?
    && FieldError(d, step, SelectedTest).None? && FieldError(d, step, SelectedCombo).None?
  }

  lemma NoFieldErrorIffListed(d: FormData, step: int)
    ensures (forall f :: FieldError(d, step, f).None?) <==> NoListedError(d, step)
  {
    if NoListedError(d, step) {
      forall f ensures FieldError(d, step, f).None? {
        match f
        case BookingType =>
        case AdditionalInfo =>
        case _ =>
      }
    }
  }

  lemma NameRule(d: FormData)
    ensures FieldError(d, 1, Name).None? <==> !IsBlank(d.name)
  {
  }

  lemma EmailRule(d: FormData)
    ensures FieldError(d, 1, Email).None? <==> !IsBlank(d.email) && IsEmailLike(d.email)
  {
  }

  lemma PhoneRule(d: FormData)
    ensures FieldError(d, 1, Phone).None? <==> !IsBlank(d.phone) && IsTenDigits(d.phone)
  {
  }

  lemma AddressRule(d: FormData)
    ensures FieldError(d, 1, Address).None? <==> !IsBlank(d.address)
  {
  }

  lemma StepOneNoErrorIffValid(d: FormData)
    ensures NoListedError(d, 1) <==> StepValid(d, 1)
  {
    NameRule(d);
    EmailRule(d);
    PhoneRule(d);
    AddressRule(d);
  }

  /** No field draws a message exactly when the step's rules all hold. */
  lemma NoFieldErrorIffValid(d: FormData, step: int)
    ensures (forall f :: FieldError(d, step, f).None?) <==> StepValid(d, step)
  {
    NoFieldErrorIffListed(d, step);
    if step == 1 {
      StepOneNoErrorIffValid(d);
    }
  }

  /** `validateForm(step)` returns true exactly when the step's rules all hold,
      and the map it installs is then empty. */
  function ValidateForm(d: FormData, step: int): (r: Validation)
    ensures r.errors == StepErrors(d, step)
    ensures r.ok <==> StepValid(d, step)
    ensures r.ok <==> r.errors == map[]
  {
    var errs := StepErrors(d, step);
    NoFieldErrorIffValid(d, step);
    assert errs == map[] <==> forall f :: f !in errs;
    Validation(errs, |errs| == 0)
  }

  /** Validity of a step depends only on the fields that step renders. */
  lemma StepValidFrame(d: FormData, f: Field, v: string, step: int)
    requires f !in StepFields(step)
    ensures StepValid(Set(d, f, v), step) <==> StepValid(d, step)
  {
  }

  /** `handleChange`: the edited field takes the new value, and its error,
      if a truthy one was recorded, is overwritten with `null`. */
  function HandleChange(d: FormData, errs: Errors, f: Field, v: string): (r: (FormData, Errors))
    ensures Get(r.0, f) == v
    ensures forall g :: g != f ==> Get(r.0, g) == Get(d, g)
    ensures !HasError(r.1, f)
    ensures HasError(errs, f) ==> f in r.1 && r.1[f] == None
    ensures !HasError(errs, f) ==> r.1 == errs
    ensures r.1.Keys == errs.Keys
    ensures forall g :: g != f && g in errs ==> r.1[g] == errs[g]
  {
    (Set(d, f, v), if HasError(errs, f) then errs[f := None] else errs)
  }

  /** The fields whose content makes closing the wizard ask for confirmation. */
  const CloseGuardFields := {Name, Email, Phone, Address, SelectedDate}

  /** `handleClose` asks before discarding exactly when one of name, e-mail,
      phone, address or date is non-empty; no trim is applied. */
  predicate NeedsCloseConfirmation(d: FormData) {
    Truthy(d.name) || Truthy(d.email) || Truthy(d.phone) || Truthy(d.address) || Truthy(d.selectedDate)
  }

  /** The close test looks at the guarded fields and at nothing else. */
  lemma CloseConfirmationFields(d: FormData)
    ensures NeedsCloseConfirmation(d) <==> exists f :: f in CloseGuardFields && Truthy(Get(d, f))
    ensures forall f, v :: f !in CloseGuardFields ==>
              (NeedsCloseConfirmation(Set(d, f, v)) <==> NeedsCloseConfirmation(d))
  {
    if NeedsCloseConfirmation(d) {
      if Truthy(d.name) { assert Truthy(Get(d, Name)); }
      else if Truthy(d.email) { assert Truthy(Get(d, Email)); }
      else if Truthy(d.phone) { assert Truthy(Get(d, Phone)); }
      else if Truthy(d.address) { assert Truthy(Get(d, Address)); }
      else { assert Truthy(Get(d, SelectedDate)); }
    }
  }

  /** A freshly opened form closes without asking; a single space in the name
      is enough to make it ask. */
  lemma CloseConfirmationExamples()
    ensures !NeedsCloseConfirmation(InitialForm)
    ensures NeedsCloseConfirmation(Set(InitialForm, Name, " "))
    ensures !NeedsCloseConfirmation(Set(InitialForm, AdditionalInfo, "fasting"))
  {
  }
}
