/** The dialog that adds a dependent to an existing client
    (AddDependent.tsx): a draft, the errors of the last validation and the
    `isSubmitting` flag that is set while the save is in flight. */
module AddDependent {
  import opened Text
  import opened EmailPatterns
  import opened Options
  import opened FormErrors
  import opened Dates
  import opened DependentForms

  // ---------------------------------------------------------------------
  // validateForm
  // ---------------------------------------------------------------------

  /** The keys `validateForm` may write. */
  const FieldKeys: set<ErrorKey> := {
    FieldError(Name), FieldError(Email), FieldError(Gender),
    FieldError(Birthdate), FieldError(PhoneNumber), FieldError(Type)}

  /** A phone number is optional; when given, its digits, once every other
      character is stripped, must number 10 or 11 (`/^\d{10,11}$/`). */
  predicate PhoneFails(phone: string) {
    phone != "" && !(|Digits(phone)| == 10 || |Digits(phone)| == 11)
  }

  /** `new Date(birthdate) > today`. The date input yields `YYYY-MM-DD`, which
      JavaScript reads as midnight UTC, so the instant lies after the present
      one exactly when the calendar date lies after `today`, taken as the
      current UTC date. `parse` stands for JavaScript's parser on any other
      text; an invalid date compares false and is never in the future. */
  predicate InFuture(birthdate: string, today: Date, parse: string -> Option<Date>) {
    var d := ParseDateInput(birthdate, parse);
    d.Some? && Before(today, d.value)
  }

  /** The test of each field; e-mail, birthdate and phone are optional and
      only checked when given. */
  predicate FieldFails(form: DependentForm, field: Field, today: Date, parse: string -> Option<Date>) {
    match field
    case Name => IsBlank(form.name)
    case Gender => form.gender == ""
    case Type => form.kind == ""
    case Email => form.email != "" && !LooseEmail(form.email)
    case PhoneNumber => PhoneFails(form.phonenumber)
    case Birthdate => form.birthdate != "" && InFuture(form.birthdate, today, parse)
  }

  function FieldMessage(field: Field): string {
    match field
    case Name => "Nome é obrigatório"
    case Gender => "Gênero é obrigatório"
    case Type => "Tipo de dependente é obrigatório"
    case Email => "Email deve ter um formato válido"
    case PhoneNumber => "Telefone deve ter 10 ou 11 dígitos"
    case Birthdate => "Data de nascimento não pode ser no futuro"
  }

  /** The `newErrors` of `validateForm`: an entry for exactly the fields that
      fail, each with its message. */
  function ValidationErrors(form: DependentForm, today: Date, parse: string -> Option<Date>): (r: DependentErrors)
    ensures forall k :: k in r <==> k.FieldError? && FieldFails(form, k.field, today, parse)
    ensures forall k :: k in r ==> r[k] == FieldMessage(k.field)
  {
    AllFieldKeys();
    map k | k in FieldKeys && k.FieldError? && FieldFails(form, k.field, today, parse) :: FieldMessage(k.field)
  }

  /** The map field by field: required fields are flagged when empty (the
      name when blank), optional ones only when filled in and malformed. */
  lemma FieldTests(form: DependentForm, today: Date, parse: string -> Option<Date>)
    ensures var r := ValidationErrors(form, today, parse);
      && (FieldError(Name) in r <==> IsBlank(form.name))
      && (FieldError(Gender) in r <==> form.gender == "")
      && (FieldError(Type) in r <==> form.kind == "")
      && (FieldError(Email) in r <==> form.email != "" && !LooseEmail(form.email))
      && (FieldError(PhoneNumber) in r <==> PhoneFails(form.phonenumber))
      && (FieldError(Birthdate) in r <==> form.birthdate != "" && InFuture(form.birthdate, today, parse))
      && SubmitError !in r
  {
  }

  lemma AllFieldKeys()
    ensures forall f: Field :: FieldError(f) in FieldKeys
  {
    forall f: Field
      ensures FieldError(f) in FieldKeys
    {
      match f
      case Name =>
      case Email =>
      case Gender =>
      case Birthdate =>
      case PhoneNumber =>
      case Type =>
    }
  }

  /** What the form accepts, said directly: a non-blank name, a gender and a
      type chosen, and each optional field either empty or well formed. */
  predicate Acceptable(form: DependentForm, today: Date, parse: string -> Option<Date>) {
    && !IsBlank(form.name) && form.gender != "" && form.kind != ""
    && (form.email == "" || LooseEmail(form.email))
    && (form.phonenumber == "" || |Digits(form.phonenumber)| in {10, 11})
    && (form.birthdate == "" || !InFuture(form.birthdate, today, parse))
  }

  /** `validateForm()` returns true exactly for acceptable drafts. */
  lemma ValidationPasses(form: DependentForm, today: Date, parse: string -> Option<Date>)
    ensures NoErrors(ValidationErrors(form, today, parse)) <==> Acceptable(form, today, parse)
  {
    var r := ValidationErrors(form, today, parse);
    NoErrorsIsEmpty(r);
    if Acceptable(form, today, parse) {
      forall f: Field
        ensures FieldError(f) !in r
      {
      }
      assert r.Keys == {};
    }
  }

  /** Digits are all the phone test looks at: separators such as spaces,
      brackets or dashes typed inside a non-empty number change nothing. */
  lemma {:induction false} SeparatorsIgnored(a: string, separators: string, b: string)
    requires forall i :: 0 <= i < |separators| ==> !IsDigit(separators[i])
    requires a + b != ""
    ensures PhoneFails(a + separators + b) <==> PhoneFails(a + b)
  {
    NoDigits(separators);
    DigitsAppend(a, separators);
    DigitsAppend(a + separators, b);
    DigitsAppend(a, b);
    assert a + separators + b != "" by {
      assert |a + separators + b| >= |a + b|;
    }
  }

  /** The fields that must be filled in. */
  predicate Required(f: Field) {
    f.Name? || f.Gender? || f.Type?
  }

  /** The first three tests of `validateForm`, on the required fields. */
  method CheckRequired(form: DependentForm, today: Date, parse: string -> Option<Date>) returns (newErrors: DependentErrors)
    ensures forall k :: k in newErrors <==> k.FieldError? && Required(k.field) && FieldFails(form, k.field, today, parse)
    ensures forall k :: k in newErrors ==> newErrors[k] == FieldMessage(k.field)
  {
    newErrors := map[];
    if Trim(form.name) == "" {
      newErrors := newErrors[FieldError(Name) := FieldMessage(Name)];
    }
    if form.gender == "" {
      newErrors := newErrors[FieldError(Gender) := FieldMessage(Gender)];
    }
    if form.kind == "" {
      newErrors := newErrors[FieldError(Type) := FieldMessage(Type)];
    }
  }

  /** The two format tests, on the e-mail and the phone, each made only when
      the field was filled in. */
  method CheckContact(errors: DependentErrors, form: DependentForm, today: Date, parse: string -> Option<Date>)
    returns (newErrors: DependentErrors)
    requires forall k :: k in errors ==> k.FieldError? && Required(k.field)
    ensures forall k :: k in newErrors <==>
      k in errors || (k.FieldError? && (k.field.Email? || k.field.PhoneNumber?) && FieldFails(form, k.field, today, parse))
    ensures forall k :: k in newErrors ==> newErrors[k] == if k in errors then errors[k] else FieldMessage(k.field)
  {
    newErrors := errors;
    if form.email != "" && !LooseEmail(form.email) {
      newErrors := newErrors[FieldError(Email) := FieldMessage(Email)];
    }
    if form.phonenumber != "" {
      var cleaned := Digits(form.phonenumber);
      if !(|cleaned| == 10 || |cleaned| == 11) {
        newErrors := newErrors[FieldError(PhoneNumber) := FieldMessage(PhoneNumber)];
      }
    }
  }

  /** The last test: a birthdate, when given, may not lie in the future. */
  method CheckBirthdate(errors: DependentErrors, form: DependentForm, today: Date, parse: string -> Option<Date>)
    returns (newErrors: DependentErrors)
    requires FieldError(Birthdate) !in errors
    ensures forall k :: k in newErrors <==> k in errors || (k == FieldError(Birthdate) && FieldFails(form, Birthdate, today, parse))
    ensures forall k :: k in newErrors ==> newErrors[k] == if k in errors then errors[k] else FieldMessage(Birthdate)
  {
    newErrors := errors;
    if form.birthdate != "" {
      var birthDate := ParseDateInput(form.birthdate, parse);
      if birthDate.Some? && Before(today, birthDate.value) {
        newErrors := newErrors[FieldError(Birthdate) := FieldMessage(Birthdate)];
      }
    }
  }

  /** The body of `validateForm`: six tests in a row, each writing its
      message under its field when it fails. */
  method CheckFields(form: DependentForm, today: Date, parse: string -> Option<Date>) returns (newErrors: DependentErrors)
    ensures newErrors == ValidationErrors(form, today, parse)
  {
    newErrors := CheckRequired(form, today, parse);
    newErrors := CheckContact(newErrors, form, today, parse);
    newErrors := CheckBirthdate(newErrors, form, today, parse);
    forall k
      ensures k in newErrors <==> k.FieldError? && FieldFails(form, k.field, today, parse)
    {
      if k.FieldError? {
        match k.field
        case Name =>
        case Gender =>
        case Type =>
        case Email =>
        case PhoneNumber =>
        case Birthdate =>
      }
    }
    assert newErrors.Keys == ValidationErrors(form, today, parse).Keys;
  }

  // ---------------------------------------------------------------------
  // The payload of handleSubmit
  // ---------------------------------------------------------------------

  /** `dependentData = { ...formData, clientid: clientId }`. */
  datatype DependentPayload = DependentPayload(
    name: string,
    email: string,
    gender: string,
    birthdate: string,
    phonenumber: string,
    kind: string,
    clientid: int)

  /** The draft travels unchanged, with the owning client attached. */
  function Payload(form: DependentForm, clientId: int): (p: DependentPayload)
    ensures DependentForm(p.name, p.email, p.gender, p.birthdate, p.phonenumber, p.kind) == form
    ensures p.clientid == clientId
  {
    DependentPayload(form.name, form.email, form.gender, form.birthdate, form.phonenumber, form.kind, clientId)
  }

  /** The message of a save that did not succeed, whether the result was
      falsy or the call threw. */
  const SubmitMessage := "Erro ao adicionar dependente. Tente novamente."

  // ---------------------------------------------------------------------
  // The component's state
  // ---------------------------------------------------------------------

  class AddDependentDialog {
    var formData: DependentForm
    var errors: DependentErrors
    var isSubmitting: bool

    constructor ()
      ensures formData == EmptyForm && errors == map[] && !isSubmitting
    {
      formData := EmptyForm;
      errors := map[];
      isSubmitting := false;
    }

    /** `handleInputChange`: the field takes the value and its message, if it
        had one, is blanked. */
    method HandleInputChange(field: Field, value: string)
      modifies this`formData, this`errors
      ensures formData == WithField(old(formData), field, value)
      ensures errors == ClearError(old(errors), FieldError(field))
    {
      formData := WithField(formData, field, value);
      if FieldError(field) in errors && errors[FieldError(field)] != "" {
        errors := errors[FieldError(field) := ""];
      }
    }

    /** `validateForm`, with the present date and the fallback date parser
        passed in. */
    method ValidateForm(today: Date, parse: string -> Option<Date>) returns (ok: bool)
      modifies this`errors
      ensures errors == ValidationErrors(formData, today, parse)
      ensures ok <==> Acceptable(formData, today, parse)
    {
      errors := CheckFields(formData, today, parse);
      ValidationPasses(formData, today, parse);
      ok := |errors| == 0;
    }

    /** The synchronous part of `handleSubmit`: validate, and when the draft is
        acceptable mark the dialog as submitting and yield the payload to post. */
    method BeginSubmit(clientId: int, today: Date, parse: string -> Option<Date>) returns (request: Option<DependentPayload>)
      modifies this`errors, this`isSubmitting
      ensures errors == ValidationErrors(formData, today, parse)
      ensures request.Some? <==> Acceptable(formData, today, parse)
      ensures request.Some? ==> request.value == Payload(formData, clientId) && isSubmitting
      ensures request.None? ==> isSubmitting == old(isSubmitting)
    {
      var ok := ValidateForm(today, parse);
      request := None;
      if ok {
        isSubmitting := true;
        request := Some(Payload(formData, clientId));
      }
    }

    /** The part of `handleSubmit` after `postDependent` settles. A successful
        save clears the dialog and closes it (`closed` stands for the calls
        to `onDependentAdded` and `onClose`); otherwise the draft stays and
        the only error is the submit message. Either way the flag drops. */
    method FinishSubmit(outcome: CallOutcome) returns (closed: bool)
      modifies this
      ensures !isSubmitting
      ensures closed <==> outcome.Succeeded?
      ensures outcome.Succeeded? ==> formData == EmptyForm && errors == map[]
      ensures !outcome.Succeeded? ==> formData == old(formData) && errors == map[SubmitError := SubmitMessage]
    {
      closed := false;
      if outcome.Succeeded? {
        formData := EmptyForm;
        errors := map[];
        closed := true;
      } else {
        errors := map[SubmitError := SubmitMessage];
      }
      isSubmitting := false;
    }

    /** `handleClose`: ignored while a save is in flight; otherwise the draft
        and the errors are cleared and the dialog closes. */
    method HandleClose() returns (closed: bool)
      modifies this`formData, this`errors
      ensures closed <==> !isSubmitting
      ensures isSubmitting ==> formData == old(formData) && errors == old(errors)
      ensures !isSubmitting ==> formData == EmptyForm && errors == map[]
    {
      closed := false;
      if !isSubmitting {
        formData := EmptyForm;
        errors := map[];
        closed := true;
      }
    }
  }
}
