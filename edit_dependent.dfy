/** The dialog that edits a stored dependent (EditDependent.tsx). It shares
    the six-field draft with the add dialog but checks the e-mail with the
    anchored pattern, posts absent optional fields as `null`, and reports a
    falsy result and a thrown call with different messages. */
module EditDependent {
  import opened Text
  import opened EmailPatterns
  import opened Options
  import opened FormErrors
  import opened DependentForms

  /** The `dependent` prop as the backend returns it; any text column may be
      `null`. */
  datatype DependentRecord = DependentRecord(
    id: int,
    name: Option<string>,
    email: Option<string>,
    gender: Option<string>,
    birthdate: Option<string>,
    phonenumber: Option<string>,
    kind: Option<string>)

  /** The draft the `useEffect` builds: each field `|| ""`. */
  function FormFor(d: DependentRecord): (f: DependentForm)
    ensures f.name == OrEmpty(d.name) && f.email == OrEmpty(d.email)
    ensures f.gender == OrEmpty(d.gender) && f.birthdate == OrEmpty(d.birthdate)
    ensures f.phonenumber == OrEmpty(d.phonenumber) && f.kind == OrEmpty(d.kind)
  {
    DependentForm(OrEmpty(d.name), OrEmpty(d.email), OrEmpty(d.gender),
      OrEmpty(d.birthdate), OrEmpty(d.phonenumber), OrEmpty(d.kind))
  }

  // ---------------------------------------------------------------------
  // validateForm
  // ---------------------------------------------------------------------

  const FieldKeys: set<ErrorKey> := {FieldError(Name), FieldError(Email), FieldError(Gender), FieldError(Type)}

  /** The four tests; the e-mail is optional but, when given, must match
      `^[^\s@]+@[^\s@]+\.[^\s@]+$` as a whole. */
  predicate FieldFails(form: DependentForm, field: Field) {
    match field
    case Name => IsBlank(form.name)
    case Email => form.email != "" && !StrictEmail(form.email)
    case Gender => form.gender == ""
    case Type => form.kind == ""
    case _ => false
  }

  function FieldMessage(field: Field): string {
    match field
    case Name => "Nome é obrigatório"
    case Email => "Email inválido"
    case Gender => "Gênero é obrigatório"
    case Type => "Tipo de dependente é obrigatório"
    case _ => ""
  }

  /** The `newErrors` of `validateForm`: an entry for exactly the fields that
      fail, each with its message. */
  function ValidationErrors(form: DependentForm): (r: DependentErrors)
    ensures forall k :: k in r <==> k.FieldError? && FieldFails(form, k.field)
    ensures forall k :: k in r ==> r[k] == FieldMessage(k.field)
  {
    CheckedKeys(form);
    map k | k in FieldKeys && k.FieldError? && FieldFails(form, k.field) :: FieldMessage(k.field)
  }

  /** Every field that can fail has its key in FieldKeys. */
  lemma CheckedKeys(form: DependentForm)
    ensures forall f: Field :: FieldFails(form, f) ==> FieldError(f) in FieldKeys
  {
    forall f: Field | FieldFails(form, f)
      ensures FieldError(f) in FieldKeys
    {
      match f
      case Name =>
      case Email =>
      case Gender =>
      case Type =>
    }
  }

  /** The map field by field; birthdate and phone are never checked. */
  lemma FieldTests(form: DependentForm)
    ensures var r := ValidationErrors(form);
      && (FieldError(Name) in r <==> IsBlank(form.name))
      && (FieldError(Email) in r <==> form.email != "" && !StrictEmail(form.email))
      && (FieldError(Gender) in r <==> form.gender == "")
      && (FieldError(Type) in r <==> form.kind == "")
      && FieldError(Birthdate) !in r && FieldError(PhoneNumber) !in r && SubmitError !in r
  {
  }

  /** The first two tests of `validateForm`, on the typed texts. */
  method CheckTexts(form: DependentForm) returns (newErrors: DependentErrors)
    ensures forall k :: k in newErrors <==> k.FieldError? && (k.field.Name? || k.field.Email?) && FieldFails(form, k.field)
    ensures forall k :: k in newErrors ==> newErrors[k] == FieldMessage(k.field)
  {
    newErrors := map[];
    if Trim(form.name) == "" {
      newErrors := newErrors[FieldError(Name) := FieldMessage(Name)];
    }
    if form.email != "" && !StrictEmail(form.email) {
      newErrors := newErrors[FieldError(Email) := FieldMessage(Email)];
    }
  }

  /** The last two tests, on the selections. */
  method CheckSelections(errors: DependentErrors, form: DependentForm) returns (newErrors: DependentErrors)
    requires forall k :: k in errors ==> k.FieldError? && (k.field.Name? || k.field.Email?)
    ensures forall k :: k in newErrors <==>
      k in errors || (k.FieldError? && (k.field.Gender? || k.field.Type?) && FieldFails(form, k.field))
    ensures forall k :: k in newErrors ==> newErrors[k] == if k in errors then errors[k] else FieldMessage(k.field)
  {
    newErrors := errors;
    if form.gender == "" {
      newErrors := newErrors[FieldError(Gender) := FieldMessage(Gender)];
    }
    if form.kind == "" {
      newErrors := newErrors[FieldError(Type) := FieldMessage(Type)];
    }
  }

  /** The body of `validateForm`: four tests in a row, each writing its
      message under its field when it fails. */
  method CheckFields(form: DependentForm) returns (newErrors: DependentErrors)
    ensures newErrors == ValidationErrors(form)
  {
    newErrors := CheckTexts(form);
    newErrors := CheckSelections(newErrors, form);
    forall k
      ensures k in newErrors <==> k.FieldError? && FieldFails(form, k.field)
    {
      if k.FieldError? {
        match k.field
        case Name =>
        case Email =>
        case Gender =>
        case Type =>
        case Birthdate =>
        case PhoneNumber =>
      }
    }
    assert newErrors.Keys == ValidationErrors(form).Keys;
  }

  /** What the form accepts, said directly. */
  predicate Acceptable(form: DependentForm) {
    !IsBlank(form.name) && form.gender != "" && form.kind != ""
    && (form.email == "" || StrictEmail(form.email))
  }

  lemma ValidationPasses(form: DependentForm)
    ensures NoErrors(ValidationErrors(form)) <==> Acceptable(form)
  {
    var r := ValidationErrors(form);
    NoErrorsIsEmpty(r);
    if Acceptable(form) {
      forall f: Field
        ensures FieldError(f) !in r
      {
      }
      assert r.Keys == {};
    }
  }

  /** The edit form's e-mail test is the stricter one: an e-mail it accepts
      passes the add form's test as well, but not the other way round. */
  lemma EmailStricterThanAdd(form: DependentForm)
    ensures FieldError(Email) !in ValidationErrors(form) ==> form.email == "" || LooseEmail(form.email)
    ensures FieldError(Email) in ValidationErrors(DependentForm("Ana", "ana@x.com ", "Feminino", "", "", "Filho(a)"))
  {
    StrictImpliesLoose(form.email);
    LooseDoesNotImplyStrict();
  }

  // ---------------------------------------------------------------------
  // The payload of handleSubmit
  // ---------------------------------------------------------------------

  /** `dependentData`: the optional texts sent as `null` when empty. */
  datatype DependentUpdate = DependentUpdate(
    name: string,
    email: Option<string>,
    gender: string,
    birthdate: Option<string>,
    phonenumber: Option<string>,
    kind: string)

  function Payload(form: DependentForm): (p: DependentUpdate)
    ensures p.name == form.name && p.gender == form.gender && p.kind == form.kind
    ensures p.email == NonEmpty(form.email)
    ensures p.birthdate == NonEmpty(form.birthdate)
    ensures p.phonenumber == NonEmpty(form.phonenumber)
  {
    DependentUpdate(form.name, NonEmpty(form.email), form.gender,
      NonEmpty(form.birthdate), NonEmpty(form.phonenumber), form.kind)
  }

  /** Opening a stored dependent and saving it untouched writes back what was
      stored: the `|| ""` of the load and the `|| null` of the save cancel,
      except that a stored empty string comes back as `null`. */
  lemma LoadThenSave(d: DependentRecord)
    ensures Payload(FormFor(d)).email == (if d.email == Some("") then None else d.email)
    ensures Payload(FormFor(d)).birthdate == (if d.birthdate == Some("") then None else d.birthdate)
    ensures Payload(FormFor(d)).phonenumber == (if d.phonenumber == Some("") then None else d.phonenumber)
    ensures d.name.Some? ==> Payload(FormFor(d)).name == d.name.value
  {
  }

  /** The message of a save whose result is not a success. */
  const UpdateFailedMessage := "Erro ao atualizar dependente. Tente novamente."
  /** The message of a save that threw. */
  const InternalErrorMessage := "Erro interno. Tente novamente."

  // ---------------------------------------------------------------------
  // The component's state
  // ---------------------------------------------------------------------

  class EditDependentDialog {
    var dependent: Option<DependentRecord>
    var formData: DependentForm
    var errors: DependentErrors
    var isSubmitting: bool

    constructor (d: Option<DependentRecord>)
      ensures dependent == d && formData == EmptyForm && errors == map[] && !isSubmitting
    {
      dependent := d;
      formData := EmptyForm;
      errors := map[];
      isSubmitting := false;
    }

    /** The prop changes and the `useEffect` runs: a dependent fills the
        draft; `null` leaves the draft as it was. */
    method Load(d: Option<DependentRecord>)
      modifies this`dependent, this`formData
      ensures dependent == d
      ensures d.Some? ==> formData == FormFor(d.value)
      ensures d.None? ==> formData == old(formData)
    {
      dependent := d;
      if d.Some? {
        formData := FormFor(d.value);
      }
    }

    /** `handleInputChange`. */
    method HandleInputChange(field: Field, value: string)
      modifies this`formData, this`errors
      ensures formData == WithField(old(formData), field, value)
      ensures errors == ClearError(old(errors), FieldError(field))
    {
      formData := WithField(formData, field, value);
      if FieldError(field) in errors && errors[FieldError(field)] != "" {
        errors := errors[FieldError(field) := ""];
      }
    }

    /** `validateForm`. */
    method ValidateForm() returns (ok: bool)
      modifies this`errors
      ensures errors == ValidationErrors(formData)
      ensures ok <==> Acceptable(formData)
    {
      errors := CheckFields(formData);
      ValidationPasses(formData);
      ok := |errors| == 0;
    }

    /** The synchronous part of `handleSubmit`: the draft is validated first
        (so the errors are shown even without a dependent), and the update is
        made only for an acceptable draft of a present dependent; it yields
        the dependent's id and the payload. */
    method BeginSubmit() returns (request: Option<(int, DependentUpdate)>)
      modifies this`errors, this`isSubmitting
      ensures errors == ValidationErrors(formData)
      ensures request.Some? <==> Acceptable(formData) && dependent.Some?
      ensures request.Some? ==> request.value == (dependent.value.id, Payload(formData)) && isSubmitting
      ensures request.None? ==> isSubmitting == old(isSubmitting)
    {
      var ok := ValidateForm();
      request := None;
      if ok && dependent.Some? {
        isSubmitting := true;
        request := Some((dependent.value.id, Payload(formData)));
      }
    }

    /** The part of `handleSubmit` after `updateDependent` settles. A success
        closes the dialog (`closed` stands for `onDependentUpdated` and
        `onClose`) and leaves the state as it is; a failure leaves only its
        message. Either way the flag drops. */
    method FinishSubmit(outcome: CallOutcome) returns (closed: bool)
      modifies this`errors, this`isSubmitting
      ensures !isSubmitting
      ensures closed <==> outcome.Succeeded?
      ensures outcome.Succeeded? ==> errors == old(errors)
      ensures outcome.Failed? ==> errors == map[SubmitError := UpdateFailedMessage]
      ensures outcome.Threw? ==> errors == map[SubmitError := InternalErrorMessage]
    {
      closed := false;
      match outcome {
        case Succeeded =>
          closed := true;
        case Failed =>
          errors := map[SubmitError := UpdateFailedMessage];
        case Threw =>
          errors := map[SubmitError := InternalErrorMessage];
      }
      isSubmitting := false;
    }

    /** `handleClose`: the errors go and the dialog closes, even during a save;
        the draft stays. */
    method HandleClose() returns (closed: bool)
      modifies this`errors
      ensures closed && errors == map[]
    {
      errors := map[];
      closed := true;
    }
  }
}
