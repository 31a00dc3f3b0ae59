/** The dialog that edits a stored client (EditClient.tsx): a sixteen-field
    draft filled from the `client` prop, the errors of the last validation
    and the `isSubmitting` flag. */
module EditClient {
  import opened Text
  import opened EmailPatterns
  import opened Options
  import opened FormErrors
  import opened Dates

  /** The `client` prop, with the property names the component reads; any
      text may be `null`. */
  datatype ClientRecord = ClientRecord(
    id: int,
    name: Option<string>,
    email: Option<string>,
    profession: Option<string>,
    phonenumber: Option<string>,
    gender: Option<string>,
    birthdate: Option<string>,
    maritalstatus: Option<string>,
    address: Option<string>,
    addressnumber: Option<string>,
    addresscomplement: Option<string>,
    partnerName: Option<string>,
    partnerEmail: Option<string>,
    partnerPhoneNumber: Option<string>,
    partnerGender: Option<string>,
    partnerProfession: Option<string>,
    partnerBirthDate: Option<string>)

  /** `formData`. */
  datatype ClientForm = ClientForm(
    name: string,
    email: string,
    profession: string,
    phonenumber: string,
    gender: string,
    birthdate: string,
    maritalstatus: string,
    address: string,
    addressnumber: string,
    addresscomplement: string,
    partnerName: string,
    partnerEmail: string,
    partnerPhoneNumber: string,
    partnerGender: string,
    partnerProfession: string,
    partnerBirthDate: string)

  const EmptyForm := ClientForm("", "", "", "", "", "", "", "", "", "", "", "", "", "", "", "")

  // ---------------------------------------------------------------------
  // Loading the client
  // ---------------------------------------------------------------------

  /** `x ? new Date(x).toISOString().split("T")[0] : ""`. `toIsoString`
      stands for `new Date(x).toISOString()`, whose result depends on
      JavaScript's date parser. */
  function DateField(x: Option<string>, toIsoString: string -> string): (r: string)
    ensures NonEmpty(OrEmpty(x)).None? ==> r == ""
    ensures NonEmpty(OrEmpty(x)).Some? ==> r == BeforeT(toIsoString(x.value))
  {
    if x.Some? && x.value != "" then BeforeT(toIsoString(x.value)) else ""
  }

  /** `toISOString` always yields `YYYY-MM-DDTHH:mm:ss.sssZ`; for such a
      string the date input receives exactly its first ten characters. */
  lemma DateFieldOfTimestamp(x: string, toIsoString: string -> string)
    requires x != ""
    requires |toIsoString(x)| > 10 && IsoDatePrefix(toIsoString(x)) && toIsoString(x)[10] == 'T'
    ensures DateField(Some(x), toIsoString) == toIsoString(x)[..10]
    ensures |DateField(Some(x), toIsoString)| == 10
  {
    var t := toIsoString(x);
    IsoDatePrefixHasNoT(t);
    BeforeTUnique(t, t[..10]);
  }

  /** The draft the `useEffect` builds: each text `|| ""`, the two birthdates
      reduced to their date part. */
  function FormFor(c: ClientRecord, toIsoString: string -> string): (f: ClientForm)
    ensures f.name == OrEmpty(c.name) && f.email == OrEmpty(c.email)
    ensures f.profession == OrEmpty(c.profession) && f.phonenumber == OrEmpty(c.phonenumber)
    ensures f.gender == OrEmpty(c.gender) && f.maritalstatus == OrEmpty(c.maritalstatus)
    ensures f.address == OrEmpty(c.address) && f.addressnumber == OrEmpty(c.addressnumber)
    ensures f.addresscomplement == OrEmpty(c.addresscomplement)
    ensures f.partnerName == OrEmpty(c.partnerName) && f.partnerEmail == OrEmpty(c.partnerEmail)
    ensures f.partnerPhoneNumber == OrEmpty(c.partnerPhoneNumber) && f.partnerGender == OrEmpty(c.partnerGender)
    ensures f.partnerProfession == OrEmpty(c.partnerProfession)
    ensures f.birthdate == DateField(c.birthdate, toIsoString)
    ensures f.partnerBirthDate == DateField(c.partnerBirthDate, toIsoString)
  {
    ClientForm(
      OrEmpty(c.name), OrEmpty(c.email), OrEmpty(c.profession), OrEmpty(c.phonenumber),
      OrEmpty(c.gender), DateField(c.birthdate, toIsoString), OrEmpty(c.maritalstatus),
      OrEmpty(c.address), OrEmpty(c.addressnumber), OrEmpty(c.addresscomplement),
      OrEmpty(c.partnerName), OrEmpty(c.partnerEmail), OrEmpty(c.partnerPhoneNumber),
      OrEmpty(c.partnerGender), OrEmpty(c.partnerProfession),
      DateField(c.partnerBirthDate, toIsoString))
  }

  // ---------------------------------------------------------------------
  // Editing the draft
  // ---------------------------------------------------------------------

  /** The inputs, by the `name` attribute `handleInputChange` reads. */
  datatype Field =
    | Name | Email | Profession | PhoneNumber | Gender | Birthdate | MaritalStatus
    | Address | AddressNumber | AddressComplement
    | PartnerName | PartnerEmail | PartnerPhoneNumber | PartnerGender | PartnerProfession | PartnerBirthDate

  function FieldKey(f: Field): string {
    match f
    case Name => "name"
    case Email => "email"
    case Profession => "profession"
    case PhoneNumber => "phonenumber"
    case Gender => "gender"
    case Birthdate => "birthdate"
    case MaritalStatus => "maritalstatus"
    case Address => "address"
    case AddressNumber => "addressnumber"
    case AddressComplement => "addresscomplement"
    case PartnerName => "partnerName"
    case PartnerEmail => "partnerEmail"
    case PartnerPhoneNumber => "partnerPhoneNumber"
    case PartnerGender => "partnerGender"
    case PartnerProfession => "partnerProfession"
    case PartnerBirthDate => "partnerBirthDate"
  }

  /** An error key: a field, or the `submit` entry a failed save leaves. */
  datatype ErrorKey = FieldError(field: Field) | SubmitError

  type ClientErrors = Errors<ErrorKey>

  function KeyName(k: ErrorKey): string {
    match k
    case FieldError(f) => FieldKey(f)
    case SubmitError => "submit"
  }

  lemma KeyNameInjective(k: ErrorKey, l: ErrorKey)
    ensures KeyName(k) == KeyName(l) ==> k == l
  {
  }

  function Get(form: ClientForm, f: Field): string {
    match f
    case Name => form.name
    case Email => form.email
    case Profession => form.profession
    case PhoneNumber => form.phonenumber
    case Gender => form.gender
    case Birthdate => form.birthdate
    case MaritalStatus => form.maritalstatus
    case Address => form.address
    case AddressNumber => form.addressnumber
    case AddressComplement => form.addresscomplement
    case PartnerName => form.partnerName
    case PartnerEmail => form.partnerEmail
    case PartnerPhoneNumber => form.partnerPhoneNumber
    case PartnerGender => form.partnerGender
    case PartnerProfession => form.partnerProfession
    case PartnerBirthDate => form.partnerBirthDate
  }

  /** `{ ...prev, [name]: value }`: the field takes the value and no other
      field changes. */
  function WithField(form: ClientForm, f: Field, value: string): (r: ClientForm)
    ensures Get(r, f) == value
    ensures forall g :: g != f ==> Get(r, g) == Get(form, g)
  {
    match f
    case Name => form.(name := value)
    case Email => form.(email := value)
    case Profession => form.(profession := value)
    case PhoneNumber => form.(phonenumber := value)
    case Gender => form.(gender := value)
    case Birthdate => form.(birthdate := value)
    case MaritalStatus => form.(maritalstatus := value)
    case Address => form.(address := value)
    case AddressNumber => form.(addressnumber := value)
    case AddressComplement => form.(addresscomplement := value)
    case PartnerName => form.(partnerName := value)
    case PartnerEmail => form.(partnerEmail := value)
    case PartnerPhoneNumber => form.(partnerPhoneNumber := value)
    case PartnerGender => form.(partnerGender := value)
    case PartnerProfession => form.(partnerProfession := value)
    case PartnerBirthDate => form.(partnerBirthDate := value)
  }

  // ---------------------------------------------------------------------
  // validateForm
  // ---------------------------------------------------------------------

  const FieldKeys: set<ErrorKey> := {
    FieldError(Name), FieldError(Email), FieldError(Profession), FieldError(PhoneNumber),
    FieldError(Gender), FieldError(Birthdate), FieldError(MaritalStatus)}

  /** The seven tests: the client's own texts must be non-blank, its
      selections made, and its e-mail must match
      `^[^\s@]+@[^\s@]+\.[^\s@]+$`; address and partner are never checked. */
  predicate FieldFails(form: ClientForm, field: Field) {
    match field
    case Name => IsBlank(form.name)
    case Email => IsBlank(form.email) || !StrictEmail(form.email)
    case Profession => IsBlank(form.profession)
    case PhoneNumber => IsBlank(form.phonenumber)
    case Gender => form.gender == ""
    case Birthdate => form.birthdate == ""
    case MaritalStatus => form.maritalstatus == ""
    case _ => false
  }

  /** The e-mail tests are an `if`/`else if`: a blank e-mail is reported as
      missing, anything else that fails the pattern as invalid. */
  function FieldMessage(form: ClientForm, field: Field): string {
    match field
    case Name => "Nome é obrigatório"
    case Email => if IsBlank(form.email) then "Email é obrigatório" else "Email inválido"
    case Profession => "Profissão é obrigatória"
    case PhoneNumber => "Telefone é obrigatório"
    case Gender => "Gênero é obrigatório"
    case Birthdate => "Data de nascimento é obrigatória"
    case MaritalStatus => "Estado civil é obrigatório"
    case _ => ""
  }

  /** The `newErrors` of `validateForm`: an entry for exactly the fields that
      fail, each with its message. */
  function ValidationErrors(form: ClientForm): (r: ClientErrors)
    ensures forall k :: k in r <==> k.FieldError? && FieldFails(form, k.field)
    ensures forall k :: k in r ==> r[k] == FieldMessage(form, k.field)
  {
    CheckedKeys(form);
    map k | k in FieldKeys && k.FieldError? && FieldFails(form, k.field) :: FieldMessage(form, k.field)
  }

  /** Every field that can fail has its key in FieldKeys. */
  lemma CheckedKeys(form: ClientForm)
    ensures forall f: Field :: FieldFails(form, f) ==> FieldError(f) in FieldKeys
  {
    forall f: Field | FieldFails(form, f)
      ensures FieldError(f) in FieldKeys
    {
      match f
      case Name =>
      case Email =>
      case Profession =>
      case PhoneNumber =>
      case Gender =>
      case Birthdate =>
      case MaritalStatus =>
    }
  }

  /** The map field by field. The e-mail gets exactly one message: "required"
      when blank, otherwise "invalid" when the anchored pattern rejects it.
      Address and partner fields never produce an entry. */
  lemma FieldTests(form: ClientForm)
    ensures var r := ValidationErrors(form);
      && (FieldError(Name) in r <==> IsBlank(form.name))
      && (FieldError(Email) in r <==> !StrictEmail(form.email))
      && (FieldError(Profession) in r <==> IsBlank(form.profession))
      && (FieldError(PhoneNumber) in r <==> IsBlank(form.phonenumber))
      && (FieldError(Gender) in r <==> form.gender == "")
      && (FieldError(Birthdate) in r <==> form.birthdate == "")
      && (FieldError(MaritalStatus) in r <==> form.maritalstatus == "")
      && (FieldError(Email) in r ==>
           r[FieldError(Email)] == if IsBlank(form.email) then "Email é obrigatório" else "Email inválido")
      && (forall k :: k in r ==> k in FieldKeys)
  {
    BlankIsNotStrict(form.email);
    CheckedKeys(form);
  }

  /** The first two tests of `validateForm`: the name, and the e-mail by an
      `if`/`else if`. */
  method CheckIdentity(form: ClientForm) returns (newErrors: ClientErrors)
    ensures forall k :: k in newErrors <==> k.FieldError? && (k.field.Name? || k.field.Email?) && FieldFails(form, k.field)
    ensures forall k :: k in newErrors ==> newErrors[k] == FieldMessage(form, k.field)
  {
    newErrors := map[];
    if Trim(form.name) == "" {
      newErrors := newErrors[FieldError(Name) := "Nome é obrigatório"];
    }
    if Trim(form.email) == "" {
      newErrors := newErrors[FieldError(Email) := "Email é obrigatório"];
    } else if !StrictEmail(form.email) {
      newErrors := newErrors[FieldError(Email) := "Email inválido"];
    }
  }

  /** The next two tests, on the profession and the phone. */
  method CheckTexts(errors: ClientErrors, form: ClientForm) returns (newErrors: ClientErrors)
    requires forall k :: k in errors ==> k.FieldError? && (k.field.Name? || k.field.Email?)
    ensures forall k :: k in newErrors <==>
      k in errors || (k.FieldError? && (k.field.Profession? || k.field.PhoneNumber?) && FieldFails(form, k.field))
    ensures forall k :: k in newErrors ==> newErrors[k] == if k in errors then errors[k] else FieldMessage(form, k.field)
  {
    newErrors := errors;
    if Trim(form.profession) == "" {
      newErrors := newErrors[FieldError(Profession) := "Profissão é obrigatória"];
    }
    if Trim(form.phonenumber) == "" {
      newErrors := newErrors[FieldError(PhoneNumber) := "Telefone é obrigatório"];
    }
  }

  /** The last three tests, on the selections. */
  method CheckSelections(errors: ClientErrors, form: ClientForm) returns (newErrors: ClientErrors)
    requires forall k :: k in errors ==> k.FieldError? && (k.field.Name? || k.field.Email? || k.field.Profession? || k.field.PhoneNumber?)
    ensures forall k :: k in newErrors <==>
      k in errors || (k.FieldError? && (k.field.Gender? || k.field.Birthdate? || k.field.MaritalStatus?) && FieldFails(form, k.field))
    ensures forall k :: k in newErrors ==> newErrors[k] == if k in errors then errors[k] else FieldMessage(form, k.field)
  {
    newErrors := errors;
    if form.gender == "" {
      newErrors := newErrors[FieldError(Gender) := "Gênero é obrigatório"];
    }
    if form.birthdate == "" {
      newErrors := newErrors[FieldError(Birthdate) := "Data de nascimento é obrigatória"];
    }
    if form.maritalstatus == "" {
      newErrors := newErrors[FieldError(MaritalStatus) := "Estado civil é obrigatório"];
    }
  }

  /** The body of `validateForm`: seven tests in a row. */
  method CheckFields(form: ClientForm) returns (newErrors: ClientErrors)
    ensures newErrors == ValidationErrors(form)
  {
    newErrors := CheckIdentity(form);
    newErrors := CheckTexts(newErrors, form);
    newErrors := CheckSelections(newErrors, form);
    forall k
      ensures k in newErrors <==> k.FieldError? && FieldFails(form, k.field)
    {
      if k.FieldError? {
        match k.field
        case Name =>
        case Email =>
        case Profession =>
        case PhoneNumber =>
        case Gender =>
        case Birthdate =>
        case MaritalStatus =>
        case _ =>
      }
    }
    assert newErrors.Keys == ValidationErrors(form).Keys;
  }

  /** A blank string has no character outside `\s`, so the anchored pattern
      rejects it; the "required" test only chooses the message. */
  lemma BlankIsNotStrict(s: string)
    ensures IsBlank(s) ==> !StrictEmail(s)
  {
    if IsBlank(s) {
      forall at, dot | 0 < at < |s| && at + 1 < dot < |s| - 1
        ensures !StrictMatchAt(s, at, dot)
      {
        assert !PlainChar(s[0]);
      }
    }
  }

  /** What the form accepts, said directly. */
  predicate Acceptable(form: ClientForm) {
    && !IsBlank(form.name) && !IsBlank(form.profession) && !IsBlank(form.phonenumber)
    && form.gender != "" && form.birthdate != "" && form.maritalstatus != ""
    && StrictEmail(form.email)
  }

  lemma ValidationPasses(form: ClientForm)
    ensures NoErrors(ValidationErrors(form)) <==> Acceptable(form)
  {
    var r := ValidationErrors(form);
    NoErrorsIsEmpty(r);
    FieldTests(form);
    if Acceptable(form) {
      forall k | k in FieldKeys
        ensures k !in r
      {
      }
      assert r.Keys == {};
    }
  }

  // ---------------------------------------------------------------------
  // The payload of handleSubmit
  // ---------------------------------------------------------------------

  /** `clientData`, with the backend's lower-case column names. */
  datatype ClientUpdate = ClientUpdate(
    name: string,
    email: string,
    profession: string,
    phonenumber: string,
    gender: string,
    birthdate: string,
    maritalstatus: string,
    address: string,
    addressnumber: string,
    addresscomplement: string,
    partnername: string,
    partneremail: string,
    partnerphonenumber: string,
    partnergender: string,
    partnerprofession: string,
    partnerbirthdate: Option<string>)

  /** Every text sent as typed, empty or not, except the partner's birthdate,
      which an empty date input sends as `null`. */
  function Payload(form: ClientForm): (p: ClientUpdate)
    ensures p.name == form.name && p.email == form.email && p.profession == form.profession
    ensures p.phonenumber == form.phonenumber && p.gender == form.gender
    ensures p.birthdate == form.birthdate && p.maritalstatus == form.maritalstatus
    ensures p.address == form.address && p.addressnumber == form.addressnumber
    ensures p.addresscomplement == form.addresscomplement
    ensures p.partnername == form.partnerName && p.partneremail == form.partnerEmail
    ensures p.partnerphonenumber == form.partnerPhoneNumber && p.partnergender == form.partnerGender
    ensures p.partnerprofession == form.partnerProfession
    ensures p.partnerbirthdate == NonEmpty(form.partnerBirthDate)
  {
    ClientUpdate(
      form.name, form.email, form.profession, form.phonenumber, form.gender, form.birthdate,
      form.maritalstatus, form.address, form.addressnumber, form.addresscomplement,
      form.partnerName, form.partnerEmail, form.partnerPhoneNumber, form.partnerGender,
      form.partnerProfession, NonEmpty(form.partnerBirthDate))
  }

  /** Saving a client whose stored partner birthdate is missing sends `null`
      for it again, while a missing address is sent as an empty string. */
  lemma LoadThenSaveKeepsAbsentDates(c: ClientRecord, toIsoString: string -> string)
    requires c.partnerBirthDate.None? && c.address.None?
    ensures Payload(FormFor(c, toIsoString)).partnerbirthdate.None?
    ensures Payload(FormFor(c, toIsoString)).address == ""
  {
  }

  const UpdateFailedMessage := "Erro ao atualizar cliente. Tente novamente."
  const InternalErrorMessage := "Erro interno. Tente novamente."

  // ---------------------------------------------------------------------
  // The component's state
  // ---------------------------------------------------------------------

  class EditClientDialog {
    var client: ClientRecord
    var formData: ClientForm
    var errors: ClientErrors
    var isSubmitting: bool

    /** The first render: the empty draft, before the effect runs. */
    constructor (c: ClientRecord)
      ensures client == c && formData == EmptyForm && errors == map[] && !isSubmitting
    {
      client := c;
      formData := EmptyForm;
      errors := map[];
      isSubmitting := false;
    }

    /** The `useEffect` on `client`: the draft is rebuilt from the prop. */
    method Load(c: ClientRecord, toIsoString: string -> string)
      modifies this`client, this`formData
      ensures client == c && formData == FormFor(c, toIsoString)
    {
      client := c;
      formData := FormFor(c, toIsoString);
    }

    /** `handleInputChange`. */
    method HandleInputChange(field: Field, value: string)
      modifies this`formData, this`errors
      ensures formData == WithField(old(formData), field, value)
      ensures errors == ClearError(old(errors), FieldError(field))
    {
      formData := WithField(formData, field, value);
      if FieldError(field) in errors && errors[FieldError(field)] != "" {
        errors := errors[FieldError(field) := ""];
      }
    }

    /** `validateForm`. */
    method ValidateForm() returns (ok: bool)
      modifies this`errors
      ensures errors == ValidationErrors(formData)
      ensures ok <==> Acceptable(formData)
    {
      errors := CheckFields(formData);
      ValidationPasses(formData);
      ok := |errors| == 0;
    }

    /** The synchronous part of `handleSubmit`: validate, and for an
        acceptable draft mark the dialog as submitting and yield the client's
        id with the payload. */
    method BeginSubmit() returns (request: Option<(int, ClientUpdate)>)
      modifies this`errors, this`isSubmitting
      ensures errors == ValidationErrors(formData)
      ensures request.Some? <==> Acceptable(formData)
      ensures request.Some? ==> request.value == (client.id, Payload(formData)) && isSubmitting
      ensures request.None? ==> isSubmitting == old(isSubmitting)
    {
      var ok := ValidateForm();
      request := None;
      if ok {
        isSubmitting := true;
        request := Some((client.id, Payload(formData)));
      }
    }

    /** The part of `handleSubmit` after `updateClient` settles: a success
        closes the dialog (`closed` stands for `onClientUpdated` and
        `onClose`), a failure leaves only its message. The flag drops. */
    method FinishSubmit(outcome: CallOutcome) returns (closed: bool)
      modifies this`errors, this`isSubmitting
      ensures !isSubmitting
      ensures closed <==> outcome.Succeeded?
      ensures outcome.Succeeded? ==> errors == old(errors)
      ensures outcome.Failed? ==> errors == map[SubmitError := UpdateFailedMessage]
      ensures outcome.Threw? ==> errors == map[SubmitError := InternalErrorMessage]
    {
      closed := false;
      match outcome {
        case Succeeded =>
          closed := true;
        case Failed =>
          errors := map[SubmitError := UpdateFailedMessage];
        case Threw =>
          errors := map[SubmitError := InternalErrorMessage];
      }
      isSubmitting := false;
    }

    /** `handleClose`: the errors go and the dialog closes; the draft stays. */
    method HandleClose() returns (closed: bool)
      modifies this`errors
      ensures closed && errors == map[]
    {
      errors := map[];
      closed := true;
    }
  }
}
