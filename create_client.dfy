/** The four-step client-creation wizard (CreateClient.tsx): a step counter,
    a draft of the whole client with its dependents, and the error map of the
    last validation. Step 1 holds the basic information, step 2 the optional
    address, step 3 the partner and step 4 the dependents. */
module CreateClient {
  import opened Text
  import opened EmailPatterns
  import opened Options
  import opened FormErrors
  import opened Seqs

  /** A dependent drafted in step 4. `kind` is the source's `type` field. The
      optional fields of the draft start as "" and stay strings. */
  datatype Dependent = Dependent(
    id: string,
    name: string,
    email: string,
    gender: string,
    birthdate: string,
    phoneNumber: string,
    kind: string)

  /** The wizard's draft, `ClientFormData`. */
  datatype ClientForm = ClientForm(
    name: string,
    email: string,
    phoneNumber: string,
    gender: string,
    profession: string,
    birthdate: string,
    maritalStatus: string,
    address: string,
    addressNumber: string,
    addressComplement: string,
    hasPartner: bool,
    partnerName: string,
    partnerEmail: string,
    partnerPhoneNumber: string,
    partnerGender: string,
    partnerProfession: string,
    partnerBirthdate: string,
    dependents: seq<Dependent>)

  /** `initialFormData`: every text empty, no partner, no dependents. */
  const InitialForm := ClientForm("", "", "", "", "", "", "", "", "", "", false, "", "", "", "", "", "", [])

  /** `stepContent.length`. */
  const TotalSteps := 4

  // ---------------------------------------------------------------------
  // Editing the draft
  // ---------------------------------------------------------------------

  /** The draft fields the inputs of steps 1 to 3 edit through `updateFormData`. */
  datatype FormField =
    | Name | EmailAddress | PhoneNumber | Gender | Profession | Birthdate | MaritalStatus
    | Address | AddressNumber | AddressComplement
    | HasPartner
    | PartnerName | PartnerEmail | PartnerPhoneNumber | PartnerGender | PartnerProfession | PartnerBirthdate

  /** The property name each input passes, which is also its error key. */
  function FieldKey(f: FormField): string {
    match f
    case Name => "name"
    case EmailAddress => "email"
    case PhoneNumber => "phoneNumber"
    case Gender => "gender"
    case Profession => "profession"
    case Birthdate => "birthdate"
    case MaritalStatus => "maritalStatus"
    case Address => "address"
    case AddressNumber => "addressNumber"
    case AddressComplement => "addressComplement"
    case HasPartner => "hasPartner"
    case PartnerName => "partnerName"
    case PartnerEmail => "partnerEmail"
    case PartnerPhoneNumber => "partnerPhoneNumber"
    case PartnerGender => "partnerGender"
    case PartnerProfession => "partnerProfession"
    case PartnerBirthdate => "partnerBirthdate"
  }

  lemma FieldKeyInjective(f: FormField, g: FormField)
    ensures FieldKey(f) == FieldKey(g) ==> f == g
  {
  }

  /** The `value` of `updateFormData`: the text of an input, or the checkbox of
      `hasPartner`. */
  datatype FieldValue = TextValue(text: string) | FlagValue(flag: bool)

  /** Only the `hasPartner` checkbox passes a flag; every other input a text. */
  predicate Fits(f: FormField, v: FieldValue) {
    f.HasPartner? <==> v.FlagValue?
  }

  function GetField(form: ClientForm, f: FormField): (v: FieldValue)
    ensures Fits(f, v)
  {
    match f
    case Name => TextValue(form.name)
    case EmailAddress => TextValue(form.email)
    case PhoneNumber => TextValue(form.phoneNumber)
    case Gender => TextValue(form.gender)
    case Profession => TextValue(form.profession)
    case Birthdate => TextValue(form.birthdate)
    case MaritalStatus => TextValue(form.maritalStatus)
    case Address => TextValue(form.address)
    case AddressNumber => TextValue(form.addressNumber)
    case AddressComplement => TextValue(form.addressComplement)
    case HasPartner => FlagValue(form.hasPartner)
    case PartnerName => TextValue(form.partnerName)
    case PartnerEmail => TextValue(form.partnerEmail)
    case PartnerPhoneNumber => TextValue(form.partnerPhoneNumber)
    case PartnerGender => TextValue(form.partnerGender)
    case PartnerProfession => TextValue(form.partnerProfession)
    case PartnerBirthdate => TextValue(form.partnerBirthdate)
  }

  /** `{ ...prev, [field]: value }`: the field takes the value, and every other
      field and the dependents stay as they were. */
  function WithField(form: ClientForm, f: FormField, v: FieldValue): (r: ClientForm)
    requires Fits(f, v)
    ensures GetField(r, f) == v
    ensures forall g :: g != f ==> GetField(r, g) == GetField(form, g)
    ensures r.dependents == form.dependents
  {
    match f
    case Name => form.(name := v.text)
    case EmailAddress => form.(email := v.text)
    case PhoneNumber => form.(phoneNumber := v.text)
    case Gender => form.(gender := v.text)
    case Profession => form.(profession := v.text)
    case Birthdate => form.(birthdate := v.text)
    case MaritalStatus => form.(maritalStatus := v.text)
    case Address => form.(address := v.text)
    case AddressNumber => form.(addressNumber := v.text)
    case AddressComplement => form.(addressComplement := v.text)
    case HasPartner => form.(hasPartner := v.flag)
    case PartnerName => form.(partnerName := v.text)
    case PartnerEmail => form.(partnerEmail := v.text)
    case PartnerPhoneNumber => form.(partnerPhoneNumber := v.text)
    case PartnerGender => form.(partnerGender := v.text)
    case PartnerProfession => form.(partnerProfession := v.text)
    case PartnerBirthdate => form.(partnerBirthdate := v.text)
  }

  /** The fields of a dependent that step 4's inputs edit through `updateDependent`. */
  datatype DependentField = DepName | DepEmail | DepGender | DepBirthdate | DepPhoneNumber | DepType

  function DependentFieldValue(d: Dependent, f: DependentField): string {
    match f
    case DepName => d.name
    case DepEmail => d.email
    case DepGender => d.gender
    case DepBirthdate => d.birthdate
    case DepPhoneNumber => d.phoneNumber
    case DepType => d.kind
  }

  /** `{ ...dep, [field]: value }`: the id and the other fields are kept. */
  function SetDependentField(d: Dependent, f: DependentField, v: string): (r: Dependent)
    ensures r.id == d.id
    ensures DependentFieldValue(r, f) == v
    ensures forall g :: g != f ==> DependentFieldValue(r, g) == DependentFieldValue(d, g)
  {
    match f
    case DepName => d.(name := v)
    case DepEmail => d.(email := v)
    case DepGender => d.(gender := v)
    case DepBirthdate => d.(birthdate := v)
    case DepPhoneNumber => d.(phoneNumber := v)
    case DepType => d.(kind := v)
  }

  /** The dependent `addDependent` creates: the generated id (`Date.now()`, a
      parameter here) and every field empty. */
  function NewDependent(id: string): (d: Dependent)
    ensures d.id == id
    ensures forall f :: DependentFieldValue(d, f) == ""
  {
    Dependent(id, "", "", "", "", "", "")
  }

  /** `[...prev.dependents, newDependent]`: one blank dependent appended, the
      earlier ones unchanged. */
  function AddedDependent(deps: seq<Dependent>, id: string): (r: seq<Dependent>)
    ensures |r| == |deps| + 1
    ensures r[..|deps|] == deps
    ensures r[|deps|].id == id && forall f :: DependentFieldValue(r[|deps|], f) == ""
  {
    deps + [NewDependent(id)]
  }

  /** `prev.dependents.map(dep => dep.id === id ? { ...dep, [field]: value } : dep)`:
      same length and order; every dependent with that id gets the new value
      in that field and keeps the rest; every other dependent is untouched. */
  function UpdatedDependents(deps: seq<Dependent>, id: string, f: DependentField, v: string): (r: seq<Dependent>)
    ensures |r| == |deps|
    ensures forall i :: 0 <= i < |deps| && deps[i].id != id ==> r[i] == deps[i]
    ensures forall i :: 0 <= i < |deps| && deps[i].id == id ==>
      && r[i].id == id
      && DependentFieldValue(r[i], f) == v
      && forall g :: g != f ==> DependentFieldValue(r[i], g) == DependentFieldValue(deps[i], g)
  {
    seq(|deps|, i requires 0 <= i < |deps| => if deps[i].id == id then SetDependentField(deps[i], f, v) else deps[i])
  }

  /** `prev.dependents.filter(dep => dep.id !== id)`: every dependent with that
      id is gone, every other one stays as often as it was there, and the
      survivors keep their relative order. */
  function RemovedDependents(deps: seq<Dependent>, id: string): (r: seq<Dependent>)
    ensures IsSubsequence(r, deps)
    ensures forall i :: 0 <= i < |r| ==> r[i].id != id
    ensures forall d :: multiset(r)[d] == if d.id == id then 0 else multiset(deps)[d]
  {
    Filter(deps, (d: Dependent) => d.id != id)
  }

  /** Removing an id no dependent has changes nothing. */
  lemma RemoveAbsentId(deps: seq<Dependent>, id: string)
    requires forall i :: 0 <= i < |deps| ==> deps[i].id != id
    ensures RemovedDependents(deps, id) == deps
  {
    FilterAll(deps, (d: Dependent) => d.id != id);
  }

  // ---------------------------------------------------------------------
  // validateStep, stated per step
  // ---------------------------------------------------------------------

  /** Whether `validateStep` flags the field. The e-mail is flagged by two
      consecutive tests: blank after `trim`, or typed but rejected by the
      unanchored pattern. */
  predicate FieldFails(f: ClientForm, field: FormField) {
    match field
    case Name => IsBlank(f.name)
    case EmailAddress => IsBlank(f.email) || (f.email != "" && !LooseEmail(f.email))
    case PhoneNumber => IsBlank(f.phoneNumber)
    case Gender => f.gender == ""
    case Profession => IsBlank(f.profession)
    case Birthdate => f.birthdate == ""
    case MaritalStatus => f.maritalStatus == ""
    case PartnerName => IsBlank(f.partnerName)
    case PartnerEmail => IsBlank(f.partnerEmail) || (f.partnerEmail != "" && !LooseEmail(f.partnerEmail))
    case PartnerPhoneNumber => IsBlank(f.partnerPhoneNumber)
    case PartnerGender => f.partnerGender == ""
    case PartnerProfession => IsBlank(f.partnerProfession)
    case PartnerBirthdate => f.partnerBirthdate == ""
    case _ => false
  }

  /** The message stored for a flagged field. For the e-mails the pattern test
      runs last, so its message wins when both tests fire. */
  function FieldMessage(f: ClientForm, field: FormField): string {
    match field
    case Name => "Nome é obrigatório"
    case EmailAddress => if f.email != "" && !LooseEmail(f.email) then "Email inválido" else "Email é obrigatório"
    case PhoneNumber => "Telefone é obrigatório"
    case Gender => "Gênero é obrigatório"
    case Profession => "Profissão é obrigatória"
    case Birthdate => "Data de nascimento é obrigatória"
    case MaritalStatus => "Estado civil é obrigatório"
    case PartnerName => "Nome do parceiro é obrigatório"
    case PartnerEmail =>
      if f.partnerEmail != "" && !LooseEmail(f.partnerEmail) then "Email do parceiro inválido"
      else "Email do parceiro é obrigatório"
    case PartnerPhoneNumber => "Telefone do parceiro é obrigatório"
    case PartnerGender => "Gênero do parceiro é obrigatório"
    case PartnerProfession => "Profissão do parceiro é obrigatória"
    case PartnerBirthdate => "Data de nascimento do parceiro é obrigatória"
    case _ => ""
  }

  /** The fields step 1 checks. */
  predicate BasicInfoField(field: FormField) {
    field.Name? || field.EmailAddress? || field.PhoneNumber? || field.Gender?
    || field.Profession? || field.Birthdate? || field.MaritalStatus?
  }

  /** The fields step 3 checks. */
  predicate PartnerField(field: FormField) {
    field.PartnerName? || field.PartnerEmail? || field.PartnerPhoneNumber?
    || field.PartnerGender? || field.PartnerProfession? || field.PartnerBirthdate?
  }

  /** Everything step 1 demands: the texts non-blank, the selections made and
      the e-mail accepted by `\S+@\S+\.\S+`. */
  predicate BasicInfoComplete(f: ClientForm) {
    && !IsBlank(f.name) && !IsBlank(f.email) && !IsBlank(f.phoneNumber) && !IsBlank(f.profession)
    && f.gender != "" && f.birthdate != "" && f.maritalStatus != ""
    && LooseEmail(f.email)
  }

  /** A blank e-mail never passes the pattern, which needs an `@` right after a
      character that is not white space. */
  lemma BlankEmailIsNotLoose(s: string)
    ensures IsBlank(s) ==> !LooseEmail(s)
  {
    if IsBlank(s) {
      forall at, dot | 0 < at < |s| && at + 1 < dot < |s| - 1
        ensures !LooseMatchAt(s, at, dot)
      {
        assert IsWhitespace(s[at - 1]);
      }
    }
  }

  /** The error map of step 1: an entry for exactly the step's fields that
      fail, each with its message. */
  function BasicInfoErrors(f: ClientForm): (r: WizardErrors)
    ensures forall k :: k in r <==> k.FieldError? && BasicInfoField(k.field) && FieldFails(f, k.field)
    ensures forall k :: k in r ==> r[k] == FieldMessage(f, k.field)
  {
    map field: FormField | BasicInfoField(field) && FieldFails(f, field) :: FieldError(field) := FieldMessage(f, field)
  }

  /** Step 1 field by field: a key exactly for each field left blank or
      unselected (the e-mail is stated by BasicEmailError). */
  lemma BasicInfoTests(f: ClientForm)
    ensures var r := BasicInfoErrors(f);
      && (FieldError(Name) in r <==> IsBlank(f.name))
      && (FieldError(PhoneNumber) in r <==> IsBlank(f.phoneNumber))
      && (FieldError(Profession) in r <==> IsBlank(f.profession))
      && (FieldError(Gender) in r <==> f.gender == "")
      && (FieldError(Birthdate) in r <==> f.birthdate == "")
      && (FieldError(MaritalStatus) in r <==> f.maritalStatus == "")
  {
    var r := BasicInfoErrors(f);
    assert FieldError(Name) in r <==> FieldFails(f, Name);
    assert FieldError(PhoneNumber) in r <==> FieldFails(f, PhoneNumber);
    assert FieldError(Profession) in r <==> FieldFails(f, Profession);
    assert FieldError(Gender) in r <==> FieldFails(f, Gender);
    assert FieldError(Birthdate) in r <==> FieldFails(f, Birthdate);
    assert FieldError(MaritalStatus) in r <==> FieldFails(f, MaritalStatus);
  }

  /** The e-mail is flagged exactly when the pattern rejects it. When the
      e-mail is not empty the "invalid" message stands, since its test runs
      after the "required" one and overwrites it; this includes an e-mail of
      white space only, which is blank yet truthy. Only the empty e-mail keeps
      the "required" message. */
  lemma BasicEmailError(f: ClientForm)
    ensures FieldError(EmailAddress) in BasicInfoErrors(f) <==> !LooseEmail(f.email)
    ensures FieldError(EmailAddress) in BasicInfoErrors(f) ==>
      BasicInfoErrors(f)[FieldError(EmailAddress)] == if f.email != "" then "Email inválido" else "Email é obrigatório"
  {
    BlankEmailIsNotLoose(f.email);
  }

  /** Step 1 passes exactly when all its fields are complete. */
  lemma BasicInfoPasses(f: ClientForm)
    ensures NoErrors(BasicInfoErrors(f)) <==> BasicInfoComplete(f)
  {
    var r := BasicInfoErrors(f);
    BasicInfoTests(f);
    BasicEmailError(f);
    NoErrorsIsEmpty(r);
    if BasicInfoComplete(f) {
      assert r.Keys == {};
    }
  }

  /** Everything step 3 demands when the client has a partner. */
  predicate PartnerComplete(f: ClientForm) {
    && !IsBlank(f.partnerName) && !IsBlank(f.partnerEmail) && !IsBlank(f.partnerPhoneNumber)
    && !IsBlank(f.partnerProfession)
    && f.partnerGender != "" && f.partnerBirthdate != ""
    && LooseEmail(f.partnerEmail)
  }

  /** The error map of step 3 for a client with a partner: an entry for
      exactly the partner's fields that fail, each with its message. */
  function PartnerErrors(f: ClientForm): (r: WizardErrors)
    ensures forall k :: k in r <==> k.FieldError? && PartnerField(k.field) && FieldFails(f, k.field)
    ensures forall k :: k in r ==> r[k] == FieldMessage(f, k.field)
  {
    map field: FormField | PartnerField(field) && FieldFails(f, field) :: FieldError(field) := FieldMessage(f, field)
  }

  /** Step 3 field by field (the e-mail is stated by PartnerEmailError). */
  lemma PartnerTests(f: ClientForm)
    ensures var r := PartnerErrors(f);
      && (FieldError(PartnerName) in r <==> IsBlank(f.partnerName))
      && (FieldError(PartnerPhoneNumber) in r <==> IsBlank(f.partnerPhoneNumber))
      && (FieldError(PartnerGender) in r <==> f.partnerGender == "")
      && (FieldError(PartnerProfession) in r <==> IsBlank(f.partnerProfession))
      && (FieldError(PartnerBirthdate) in r <==> f.partnerBirthdate == "")
  {
    var r := PartnerErrors(f);
    assert FieldError(PartnerName) in r <==> FieldFails(f, PartnerName);
    assert FieldError(PartnerPhoneNumber) in r <==> FieldFails(f, PartnerPhoneNumber);
    assert FieldError(PartnerGender) in r <==> FieldFails(f, PartnerGender);
    assert FieldError(PartnerProfession) in r <==> FieldFails(f, PartnerProfession);
    assert FieldError(PartnerBirthdate) in r <==> FieldFails(f, PartnerBirthdate);
  }

  /** The partner's e-mail is flagged exactly when the pattern rejects it. When
      it is not empty the "invalid" message stands, since its test runs after
      the "required" one and overwrites it; this includes an e-mail of white
      space only. Only the empty e-mail keeps the "required" message. */
  lemma PartnerEmailError(f: ClientForm)
    ensures FieldError(PartnerEmail) in PartnerErrors(f) <==> !LooseEmail(f.partnerEmail)
    ensures FieldError(PartnerEmail) in PartnerErrors(f) ==>
      PartnerErrors(f)[FieldError(PartnerEmail)] == if f.partnerEmail != "" then "Email do parceiro inválido" else "Email do parceiro é obrigatório"
  {
    BlankEmailIsNotLoose(f.partnerEmail);
  }

  /** Step 3 passes exactly when all the partner's fields are complete. */
  lemma PartnerPasses(f: ClientForm)
    ensures NoErrors(PartnerErrors(f)) <==> PartnerComplete(f)
  {
    var r := PartnerErrors(f);
    PartnerTests(f);
    PartnerEmailError(f);
    NoErrorsIsEmpty(r);
    if PartnerComplete(f) {
      assert r.Keys == {};
    }
  }

  /** The four checks step 4 makes on each dependent. */
  datatype DependentCheck = NameCheck | GenderCheck | TypeCheck | EmailCheck

  function CheckSuffix(c: DependentCheck): string {
    match c
    case NameCheck => "name"
    case GenderCheck => "gender"
    case TypeCheck => "type"
    case EmailCheck => "email"
  }

  /** The key `dependent_${index}_<field>` of a dependent's error. */
  function DependentKey(index: nat, c: DependentCheck): string {
    "dependent_" + NatToString(index) + "_" + CheckSuffix(c)
  }

  /** The keys of the wizard's error map: a field of steps 1 to 3, or one check
      of one dependent. */
  datatype ErrorKey = FieldError(field: FormField) | DependentError(index: nat, check: DependentCheck)

  type WizardErrors = Errors<ErrorKey>

  /** The key string the source stores. */
  function KeyName(k: ErrorKey): string {
    match k
    case FieldError(f) => FieldKey(f)
    case DependentError(i, c) => DependentKey(i, c)
  }

  /** Field keys never start with the `d` of `dependent_`. */
  lemma FieldKeyIsNotDependentKey(f: FormField, i: nat, c: DependentCheck)
    ensures FieldKey(f) != DependentKey(i, c)
  {
    assert DependentKey(i, c)[0] == 'd';
  }

  /** Distinct keys are distinct strings, so the map over ErrorKey is the
      source's record keyed by strings. */
  lemma KeyNameInjective(k: ErrorKey, l: ErrorKey)
    ensures KeyName(k) == KeyName(l) ==> k == l
  {
    if k.FieldError? && l.DependentError? {
      FieldKeyIsNotDependentKey(k.field, l.index, l.check);
    } else if k.DependentError? && l.FieldError? {
      FieldKeyIsNotDependentKey(l.field, k.index, k.check);
    } else if KeyName(k) == KeyName(l) {
      if k.FieldError? && l.FieldError? {
        FieldKeyInjective(k.field, l.field);
      } else if k.DependentError? && l.DependentError? {
        DependentKeyInjective(k.index, k.check, l.index, l.check);
      }
    }
  }

  predicate DependentFails(d: Dependent, c: DependentCheck) {
    match c
    case NameCheck => IsBlank(d.name)
    case GenderCheck => d.gender == ""
    case TypeCheck => d.kind == ""
    case EmailCheck => d.email != "" && !LooseEmail(d.email)
  }

  /** The message, which numbers dependents from 1. */
  function DependentMessage(index: nat, c: DependentCheck): string {
    var n := NatToString(index + 1);
    match c
    case NameCheck => "Nome do dependente " + n + " é obrigatório"
    case GenderCheck => "Gênero do dependente " + n + " é obrigatório"
    case TypeCheck => "Tipo do dependente " + n + " é obrigatório"
    case EmailCheck => "Email do dependente " + n + " é inválido"
  }

  predicate DependentComplete(d: Dependent) {
    forall c :: !DependentFails(d, c)
  }

  const AllChecks: set<DependentCheck> := {NameCheck, GenderCheck, TypeCheck, EmailCheck}

  /** The keys the checks of the first `n` dependents can produce. */
  function DependentKeys(n: nat): set<ErrorKey> {
    set i, c | 0 <= i < n && c in AllChecks :: DependentError(i, c)
  }

  /** The key names a test that failed for one of the first `n` dependents. */
  predicate DependentFlagged(deps: seq<Dependent>, n: nat, k: ErrorKey) {
    n <= |deps| && k.DependentError? && k.index < n && DependentFails(deps[k.index], k.check)
  }

  /** The error map of step 4: a key for every test a dependent fails, with
      that test's message, and nothing else. */
  function DependentErrors(deps: seq<Dependent>): (r: WizardErrors)
    ensures forall k :: k in r <==> DependentFlagged(deps, |deps|, k)
    ensures forall k :: k in r ==> k.DependentError? && r[k] == DependentMessage(k.index, k.check)
  {
    map k | k in DependentKeys(|deps|) && DependentFails(deps[k.index], k.check) :: DependentMessage(k.index, k.check)
  }

  /** The error map `validateStep(currentStep)` computes. Step 2 is never
      checked, and step 3 only for a client with a partner. */
  function StepErrors(currentStep: int, f: ClientForm): WizardErrors {
    if currentStep == 1 then BasicInfoErrors(f)
    else if currentStep == 3 && f.hasPartner then PartnerErrors(f)
    else if currentStep == 4 then DependentErrors(f.dependents)
    else map[]
  }

  /** In `a + "_" + s` with `a` made of digits, `a` is everything before the
      first `_`. */
  lemma DigitsThenUnderscore(a: string, s: string, b: string, t: string)
    requires AllDigits(a) && AllDigits(b)
    requires a + "_" + s == b + "_" + t
    ensures a == b && s == t
  {
    var x := a + "_" + s;
    assert x[|a|] == '_' && x[|b|] == '_';
    assert forall i :: 0 <= i < |a| ==> x[i] == a[i];
    assert forall i :: 0 <= i < |b| ==> x[i] == b[i];
    assert |a| == |b|;
    assert a == x[..|a|] && b == x[..|b|];
    assert s == x[|a| + 1..] && t == x[|b| + 1..];
  }

  lemma PrefixCancel(p: string, x: string, y: string)
    requires p + x == p + y
    ensures x == y
  {
    assert x == (p + x)[|p|..];
    assert y == (p + y)[|p|..];
  }

  /** Different dependents, or different checks, never share an error key. */
  lemma DependentKeyInjective(i: nat, c: DependentCheck, j: nat, e: DependentCheck)
    ensures DependentKey(i, c) == DependentKey(j, e) ==> i == j && c == e
  {
    var x := NatToString(i) + "_" + CheckSuffix(c);
    var y := NatToString(j) + "_" + CheckSuffix(e);
    assert DependentKey(i, c) == "dependent_" + x;
    assert DependentKey(j, e) == "dependent_" + y;
    if DependentKey(i, c) == DependentKey(j, e) {
      PrefixCancel("dependent_", x, y);
      DigitsThenUnderscore(NatToString(i), CheckSuffix(c), NatToString(j), CheckSuffix(e));
      NatToStringInjective(i, j);
    }
  }

  /** Step 4 passes exactly when every dependent passes all four tests. */
  lemma DependentErrorsEmpty(deps: seq<Dependent>)
    ensures DependentErrors(deps) == map[] <==> forall j :: 0 <= j < |deps| ==> DependentComplete(deps[j])
  {
    var r := DependentErrors(deps);
    if r == map[] {
      forall j, c | 0 <= j < |deps|
        ensures !DependentFails(deps[j], c)
      {
        assert DependentError(j, c) !in r;
      }
    } else {
      var k :| k in r;
    }
  }

  /** Each dependent adds at most its four keys. */
  lemma {:induction false} DependentKeysBound(n: nat)
    ensures |DependentKeys(n)| <= 4 * n
  {
    if n > 0 {
      DependentKeysBound(n - 1);
      var own := {DependentError(n - 1, NameCheck), DependentError(n - 1, GenderCheck),
                  DependentError(n - 1, TypeCheck), DependentError(n - 1, EmailCheck)};
      assert DependentKeys(n) == DependentKeys(n - 1) + own;
      assert |own| <= 4;
    }
  }

  /** A subset is no larger than the set holding it. */
  lemma {:induction false} SubsetSize<T>(a: set<T>, b: set<T>)
    requires a <= b
    ensures |a| <= |b|
    decreases |a|
  {
    if a != {} {
      var x :| x in a;
      SubsetSize(a - {x}, b - {x});
    }
  }

  /** Step 4 reports at most four errors per dependent, one per test. */
  lemma DependentErrorsBound(deps: seq<Dependent>)
    ensures |DependentErrors(deps)| <= 4 * |deps|
  {
    var r := DependentErrors(deps);
    assert r.Keys <= DependentKeys(|deps|);
    SubsetSize(r.Keys, DependentKeys(|deps|));
    DependentKeysBound(|deps|);
  }

  /** The outcome of `validateStep` step by step: step 2 always passes, step 3
      passes for a client without a partner, and steps 1, 3 and 4 pass exactly
      when their fields are complete. */
  lemma ValidateStepPasses(f: ClientForm)
    ensures NoErrors(StepErrors(2, f))
    ensures NoErrors(StepErrors(1, f)) <==> BasicInfoComplete(f)
    ensures !f.hasPartner ==> NoErrors(StepErrors(3, f))
    ensures f.hasPartner ==> (NoErrors(StepErrors(3, f)) <==> PartnerComplete(f))
    ensures NoErrors(StepErrors(4, f)) <==> forall j :: 0 <= j < |f.dependents| ==> DependentComplete(f.dependents[j])
  {
    BasicInfoPasses(f);
    PartnerPasses(f);
    NoErrorsIsEmpty(StepErrors(4, f));
    DependentErrorsEmpty(f.dependents);
  }

  /** The first tests of step 1: the name, then the e-mail twice, the
      pattern test overwriting the "required" message. */
  method CheckNameAndEmail(f: ClientForm) returns (newErrors: WizardErrors)
    ensures forall k :: k in newErrors <==> k.FieldError? && (k.field.Name? || k.field.EmailAddress?) && FieldFails(f, k.field)
    ensures forall k :: k in newErrors ==> newErrors[k] == FieldMessage(f, k.field)
  {
    newErrors := map[];
    if Trim(f.name) == "" {
      newErrors := newErrors[FieldError(Name) := "Nome é obrigatório"];
    }
    if Trim(f.email) == "" {
      newErrors := newErrors[FieldError(EmailAddress) := "Email é obrigatório"];
    }
    if f.email != "" && !LooseEmail(f.email) {
      newErrors := newErrors[FieldError(EmailAddress) := "Email inválido"];
    }
  }

  /** The next tests of step 1: phone, gender and profession. */
  method CheckPhoneGenderProfession(errors: WizardErrors, f: ClientForm) returns (newErrors: WizardErrors)
    requires forall k :: k in errors ==> k.FieldError? && (k.field.Name? || k.field.EmailAddress?)
    ensures forall k :: k in newErrors <==>
      k in errors || (k.FieldError? && (k.field.PhoneNumber? || k.field.Gender? || k.field.Profession?) && FieldFails(f, k.field))
    ensures forall k :: k in newErrors ==> newErrors[k] == if k in errors then errors[k] else FieldMessage(f, k.field)
  {
    newErrors := errors;
    if Trim(f.phoneNumber) == "" {
      newErrors := newErrors[FieldError(PhoneNumber) := "Telefone é obrigatório"];
    }
    if f.gender == "" {
      newErrors := newErrors[FieldError(Gender) := "Gênero é obrigatório"];
    }
    if Trim(f.profession) == "" {
      newErrors := newErrors[FieldError(Profession) := "Profissão é obrigatória"];
    }
  }

  /** The last tests of step 1: birthdate and marital status. */
  method CheckBirthdateAndStatus(errors: WizardErrors, f: ClientForm) returns (newErrors: WizardErrors)
    requires forall k :: k in errors ==> k.FieldError? && !k.field.Birthdate? && !k.field.MaritalStatus?
    ensures forall k :: k in newErrors <==>
      k in errors || (k.FieldError? && (k.field.Birthdate? || k.field.MaritalStatus?) && FieldFails(f, k.field))
    ensures forall k :: k in newErrors ==> newErrors[k] == if k in errors then errors[k] else FieldMessage(f, k.field)
  {
    newErrors := errors;
    if f.birthdate == "" {
      newErrors := newErrors[FieldError(Birthdate) := "Data de nascimento é obrigatória"];
    }
    if f.maritalStatus == "" {
      newErrors := newErrors[FieldError(MaritalStatus) := "Estado civil é obrigatório"];
    }
  }

  /** The tests of step 1, in the source's order. */
  method CheckBasicInfo(f: ClientForm) returns (newErrors: WizardErrors)
    ensures newErrors == BasicInfoErrors(f)
  {
    newErrors := CheckNameAndEmail(f);
    newErrors := CheckPhoneGenderProfession(newErrors, f);
    newErrors := CheckBirthdateAndStatus(newErrors, f);
    forall k
      ensures k in newErrors <==> k.FieldError? && BasicInfoField(k.field) && FieldFails(f, k.field)
    {
      if k.FieldError? {
        match k.field
        case Name =>
        case EmailAddress =>
        case PhoneNumber =>
        case Gender =>
        case Profession =>
        case Birthdate =>
        case MaritalStatus =>
        case _ =>
      }
    }
    assert newErrors.Keys == BasicInfoErrors(f).Keys;
  }

  /** The first tests of step 3: the partner's name, then the partner's
      e-mail twice. */
  method CheckPartnerNameAndEmail(f: ClientForm) returns (newErrors: WizardErrors)
    ensures forall k :: k in newErrors <==> k.FieldError? && (k.field.PartnerName? || k.field.PartnerEmail?) && FieldFails(f, k.field)
    ensures forall k :: k in newErrors ==> newErrors[k] == FieldMessage(f, k.field)
  {
    newErrors := map[];
    if Trim(f.partnerName) == "" {
      newErrors := newErrors[FieldError(PartnerName) := "Nome do parceiro é obrigatório"];
    }
    if Trim(f.partnerEmail) == "" {
      newErrors := newErrors[FieldError(PartnerEmail) := "Email do parceiro é obrigatório"];
    }
    if f.partnerEmail != "" && !LooseEmail(f.partnerEmail) {
      newErrors := newErrors[FieldError(PartnerEmail) := "Email do parceiro inválido"];
    }
  }

  /** The next tests of step 3: the partner's phone and gender. */
  method CheckPartnerPhoneAndGender(errors: WizardErrors, f: ClientForm) returns (newErrors: WizardErrors)
    requires FieldError(PartnerPhoneNumber) !in errors && FieldError(PartnerGender) !in errors
    ensures forall k :: k in newErrors <==>
      || k in errors
      || (k == FieldError(PartnerPhoneNumber) && FieldFails(f, PartnerPhoneNumber))
      || (k == FieldError(PartnerGender) && FieldFails(f, PartnerGender))
    ensures forall k :: k in newErrors ==> newErrors[k] == if k in errors then errors[k] else FieldMessage(f, k.field)
  {
    newErrors := errors;
    if Trim(f.partnerPhoneNumber) == "" {
      newErrors := newErrors[FieldError(PartnerPhoneNumber) := "Telefone do parceiro é obrigatório"];
    }
    if f.partnerGender == "" {
      newErrors := newErrors[FieldError(PartnerGender) := "Gênero do parceiro é obrigatório"];
    }
  }

  /** The fifth test of step 3: the partner's profession. */
  method CheckPartnerProfession(errors: WizardErrors, f: ClientForm) returns (newErrors: WizardErrors)
    requires FieldError(PartnerProfession) !in errors
    ensures forall k :: k in newErrors <==>
      k in errors || (k == FieldError(PartnerProfession) && FieldFails(f, PartnerProfession))
    ensures forall k :: k in newErrors ==> newErrors[k] == if k in errors then errors[k] else FieldMessage(f, k.field)
  {
    newErrors := errors;
    if Trim(f.partnerProfession) == "" {
      newErrors := newErrors[FieldError(PartnerProfession) := "Profissão do parceiro é obrigatória"];
    }
  }

  /** The last test of step 3: the partner's birthdate. */
  method CheckPartnerBirthdate(errors: WizardErrors, f: ClientForm) returns (newErrors: WizardErrors)
    requires FieldError(PartnerBirthdate) !in errors
    ensures forall k :: k in newErrors <==>
      k in errors || (k == FieldError(PartnerBirthdate) && FieldFails(f, PartnerBirthdate))
    ensures forall k :: k in newErrors ==> newErrors[k] == if k in errors then errors[k] else FieldMessage(f, k.field)
  {
    newErrors := errors;
    if f.partnerBirthdate == "" {
      newErrors := newErrors[FieldError(PartnerBirthdate) := "Data de nascimento do parceiro é obrigatória"];
    }
  }

  /** The tests of step 3, in the source's order. */
  method CheckPartner(f: ClientForm) returns (newErrors: WizardErrors)
    ensures newErrors == PartnerErrors(f)
  {
    newErrors := CheckPartnerNameAndEmail(f);
    newErrors := CheckPartnerPhoneAndGender(newErrors, f);
    newErrors := CheckPartnerProfession(newErrors, f);
    newErrors := CheckPartnerBirthdate(newErrors, f);
    forall k
      ensures k in newErrors <==> k.FieldError? && PartnerField(k.field) && FieldFails(f, k.field)
    {
      if k.FieldError? {
        match k.field
        case PartnerName =>
        case PartnerEmail =>
        case PartnerPhoneNumber =>
        case PartnerGender =>
        case PartnerProfession =>
        case PartnerBirthdate =>
        case _ =>
      }
    }
    assert newErrors.Keys == PartnerErrors(f).Keys;
  }

  /** The body of `validateStep`: the tests of step 1, of step 3 for a client
      with a partner, or, at step 4, one turn of the `forEach` per dependent,
      each adding the entries of that dependent's four tests. */
  method ComputeStepErrors(currentStep: int, formData: ClientForm) returns (newErrors: WizardErrors)
    ensures newErrors == StepErrors(currentStep, formData)
  {
    newErrors := map[];
    if currentStep == 1 {
      newErrors := CheckBasicInfo(formData);
    } else if currentStep == 3 && formData.hasPartner {
      newErrors := CheckPartner(formData);
    } else if currentStep == 4 {
      newErrors := CheckDependents(formData.dependents);
    }
  }

  /** One turn of the `forEach`: the four tests of the dependent at `index`,
      each writing its message under its key when it fails. */
  method CheckDependent(errors: WizardErrors, index: nat, dependent: Dependent) returns (newErrors: WizardErrors)
    requires forall k :: k in errors ==> !(k.DependentError? && k.index == index)
    ensures forall k :: k in newErrors <==>
      k in errors || (k.DependentError? && k.index == index && DependentFails(dependent, k.check))
    ensures forall k :: k in newErrors ==>
      newErrors[k] == if k in errors then errors[k] else DependentMessage(index, k.check)
  {
    newErrors := errors;
    if Trim(dependent.name) == "" {
      newErrors := newErrors[DependentError(index, NameCheck) := DependentMessage(index, NameCheck)];
    }
    if dependent.gender == "" {
      newErrors := newErrors[DependentError(index, GenderCheck) := DependentMessage(index, GenderCheck)];
    }
    if dependent.kind == "" {
      newErrors := newErrors[DependentError(index, TypeCheck) := DependentMessage(index, TypeCheck)];
    }
    if dependent.email != "" && !LooseEmail(dependent.email) {
      newErrors := newErrors[DependentError(index, EmailCheck) := DependentMessage(index, EmailCheck)];
    }
    forall c: DependentCheck
      ensures DependentError(index, c) in newErrors <==> DependentFails(dependent, c)
    {
      match c
      case NameCheck =>
      case GenderCheck =>
      case TypeCheck =>
      case EmailCheck =>
    }
  }

  /** The `forEach` of step 4: each turn runs the four tests of one dependent
      and writes the failures under that dependent's keys. */
  method CheckDependents(deps: seq<Dependent>) returns (newErrors: WizardErrors)
    ensures newErrors == DependentErrors(deps)
  {
    newErrors := map[];
    for index := 0 to |deps|
      invariant forall k :: k in newErrors <==> DependentFlagged(deps, index, k)
      invariant forall k :: k in newErrors ==> k.DependentError? && newErrors[k] == DependentMessage(k.index, k.check)
    {
      newErrors := CheckDependent(newErrors, index, deps[index]);
    }
    assert newErrors.Keys == DependentErrors(deps).Keys;
  }

  // ---------------------------------------------------------------------
  // The payload of handleSubmit
  // ---------------------------------------------------------------------

  /** The `clientData` object posted on submit; `None` is `undefined`. */
  datatype ClientPayload = ClientPayload(
    name: string,
    email: string,
    phonenumber: string,
    gender: string,
    profession: string,
    birthdate: string,
    maritalstatus: string,
    address: Option<string>,
    addressnumber: Option<string>,
    addresscomplement: Option<string>,
    partnername: Option<string>,
    partneremail: Option<string>,
    partnerphonenumber: Option<string>,
    partnergender: Option<string>,
    partnerprofession: Option<string>,
    partnerbirthdate: Option<string>,
    useremail: string)

  /** The owner the wizard writes into every new client. */
  const OwnerEmail := "enzocastru@gmail.com"

  /** The field present only when the client has a partner. */
  function WhenPartner(f: ClientForm, value: string): (r: Option<string>)
    ensures r.Some? <==> f.hasPartner
    ensures r.Some? ==> r.value == value
  {
    if f.hasPartner then Some(value) else None
  }

  /** `clientData`: the basic fields copied, empty address fields dropped,
      every partner field dropped for a client without a partner (and the
      partner's birthdate also when it is empty), the fixed owner attached. */
  function Payload(f: ClientForm): (p: ClientPayload)
    ensures p.name == f.name && p.email == f.email && p.phonenumber == f.phoneNumber
    ensures p.gender == f.gender && p.profession == f.profession
    ensures p.birthdate == f.birthdate && p.maritalstatus == f.maritalStatus
    ensures p.address == NonEmpty(f.address)
    ensures p.addressnumber == NonEmpty(f.addressNumber)
    ensures p.addresscomplement == NonEmpty(f.addressComplement)
    ensures !f.hasPartner ==>
      && p.partnername == None && p.partneremail == None && p.partnerphonenumber == None
      && p.partnergender == None && p.partnerprofession == None && p.partnerbirthdate == None
    ensures f.hasPartner ==>
      && p.partnername == Some(f.partnerName) && p.partneremail == Some(f.partnerEmail)
      && p.partnerphonenumber == Some(f.partnerPhoneNumber) && p.partnergender == Some(f.partnerGender)
      && p.partnerprofession == Some(f.partnerProfession)
      && p.partnerbirthdate == NonEmpty(f.partnerBirthdate)
    ensures p.useremail == OwnerEmail
  {
    ClientPayload(
      f.name, f.email, f.phoneNumber, f.gender, f.profession, f.birthdate, f.maritalStatus,
      NonEmpty(f.address), NonEmpty(f.addressNumber), NonEmpty(f.addressComplement),
      WhenPartner(f, f.partnerName), WhenPartner(f, f.partnerEmail),
      WhenPartner(f, f.partnerPhoneNumber), WhenPartner(f, f.partnerGender),
      WhenPartner(f, f.partnerProfession),
      if f.hasPartner && f.partnerBirthdate != "" then Some(f.partnerBirthdate) else None,
      OwnerEmail)
  }

  // ---------------------------------------------------------------------
  // The component's state
  // ---------------------------------------------------------------------

  /** The `step`, `formData` and `errors` state of the component. */
  class ClientWizard {
    var step: int
    var formData: ClientForm
    var errors: WizardErrors

    /** The step counter never leaves 1..TotalSteps. */
    ghost predicate Valid()
      reads this
    {
      1 <= step <= TotalSteps
    }

    constructor ()
      ensures Valid()
      ensures step == 1 && formData == InitialForm && errors == map[]
    {
      step := 1;
      formData := InitialForm;
      errors := map[];
    }

    /** `onOpenChange(true)`: opening the dialog starts over. */
    method Open()
      modifies this
      ensures Valid()
      ensures step == 1 && formData == InitialForm && errors == map[]
    {
      step := 1;
      formData := InitialForm;
      errors := map[];
    }

    /** `validateStep`: the errors of that step are stored, and the step
        passes when there are none. */
    method ValidateStep(currentStep: int) returns (ok: bool)
      modifies this`errors
      ensures errors == StepErrors(currentStep, formData)
      ensures ok <==> NoErrors(errors)
    {
      var newErrors := ComputeStepErrors(currentStep, formData);
      errors := newErrors;
      ok := |newErrors| == 0;
    }

    /** `handleNext`: one step forward, only when the current step validates
        and is not the last. */
    method HandleNext()
      requires Valid()
      modifies this`step, this`errors
      ensures Valid()
      ensures formData == old(formData)
      ensures errors == StepErrors(old(step), formData)
      ensures step == if NoErrors(errors) && old(step) < TotalSteps then old(step) + 1 else old(step)
    {
      var ok := ValidateStep(step);
      if ok {
        if step < TotalSteps {
          step := step + 1;
        }
      }
    }

    /** `handleBack`: one step back, never before step 1. */
    method HandleBack()
      requires Valid()
      modifies this`step
      ensures Valid()
      ensures step == if old(step) > 1 then old(step) - 1 else old(step)
    {
      if step > 1 {
        step := step - 1;
      }
    }

    /** `updateFormData`: the field takes the value, and its error message, if
        it had one, is blanked. */
    method UpdateFormData(field: FormField, value: FieldValue)
      requires Fits(field, value)
      modifies this`formData, this`errors
      ensures formData == WithField(old(formData), field, value)
      ensures errors == ClearError(old(errors), FieldError(field))
    {
      formData := WithField(formData, field, value);
      if FieldError(field) in errors && errors[FieldError(field)] != "" {
        errors := errors[FieldError(field) := ""];
      }
    }

    /** `addDependent`, with the generated id passed in. */
    method AddDependent(newId: string)
      modifies this`formData
      ensures formData == old(formData).(dependents := AddedDependent(old(formData).dependents, newId))
    {
      formData := formData.(dependents := AddedDependent(formData.dependents, newId));
    }

    /** `updateDependent`. */
    method UpdateDependent(id: string, field: DependentField, value: string)
      modifies this`formData
      ensures formData == old(formData).(dependents := UpdatedDependents(old(formData).dependents, id, field, value))
    {
      formData := formData.(dependents := UpdatedDependents(formData.dependents, id, field, value));
    }

    /** `removeDependent`. */
    method RemoveDependent(id: string)
      modifies this`formData
      ensures formData == old(formData).(dependents := RemovedDependents(old(formData).dependents, id))
    {
      formData := formData.(dependents := RemovedDependents(formData.dependents, id));
    }

    /** `handleSubmit`: when the current step validates, the payload is built
        and posted; unless the post throws, the wizard then starts over. When
        it throws, the draft, the step and the errors stay. `postThrows` is the
        outcome of the call into the data-access layer. */
    method HandleSubmit(postThrows: bool) returns (posted: Option<ClientPayload>)
      requires Valid()
      modifies this
      ensures Valid()
      ensures posted.Some? <==> NoErrors(StepErrors(old(step), old(formData)))
      ensures posted.Some? ==> posted.value == Payload(old(formData))
      ensures posted.Some? && !postThrows ==> step == 1 && formData == InitialForm && errors == map[]
      ensures posted.None? || postThrows ==>
        step == old(step) && formData == old(formData) && errors == StepErrors(old(step), old(formData))
    {
      var ok := ValidateStep(step);
      posted := None;
      if ok {
        var clientData := Payload(formData);
        posted := Some(clientData);
        if !postThrows {
          formData := InitialForm;
          step := 1;
          errors := map[];
        }
      }
    }
  }
}
