/** The six-field dependent draft that AddDependent.tsx and EditDependent.tsx
    both keep in their `formData` state, and the keys of their error maps. */
module DependentForms {
  import opened FormErrors

  /** `formData`; `kind` is the source's `type` field. */
  datatype DependentForm = DependentForm(
    name: string,
    email: string,
    gender: string,
    birthdate: string,
    phonenumber: string,
    kind: string)

  /** The initial draft, and the one the add form resets to. */
  const EmptyForm := DependentForm("", "", "", "", "", "")

  /** The inputs, by the `name` attribute `handleInputChange` reads. */
  datatype Field = Name | Email | Gender | Birthdate | PhoneNumber | Type

  function FieldKey(f: Field): string {
    match f
    case Name => "name"
    case Email => "email"
    case Gender => "gender"
    case Birthdate => "birthdate"
    case PhoneNumber => "phonenumber"
    case Type => "type"
  }

  /** An error key: a field, or the `submit` entry a failed save leaves. */
  datatype ErrorKey = FieldError(field: Field) | SubmitError

  type DependentErrors = Errors<ErrorKey>

  function KeyName(k: ErrorKey): string {
    match k
    case FieldError(f) => FieldKey(f)
    case SubmitError => "submit"
  }

  /** Distinct keys are distinct strings, so the map is the source's record. */
  lemma KeyNameInjective(k: ErrorKey, l: ErrorKey)
    ensures KeyName(k) == KeyName(l) ==> k == l
  {
  }

  function Get(form: DependentForm, f: Field): string {
    match f
    case Name => form.name
    case Email => form.email
    case Gender => form.gender
    case Birthdate => form.birthdate
    case PhoneNumber => form.phonenumber
    case Type => form.kind
  }

  /** `{ ...prev, [name]: value }`: the field takes the value and no other
      field changes. */
  function WithField(form: DependentForm, f: Field, value: string): (r: DependentForm)
    ensures Get(r, f) == value
    ensures forall g :: g != f ==> Get(r, g) == Get(form, g)
  {
    match f
    case Name => form.(name := value)
    case Email => form.(email := value)
    case Gender => form.(gender := value)
    case Birthdate => form.(birthdate := value)
    case PhoneNumber => form.(phonenumber := value)
    case Type => form.(kind := value)
  }

  /** A draft is determined by what its six inputs show. */
  lemma FormExtensionality(a: DependentForm, b: DependentForm)
    requires forall f :: Get(a, f) == Get(b, f)
    ensures a == b
  {
    assert Get(a, Name) == Get(b, Name) && Get(a, Email) == Get(b, Email);
    assert Get(a, Gender) == Get(b, Gender) && Get(a, Birthdate) == Get(b, Birthdate);
    assert Get(a, PhoneNumber) == Get(b, PhoneNumber) && Get(a, Type) == Get(b, Type);
  }

  /** Typing into a field twice keeps only the second value, and typing back a
      field's own value changes nothing. */
  lemma WithFieldLastWins(form: DependentForm, f: Field, a: string, b: string)
    ensures WithField(WithField(form, f, a), f, b) == WithField(form, f, b)
    ensures WithField(form, f, Get(form, f)) == form
  {
    FormExtensionality(WithField(WithField(form, f, a), f, b), WithField(form, f, b));
    FormExtensionality(WithField(form, f, Get(form, f)), form);
  }
}
