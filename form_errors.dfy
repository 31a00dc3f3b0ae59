/** The `Record<string, string>` error maps every form keeps: a key per field
    that failed validation, holding the message shown under that field. Each
    form names its keys by a datatype whose rendering as the source's key
    string is proved injective, so a map over it is the source's record. */
module FormErrors {

  type Errors<K> = map<K, string>

  /** `Object.keys(newErrors).length === 0`: the form may proceed. */
  predicate NoErrors<K>(errors: Errors<K>) {
    |errors| == 0
  }

  lemma NoErrorsIsEmpty<K>(errors: Errors<K>)
    ensures NoErrors(errors) <==> errors == map[]
  {
    if NoErrors(errors) {
      assert errors.Keys == {};
    }
  }

  /** The handlers' `if (errors[name]) setErrors({...prev, [name]: ""})`: a
      field's message is blanked as soon as the field is edited, and no other
      entry changes. */
  function ClearError<K>(errors: Errors<K>, key: K): (r: Errors<K>)
    ensures r.Keys == errors.Keys
    ensures key in r ==> r[key] == ""
    ensures forall k :: k in errors && k != key ==> r[k] == errors[k]
  {
    if key in errors && errors[key] != "" then errors[key := ""] else errors
  }

  /** How a call into the data-access layer ended: the result passed the
      component's test (a truthy result, or `result.success`), it did not, or
      the call threw. */
  datatype CallOutcome = Succeeded | Failed | Threw
}
