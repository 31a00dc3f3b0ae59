/** The optional value of a record field or of a JSON payload member:
    `None` stands for `undefined` or `null`. */
module Options {

  datatype Option<+T> = None | Some(value: T) {

    /** `x || fallback` for a value that is either absent or present. */
    function GetOr(fallback: T): T {
      match this
      case Some(v) => v
      case None => fallback
    }
  }

  /** `s || undefined` (or `s || null`): the empty string becomes absent. */
  function NonEmpty(s: string): (r: Option<string>)
    ensures r == None <==> s == ""
    ensures r.Some? ==> r.value == s
  {
    if s == "" then None else Some(s)
  }

  /** `x || ""` for an optional string field. */
  function OrEmpty(x: Option<string>): (r: string)
    ensures x.Some? ==> r == x.value
    ensures x.None? ==> r == ""
  {
    x.GetOr("")
  }
}
