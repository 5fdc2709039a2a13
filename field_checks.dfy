/** The `required` and `minLength` rules of the form library, as the forms use them. */
module FieldChecks {

  /** The outcome of one field's rules: valid, or the message of the first rule that failed. */
  datatype Check = Valid | Invalid(message: string)

  /** `required`: the empty string fails with its message. */
  function Required(s: string, requiredMsg: string): (c: Check)
    ensures c.Valid? <==> s != ""
    ensures c.Invalid? ==> c.message == requiredMsg
  {
    if s == "" then Invalid(requiredMsg) else Valid
  }

  /** `required` followed by `minLength`; a non-empty string shorter than `min` fails with the second message. */
  function RequiredMinLength(s: string, min: nat, requiredMsg: string, shortMsg: string): (c: Check)
    requires min >= 1
    ensures c.Valid? <==> |s| >= min
    ensures s == "" ==> c == Invalid(requiredMsg)
    ensures s != "" && |s| < min ==> c == Invalid(shortMsg)
  {
    if s == "" then Invalid(requiredMsg)
    else if |s| < min then Invalid(shortMsg)
    else Valid
  }
}
