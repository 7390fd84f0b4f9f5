/**
 * What the layer needs of the schema validator: a parse either succeeds
 * with the typed (unknown-keys-stripped) value, or fails with issues that
 * `flatten` groups into form-level and per-field message lists. The
 * messages for type mismatches follow the validator's own wording.
 */
module Zod {
  import opened Json

  /** A flattened failure: messages about the whole input, and per field. */
  datatype Issues = Issues(formErrors: seq<string>, fieldErrors: map<string, seq<string>>)

  datatype SchemaResult = Valid(data: Value) | Invalid(issues: Issues)

  /** `error.flatten()` as JSON: `{formErrors: [...], fieldErrors: {field: [...]}}`. */
  function Flatten(i: Issues): (v: Value)
    ensures v.Obj? && v.fields.Keys == {"formErrors", "fieldErrors"}
    ensures Get(v, "formErrors") == Strings(i.formErrors)
    ensures var fe := Get(v, "fieldErrors");
      fe.Obj? && fe.fields.Keys == i.fieldErrors.Keys &&
      forall k :: k in i.fieldErrors ==> Get(fe, k) == Strings(i.fieldErrors[k])
  {
    Obj(map[
      "formErrors" := Strings(i.formErrors),
      "fieldErrors" := Obj(map k | k in i.fieldErrors :: Strings(i.fieldErrors[k]))])
  }

  /** The message for a value of the wrong type: "Required" when the field is missing. */
  function TypeIssue(expected: string, got: Value): (r: string)
  {
    if got == Undefined then "Required" else "Expected " + expected + ", received " + TypeName(got)
  }

  /**
   * The messages of a string field: a type issue for a non-string, else
   * the messages of every failing check (all checks run).
   */
  function StringField(v: Value, checks: string -> seq<string>): (msgs: seq<string>)
    ensures v.Str? ==> msgs == checks(v.s)
    ensures !v.Str? ==> msgs == [TypeIssue("string", v)]
  {
    if v.Str? then checks(v.s) else [TypeIssue("string", v)]
  }

  /** Records the messages of field `k`; a field with no message is left out of the report. */
  function AddField(m: map<string, seq<string>>, k: string, msgs: seq<string>): (r: map<string, seq<string>>)
    ensures msgs == [] ==> r == m
    ensures msgs != [] ==> r == m[k := msgs]
  {
    if msgs == [] then m else m[k := msgs]
  }
}
