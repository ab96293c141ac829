/**
 * The validation utilities of the application (`validateData`, `formatZodError`) and the
 * shape of a Zod validation failure they work on.
 */
module Validations {
  import opened Runtime
  import Strings

  /** One Zod issue: the path of keys leading to the offending value, and its message. */
  datatype Issue = Issue(path: seq<string>, message: string)

  /**
   * What running a schema's `parse` on a value does: it yields the parsed value, throws a
   * `ZodError` listing issues, or throws some other value (a crashing refinement, say).
   */
  datatype SchemaOutcome<+T> = Parsed(data: T) | Rejected(issues: seq<Issue>) | Crashed(error: Exception)

  /** A schema, as seen by the application: what it does with each input value. */
  type Schema<!T> = Json -> SchemaOutcome<T>

  /** The `ValidationResult` union: the parsed data, or the `ZodError` (its issue list). */
  datatype ValidationResult<+T> = Valid(data: T) | Invalid(issues: seq<Issue>)

  /**
   * `validateData(schema, data)`: a successful parse is returned as `Valid`, a `ZodError`
   * as `Invalid`, and any other exception propagates unchanged.
   */
  function ValidateData<T>(schema: Schema<T>, data: Json): (r: Completion<ValidationResult<T>>)
    ensures schema(data).Parsed? <==> r.Normal? && r.value.Valid?
    ensures schema(data).Parsed? ==> r.value.data == schema(data).data
    ensures schema(data).Rejected? <==> r.Normal? && r.value.Invalid?
    ensures schema(data).Rejected? ==> r.value.issues == schema(data).issues
    ensures r.Abrupt? <==> schema(data).Crashed?
    ensures r.Abrupt? ==> r.error == schema(data).error
  {
    match schema(data)
    case Parsed(v) => Normal(Valid(v))
    case Rejected(issues) => Normal(Invalid(issues))
    case Crashed(e) => Abrupt(e)
  }

  /** The dictionary key of an issue: its path joined with ".". */
  function PathKey(issue: Issue): string {
    Strings.Join(issue.path, ".")
  }

  /**
   * `formatZodError(error)`: one entry per distinct issue path; when several issues share
   * a path, the message of the last of them is kept.
   */
  method FormatZodError(issues: seq<Issue>) returns (formatted: map<string, string>)
    ensures formatted.Keys == set i | 0 <= i < |issues| :: PathKey(issues[i])
    ensures forall key :: key in formatted ==>
      exists i :: 0 <= i < |issues| && PathKey(issues[i]) == key && formatted[key] == issues[i].message
        && forall j :: i < j < |issues| ==> PathKey(issues[j]) != key
  {
    formatted := map[];
    for n := 0 to |issues|
      invariant formatted.Keys == set i | 0 <= i < n :: PathKey(issues[i])
      invariant forall key :: key in formatted ==>
        exists i :: 0 <= i < n && PathKey(issues[i]) == key && formatted[key] == issues[i].message
          && forall j :: i < j < n ==> PathKey(issues[j]) != key
    {
      formatted := formatted[PathKey(issues[n]) := issues[n].message];
    }
  }
}
