/**
 * `validate(schema)`: run the schema on the request body and either pass the
 * request on, answer 400 with one error entry per validation issue, or answer
 * 500 for any other failure.
 */
module ValidateInputs {
  import opened Wrappers

  /** One step of an issue's path: an object key or an array index. */
  datatype PathKey = Key(name: string) | Index(i: nat)

  /** A validation issue as the schema library reports it. */
  datatype Issue = Issue(path: seq<PathKey>, message: string)

  /**
   * What `schema.parse(body)` does: return a (possibly transformed) value,
   * throw a validation error carrying its issues, or throw anything else.
   */
  datatype ParseOutcome<T> = Parsed(value: T) | ZodError(issues: seq<Issue>) | OtherError

  /** `{ field: issue.path[0], message: issue.message }`; an empty path gives an `undefined` field. */
  datatype ErrorEntry = ErrorEntry(field: Option<PathKey>, message: string)

  /** The middleware's decision: call `next()` with the body, or answer. */
  datatype Dispatch<T> = Next(body: T) | BadRequest(errors: seq<ErrorEntry>) | InternalError
  {
    function Status(): Option<int>
    {
      match this
      case Next(_) => None
      case BadRequest(_) => Some(400)
      case InternalError => Some(500)
    }

    /** The `message` of the answer's body; the 400 body carries `errors` instead. */
    function Message(): Option<string>
    {
      match this
      case InternalError => Some(InternalValidationError)
      case _ => None
    }
  }

  const InternalValidationError: string := "Internal Validation Error"

  /** `{ field: issue.path[0], message: issue.message }`. */
  function ToEntry(issue: Issue): ErrorEntry
  {
    ErrorEntry(if |issue.path| > 0 then Some(issue.path[0]) else None, issue.message)
  }

  /** `issues.map(...)`: one entry per issue, in issue order. */
  function ToEntries(issues: seq<Issue>): (errors: seq<ErrorEntry>)
    ensures |errors| == |issues|
    ensures forall i :: 0 <= i < |issues| ==> errors[i] == ToEntry(issues[i])
  {
    if |issues| == 0 then [] else [ToEntry(issues[0])] + ToEntries(issues[1..])
  }

  /** `validate(schema)` applied to one request body. */
  function Validate<T>(schema: T -> ParseOutcome<T>, body: T): (r: Dispatch<T>)
    ensures r.Next? ==> r.body == body
    ensures r.BadRequest? ==> schema(body).ZodError? && |r.errors| == |schema(body).issues|
  {
    match schema(body)
    case Parsed(_) => Next(body)
    case ZodError(issues) => BadRequest(ToEntries(issues))
    case OtherError => InternalError
  }

  /**
   * A successful parse calls `next()` with the ORIGINAL body (the parsed value
   * is discarded) and answers nothing; a failed one never calls `next()`.
   */
  lemma NextKeepsOriginalBody<T>(schema: T -> ParseOutcome<T>, body: T)
    ensures Validate(schema, body).Next? <==> schema(body).Parsed?
    ensures Validate(schema, body).Next? ==> Validate(schema, body).body == body && Validate(schema, body).Status().None?
  {
  }

  /**
   * A validation error answers 400 with exactly one entry per issue, in
   * order; entry i names the first step of issue i's path and repeats its message.
   */
  lemma BadRequestMirrorsIssues<T>(schema: T -> ParseOutcome<T>, body: T)
    requires schema(body).ZodError?
    ensures var r := Validate(schema, body); var issues := schema(body).issues;
      && r.BadRequest? && r.Status() == Some(400)
      && |r.errors| == |issues|
      && forall i :: 0 <= i < |issues| ==>
           r.errors[i].message == issues[i].message
           && (|issues[i].path| > 0 ==> r.errors[i].field == Some(issues[i].path[0]))
           && (|issues[i].path| == 0 ==> r.errors[i].field.None?)
  {
  }

  /** Any other failure answers 500 "Internal Validation Error", and `next()` is not called. */
  lemma OtherErrorIsInternal<T>(schema: T -> ParseOutcome<T>, body: T)
    ensures Validate(schema, body) == InternalError <==> schema(body).OtherError?
    ensures Validate(schema, body) == InternalError ==>
      Validate(schema, body).Status() == Some(500) && Validate(schema, body).Message() == Some("Internal Validation Error")
    ensures Validate(schema, body).Message().Some? <==> schema(body).OtherError?
  {
  }
}
