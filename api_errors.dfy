/**
 * lib/api-errors.ts: turning whatever a route threw into a JSON error reply.
 * The thrown value is classified the way the `instanceof` tests see it; the
 * `details` of an `APIError` are arbitrary JSON and are kept as their text.
 */
module ApiErrors {
  import opened Js

  /** One element of a zod issue path: an object key or an array index. */
  datatype PathSegment = Key(name: string) | Index(position: nat)

  datatype Issue = Issue(path: seq<PathSegment>, message: string)

  datatype Thrown =
    | ApiError(statusCode: int, message: string, details: Option<string>)
    | ZodError(issues: seq<Issue>)
    | PlainError(message: string)
    | NotAnError

  datatype IssueDetail = IssueDetail(path: string, message: string)

  datatype Details = Given(json: string) | IssueDetails(items: seq<IssueDetail>)

  datatype ErrorReply = ErrorReply(status: int, error: string, details: Option<Details>)

  /** `issue.path.join(".")`: keys as they are, indices in decimal. */
  function PathText(path: seq<PathSegment>): string {
    Join(seq(|path|, i requires 0 <= i < |path| =>
      match path[i] case Key(name) => name case Index(n) => NatToString(n)), ".")
  }

  function IssueDetailsOf(issues: seq<Issue>): (r: seq<IssueDetail>)
    ensures |r| == |issues|
    ensures forall i :: 0 <= i < |issues| ==> r[i] == IssueDetail(PathText(issues[i].path), issues[i].message)
  {
    seq(|issues|, i requires 0 <= i < |issues| => IssueDetail(PathText(issues[i].path), issues[i].message))
  }

  /** `handleAPIError`. */
  function HandleApiError(error: Thrown): (r: ErrorReply)
    ensures error.ApiError? ==> (r.status == error.statusCode && r.error == error.message
      && r.details == (if error.details.Some? then Some(Given(error.details.value)) else None))
    ensures error.ZodError? ==> (r.status == 400 && r.error == "Validation failed"
      && r.details == Some(IssueDetails(IssueDetailsOf(error.issues))))
    ensures error.PlainError? ==> r == ErrorReply(500, error.message, None)
    ensures error.NotAnError? ==> r == ErrorReply(500, "An unexpected error occurred", None)
  {
    match error
    case ApiError(statusCode, message, details) =>
      ErrorReply(statusCode, message, if details.Some? then Some(Given(details.value)) else None)
    case ZodError(issues) => ErrorReply(400, "Validation failed", Some(IssueDetails(IssueDetailsOf(issues))))
    case PlainError(message) => ErrorReply(500, message, None)
    case NotAnError => ErrorReply(500, "An unexpected error occurred", None)
  }

  /** Only an `APIError` chooses its own status; anything that is not one is a 400 (validation) or a 500. */
  lemma HandleApiErrorStatus(error: Thrown)
    ensures !error.ApiError? ==> HandleApiError(error).status in {400, 500}
    ensures HandleApiError(error).status == 400 && !error.ApiError? <==> error.ZodError?
  {
  }

  /** A nested path reads as its keys and indices joined by dots: `sections.0.title`. */
  lemma PathTextExample()
    ensures PathText([Key("sections"), Index(0), Key("title")]) == "sections.0.title"
  {
    var parts := seq(3, i requires 0 <= i < 3 =>
      match [Key("sections"), Index(0), Key("title")][i] case Key(name) => name case Index(n) => NatToString(n));
    assert parts == ["sections", "0", "title"];
    JoinCons("sections", ["0", "title"], ".");
    JoinCons("0", ["title"], ".");
  }

  // ---------------------------------------------------------------------------
  // the helpers, which always throw (lines 51-65)

  function Unauthorized(message: string := "Unauthorized"): (e: Thrown)
    ensures HandleApiError(e) == ErrorReply(401, message, None)
  {
    ApiError(401, message, None)
  }

  function Forbidden(message: string := "Forbidden"): (e: Thrown)
    ensures HandleApiError(e) == ErrorReply(403, message, None)
  {
    ApiError(403, message, None)
  }

  function NotFound(message: string := "Not found"): (e: Thrown)
    ensures HandleApiError(e) == ErrorReply(404, message, None)
  {
    ApiError(404, message, None)
  }

  function BadRequest(message: string, details: Option<string>): (e: Thrown)
    ensures HandleApiError(e).status == 400 && HandleApiError(e).error == message
    ensures HandleApiError(e).details.Some? <==> details.Some?
  {
    ApiError(400, message, details)
  }
}
