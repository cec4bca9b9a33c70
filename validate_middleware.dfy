/**
 * server/middlewares/validate-middleware.js: `validate(Schema)` parses the
 * request body; on success the cleaned body replaces `req.body` and the chain
 * continues, on failure a 422 error naming the first issue goes to `next`.
 */
module ValidateMiddleware {
  import opened Wrappers
  import opened Json
  import opened AuthValidator
  import opened Http

  const FillProperly := "Fill the input properly"

  /** The error object built from zod's issues: `err.errors[0]?.message || "Validation error"`. */
  function ValidationError(issues: seq<Issue>): HttpError {
    var first := if |issues| > 0 then IssueMessage(issues[0]) else "";
    HttpError(Some(422), Some(FillProperly), Some(if first != "" then first else "Validation error"))
  }

  /** Every issue renders to a non-empty message. */
  lemma MessageNonEmpty(i: Issue)
    ensures IssueMessage(i) != ""
  {
    match i
    case NotAString(_, v) => assert ("Expected string, received " + TypeName(v))[0] == 'E';
    case NotAnObject(v) => assert ("Expected object, received " + TypeName(v))[0] == 'E';
    case _ =>
  }

  /**
   * A rejected body yields status 422, "Fill the input properly" and the first
   * issue's own message: the "Validation error" fallback is never taken.
   */
  lemma RejectionNamesFirstIssue(schema: Schema, body: Json, isEmail: string -> bool)
    requires Parse(schema, body, isEmail).Err?
    ensures var issues := Parse(schema, body, isEmail).error;
      |issues| > 0 && ValidationError(issues) == HttpError(Some(422), Some(FillProperly), Some(IssueMessage(issues[0])))
  {
    FailureHasIssue(schema, body, isEmail);
    MessageNonEmpty(Parse(schema, body, isEmail).error[0]);
  }

  /** `validate(Schema)(req, res, next)`: replaces `req.body` only on success; calls `next` exactly once. */
  method Validate(schema: Schema, req: Request, isEmail: string -> bool) returns (out: Outcome)
    modifies req
    ensures Parse(schema, old(req.body), isEmail).Ok? ==>
      req.body == Parse(schema, old(req.body), isEmail).value && out == Next
    ensures Parse(schema, old(req.body), isEmail).Err? ==>
      req.body == old(req.body) && out == Fail(ValidationError(Parse(schema, old(req.body), isEmail).error))
    ensures req.authorization == old(req.authorization) && req.id == old(req.id)
    ensures req.user == old(req.user) && req.token == old(req.token) && req.userID == old(req.userID)
  {
    var parsed := Parse(schema, req.body, isEmail);
    match parsed
    case Ok(cleaned) =>
      req.body := cleaned;
      out := Next;
    case Err(issues) =>
      out := Fail(ValidationError(issues));
  }
}
