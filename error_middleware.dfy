/**
 * server/middlewares/error-middleware.js: turns the error handed to
 * `next(error)` into the JSON response `{ message, extraDetails }`, each part
 * falling back to a default when the error's own value is falsy.
 */
module ErrorMiddleware {
  import opened Wrappers
  import opened Http

  const DefaultMessage := "BACKEND ERROR"
  const DefaultDetails := "Error from Backend"

  /** A string the error carries and JavaScript finds truthy. */
  predicate Given(s: Option<string>) {
    s.Some? && s.value != ""
  }

  /** `errorMiddleware(err, req, res, next)`: status, message and details with their `||` defaults. */
  function ErrorResponse(err: HttpError): (r: Response)
    ensures r.body.ErrorDetails?
    ensures r.status != 0 && r.body.message != "" && r.body.extraDetails != ""
    ensures r.status == 500 <==> err.status.None? || err.status.value == 0 || err.status.value == 500
    ensures err.status.Some? && err.status.value != 0 ==> r.status == err.status.value
    ensures Given(err.message) <==> r.body.message != DefaultMessage || err.message == Some(DefaultMessage)
    ensures Given(err.message) ==> r.body.message == err.message.value
    ensures Given(err.extraDetails) ==> r.body.extraDetails == err.extraDetails.value
    ensures !Given(err.extraDetails) ==> r.body.extraDetails == DefaultDetails
  {
    var status := if err.status.Some? && err.status.value != 0 then err.status.value else 500;
    var message := if Given(err.message) then err.message.value else DefaultMessage;
    var details := if Given(err.extraDetails) then err.extraDetails.value else DefaultDetails;
    Response(status, ErrorDetails(message, details))
  }
}
