/**
 * What flows through an Express route: the mutable request object, the
 * response a handler sends, the error object passed to `next(error)`, and the
 * three ways a middleware can finish.
 */
module Http {
  import opened Wrappers
  import opened Json
  import opened UserModel
  import opened ChartModel

  /** The JSON bodies the handlers send. */
  datatype Body =
    | Message(message: string)
      /** `{ message, extraDetails }` from the error middleware. */
    | ErrorDetails(message: string, extraDetails: string)
      /** `{ message, token, userId }`; a `None` token is serialised away (it was `undefined`). */
    | Credentials(message: string, token: Option<string>, userId: string)
      /** `{ userData }`; `None` is `undefined`. */
    | UserData(userData: Option<PublicUser>)
    | UserList(users: seq<PublicUser>)
      /** `{ data }`; `None` is `null`. */
    | UserLookup(data: Option<PublicUser>)
      /** `{ updatedData }`: the counts of `updateOne`'s result. */
    | Updated(matchedCount: nat, modifiedCount: nat)
    | ChartSaved(message: string, chart: Chart)
    | ChartList(charts: seq<Chart>)
    | PopulatedChartList(populated: seq<PopulatedChart>)
      /** `{ message, error: err.message }`. */
    | Failure(message: string, error: string)
      /** Express's own answer when no layer of a route sends a response. */
    | NoRoute

  datatype Response = Response(status: nat, body: Body)

  /** An axios request on the client resolves when a response with a 2xx status arrives; `None` is a network failure. */
  predicate Resolves(r: Option<Response>) {
    r.Some? && 200 <= r.value.status < 300
  }

  /** The object given to `next(error)`; `None` is an absent property. */
  datatype HttpError = HttpError(status: Option<nat>, message: Option<string>, extraDetails: Option<string>)

  /** How a middleware ends: `next()`, `next(error)`, or a response sent with `res.status(..).json(..)`. */
  datatype Outcome = Next | Fail(error: HttpError) | Sent(response: Response)

  /** The parts of Express's `req` the core reads and writes. */
  class Request {
    /** The `Authorization` header; `None` when absent. */
    var authorization: Option<string>
    var body: Json
    /** The `:id` route parameter, already an ObjectId. */
    var id: nat
    /** Set by the auth middleware. */
    var user: Option<PublicUser>
    var token: Option<string>
    var userID: Option<nat>

    constructor (authorization: Option<string>, body: Json, id: nat)
      ensures this.authorization == authorization && this.body == body && this.id == id
      ensures user.None? && token.None? && userID.None?
    {
      this.authorization, this.body, this.id := authorization, body, id;
      user, token, userID := None, None, None;
    }
  }
}
