/**
 * The layers an Express route chains together: body validation, the bearer
 * check, the admin gate, and the final handler that answers.
 */
module Stages {
  import opened AuthValidator

  /** The controllers a route can end in. */
  datatype Handler =
    | RegisterHandler | LoginHandler | CurrentUserHandler
    | GetAllUsersHandler | GetUserByIdHandler | UpdateUserByIdHandler | DeleteUserByIdHandler
    | ListChartsHandler | SaveChartHandler | DeleteChartHandler | HistoryHandler

  datatype Stage =
    | ValidateBody(schema: Schema)
    | RequireAuth
    | RequireAdmin
    | Handle(handler: Handler)

  /** The handlers that change the store. */
  predicate Writes(h: Handler) {
    h in {RegisterHandler, UpdateUserByIdHandler, DeleteUserByIdHandler, SaveChartHandler, DeleteChartHandler}
  }

  /** A chain guarded by the bearer check and then the admin gate before anything else runs. */
  predicate AdminGuarded(chain: seq<Stage>) {
    |chain| >= 2 && chain[0] == RequireAuth && chain[1] == RequireAdmin
  }

  /** No stage of the chain asks for a token. */
  predicate TokenFree(chain: seq<Stage>) {
    forall i :: 0 <= i < |chain| ==> chain[i] != RequireAuth
  }

  /**
   * What a handler relies on having run before it: register needs a body
   * cleaned by the signup schema, login one cleaned by either schema, and the
   * chart save and history need an authenticated caller.
   */
  predicate Prepared(h: Handler, authed: bool, validated: set<Schema>) {
    && (h == RegisterHandler ==> SignupSchema in validated)
    && (h == LoginHandler ==> validated != {})
    && (h == SaveChartHandler || h == HistoryHandler ==> authed)
  }

  /** Every handler in the chain runs after the stages it relies on. */
  predicate WellOrdered(chain: seq<Stage>, authed: bool, validated: set<Schema>)
    decreases |chain|
  {
    if chain == [] then true
    else match chain[0]
      case ValidateBody(s) => WellOrdered(chain[1..], authed, {s})
      case RequireAuth => WellOrdered(chain[1..], true, validated)
      case RequireAdmin => WellOrdered(chain[1..], authed, validated)
      case Handle(h) => Prepared(h, authed, validated)
  }
}
