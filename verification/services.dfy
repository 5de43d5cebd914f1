/**
 The external services the route handlers talk to, seen from the handlers:
 every call either returns a JSON payload or throws. Which payload or error
 comes back is the environment's choice, passed in as an oracle.
 */
module Services {
  import opened Js

  /** The application's own API routes that the handlers post to. */
  datatype Route = GithubRepos | GithubFiles | VercelDeploy | MobileBuild

  /** One external call: a POST of a JSON body to a route, or an insert into the `actions` table. */
  datatype Call =
    | Fetch(route: Route, body: Json)
    | LogAction(projectId: Json, action: Json)

  /**
   The outside world: what the n-th external call of a request returns or
   throws. Indexing by position lets two identical calls fare differently.
   */
  type Env = (nat, Call) -> Outcome<Json>

  /** An HTTP response: status code and JSON body. */
  datatype Response = Response(status: int, body: Json)

  /** The `{error: message}` body every handler uses for a failure. */
  function ErrorBody(message: string): Json {
    JObj([Field("error", JStr(message))])
  }

  /** A `catch` that turns a thrown error into `{error: message}` and passes a payload through. */
  function Caught(o: Outcome<Json>): (v: Json)
    ensures o.Ok? ==> v == o.value
    ensures o.Thrown? ==> v == ErrorBody(o.message)
  {
    match o
    case Ok(v) => v
    case Thrown(m) => ErrorBody(m)
  }

  /** The reply of a request handler together with the external calls it made, in order. */
  datatype Handled = Handled(response: Response, calls: seq<Call>)
}
