/**
 The workflow step executor: a fixed table from action names to external
 calls. It never throws; every failure comes back as an `{error}` payload.
 */
module Executor {
  import opened Js
  import opened Services

  /** The actions the dispatch table knows. */
  datatype Action = CreateRepo | PushFiles | Deploy | BuildMobile | LogToStore

  function ActionName(a: Action): string {
    match a
    case CreateRepo => "github_create_repo"
    case PushFiles => "github_push_files"
    case Deploy => "vercel_deploy"
    case BuildMobile => "mobile_build"
    case LogToStore => "supabase_log"
  }

  /** The table lookup: the action a name stands for, if the table has it. */
  function ParseAction(name: string): (a: Option<Action>)
    ensures a.Some? ==> ActionName(a.value) == name
    ensures a.None? ==> forall b :: ActionName(b) != name
  {
    if name == "github_create_repo" then Some(CreateRepo)
    else if name == "github_push_files" then Some(PushFiles)
    else if name == "vercel_deploy" then Some(Deploy)
    else if name == "mobile_build" then Some(BuildMobile)
    else if name == "supabase_log" then Some(LogToStore)
    else None
  }

  /** Every action is found under its own name. */
  lemma ParseActionName(a: Action)
    ensures ParseAction(ActionName(a)) == Some(a)
  {
  }

  /** The route an action that forwards its parameters posts to. */
  function RouteOf(a: Action): Route
    requires a != LogToStore
  {
    match a
    case CreateRepo => GithubRepos
    case PushFiles => GithubFiles
    case Deploy => VercelDeploy
    case BuildMobile => MobileBuild
  }

  /**
   The body `{...params, projectId}` a mobile build posts once serialised: the
   run's projectId replaces any projectId of the parameters, and an undefined
   one leaves the body without the key; every other key is forwarded as it is.
   */
  function MobileBuildBody(params: seq<Field>, projectId: Option<Json>): (body: seq<Field>)
    ensures Get(body, "projectId") == projectId
    ensures forall k :: k != "projectId" ==> Get(body, k) == Get(params, k)
  {
    match projectId
    case None => Remove(params, "projectId")
    case Some(p) => Set(params, "projectId", p)
  }

  /**
   Key order of the posted body: a projectId the parameters already have
   keeps its place, and a new one goes last, as the spread-then-assign
   object literal orders them.
   */
  lemma MobileBuildBodyKeys(params: seq<Field>, projectId: Option<Json>)
    ensures projectId.Some? && "projectId" in KeysOf(params) ==>
      KeysOf(MobileBuildBody(params, projectId)) == KeysOf(params)
    ensures projectId.Some? && "projectId" !in KeysOf(params) ==>
      KeysOf(MobileBuildBody(params, projectId)) == KeysOf(params) + ["projectId"]
  {
    if projectId.Some? {
      SetKeys(params, "projectId", projectId.value);
    }
  }

  /** The `actions` row a `supabase_log` step inserts: the step's `type` and `payload`, status "success". */
  function StoreLogEntry(params: seq<Field>): (entry: Json)
    ensures entry.JObj? && Get(entry.fields, "status") == Some(JStr("success"))
    ensures Get(entry.fields, "type") == Get(params, "type")
    ensures Get(entry.fields, "payload") == Get(params, "payload")
  {
    var kind, payload := Get(params, "type"), Get(params, "payload");
    LogEntryFields(kind, payload);
    JObj(OptField("type", kind) + OptField("payload", payload) + [Field("status", JStr("success"))])
  }

  /** Undefined entries are dropped from the row, and each defined one is found under its key. */
  lemma LogEntryFields(kind: Option<Json>, payload: Option<Json>)
    ensures var fields := OptField("type", kind) + OptField("payload", payload) + [Field("status", JStr("success"))];
      Get(fields, "status") == Some(JStr("success")) &&
      Get(fields, "type") == kind && Get(fields, "payload") == payload
  {
    var status := Field("status", JStr("success"));
    match kind {
      case None =>
        match payload {
          case None => assert OptField("type", kind) + OptField("payload", payload) + [status] == [status];
          case Some(v) =>
            assert OptField("type", kind) + OptField("payload", payload) + [status] == [Field("payload", v), status];
        }
      case Some(u) =>
        match payload {
          case None =>
            assert OptField("type", kind) + OptField("payload", payload) + [status] == [Field("type", u), status];
          case Some(v) =>
            assert OptField("type", kind) + OptField("payload", payload) + [status]
                == [Field("type", u), Field("payload", v), status];
        }
    }
  }

  /** The outcome of one step: its result payload and the external calls it made. */
  datatype Executed = Executed(result: Json, calls: seq<Call>)

  /**
   Runs one step. An unknown action yields `{error: "Unknown action: <action>"}`
   without any call. The GitHub and Vercel actions post the parameters
   unchanged to their route; a mobile build posts them with the run's
   projectId in place of theirs. `supabase_log` writes an action row only when
   the projectId is truthy, and otherwise yields `{success: true}`. At most one
   call is made, and the result is that call's payload, or `{error}` with the
   message when it throws: the executor itself never throws.
   */
  function ExecuteStep(action: string, params: seq<Field>, projectId: Option<Json>, env: Env, n: nat): (r: Executed)
    ensures |r.calls| <= 1
    ensures |r.calls| == 1 ==> r.result == Caught(env(n, r.calls[0]))
    ensures ParseAction(action).None? ==>
      r == Executed(ErrorBody("Unknown action: " + action), [])
    ensures ParseAction(action) in {Some(CreateRepo), Some(PushFiles), Some(Deploy)} ==>
      r.calls == [Fetch(RouteOf(ParseAction(action).value), JObj(params))]
    ensures ParseAction(action) == Some(BuildMobile) ==>
      |r.calls| == 1 && r.calls[0].Fetch? && r.calls[0].route == MobileBuild && r.calls[0].body.JObj? &&
      Get(r.calls[0].body.fields, "projectId") == projectId &&
      forall k :: k != "projectId" ==> Get(r.calls[0].body.fields, k) == Get(params, k)
    ensures ParseAction(action) == Some(LogToStore) && !TruthyOpt(projectId) ==>
      r == Executed(JObj([Field("success", JBool(true))]), [])
    ensures ParseAction(action) == Some(LogToStore) && TruthyOpt(projectId) ==>
      r.calls == [LogAction(projectId.value, StoreLogEntry(params))]
  {
    match ParseAction(action)
    case None => Executed(ErrorBody("Unknown action: " + action), [])
    case Some(LogToStore) =>
      if TruthyOpt(projectId) then
        var call := LogAction(projectId.value, StoreLogEntry(params));
        Executed(Caught(env(n, call)), [call])
      else Executed(JObj([Field("success", JBool(true))]), [])
    case Some(a) =>
      var body := if a == BuildMobile then MobileBuildBody(params, projectId) else params;
      var call := Fetch(RouteOf(a), JObj(body));
      Executed(Caught(env(n, call)), [call])
  }
}
