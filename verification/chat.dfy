/**
 `POST /api/gpt/chat`: the chat-completion service is offered three
 functions; when its reply asks for one, the handler runs it against the
 application's own API routes and answers with a `function` message holding
 the serialised result, and otherwise it passes the reply through.
 */
module Chat {
  import opened Js
  import opened Services

  /**
   The chat-completion service: the assistant message it replies with for the
   given `messages`, or the error it throws.
   */
  type Planner = Option<Json> -> Outcome<Json>

  /** `JSON.parse` of a string: the value it denotes, or the SyntaxError it throws. */
  type Parser = string -> Outcome<Json>

  /** `JSON.stringify` of a result object. */
  type Printer = Json -> string

  /** The functions the service is offered. */
  datatype Function = CreateProject | DeployProject | BuildMobileApp

  function FunctionName(f: Function): string {
    match f
    case CreateProject => "create_project"
    case DeployProject => "deploy_project"
    case BuildMobileApp => "build_mobile"
  }

  /** The `switch (name)`: strict equality with one of the three names. */
  function ParseFunction(name: Option<Json>): (f: Option<Function>)
    ensures f.Some? ==> name == Some(JStr(FunctionName(f.value)))
    ensures f.None? ==> forall g :: name != Some(JStr(FunctionName(g)))
  {
    if name == Some(JStr("create_project")) then Some(CreateProject)
    else if name == Some(JStr("deploy_project")) then Some(DeployProject)
    else if name == Some(JStr("build_mobile")) then Some(BuildMobileApp)
    else None
  }

  /** What a function returned, and the external calls it made in order. */
  datatype Invoked = Invoked(result: Json, calls: seq<Call>)

  /** The `{success: false, error}` a function returns for anything it caught. */
  function Failure(message: string): Json {
    JObj([Field("success", JBool(false)), Field("error", JStr(message))])
  }

  predicate Succeeded(result: Json) {
    result.JObj? && |result.fields| > 0 && result.fields[0] == Field("success", JBool(true))
  }

  /** The body posted to create the repository; an undefined name or description is left out. */
  function RepoRequest(params: Json): Json {
    JObj(OptField("name", Member(params, "name")) + OptField("description", Member(params, "description"))
         + [Field("auto_init", JBool(true))])
  }

  /** The body posted to deploy a project. */
  function DeployRequest(projectName: Option<Json>): Json {
    JObj(OptField("projectName", projectName))
  }

  /**
   `create_project`: creates the repository, then deploys a project of the
   same name, and reports the repository's `html_url` and the deployment's
   `url`. The deployment is requested only after the repository call
   returned; any throw, including reading from null arguments or a null
   payload, ends in `{success: false, error}` with its message.
   */
  function ExecuteCreateProject(params: Json, env: Env): (r: Invoked)
    ensures |r.calls| <= 2
    ensures params == JNull ==> r == Invoked(Failure(ReadError("null", "name")), [])
    ensures params != JNull ==> |r.calls| >= 1 && r.calls[0] == Fetch(GithubRepos, RepoRequest(params))
    ensures |r.calls| == 2 ==>
      env(0, r.calls[0]).Ok? && r.calls[1] == Fetch(VercelDeploy, DeployRequest(Member(params, "name")))
    ensures |r.calls| == 1 && env(0, r.calls[0]).Thrown? ==> r.result == Failure(env(0, r.calls[0]).message)
    ensures params != JNull ==>
      var first := Fetch(GithubRepos, RepoRequest(params));
      var second := Fetch(VercelDeploy, DeployRequest(Member(params, "name")));
      (env(0, first).Thrown? ==> r == Invoked(Failure(env(0, first).message), [first])) &&
      (env(0, first).Ok? ==>
         r.calls == [first, second] &&
         (env(1, second).Thrown? ==> r.result == Failure(env(1, second).message)) &&
         (env(1, second).Ok? && env(0, first).value == JNull ==> r.result == Failure(ReadError("null", "html_url"))) &&
         (env(1, second).Ok? && env(0, first).value != JNull && env(1, second).value == JNull ==>
            r.result == Failure(ReadError("null", "url"))))
    ensures Succeeded(r.result) <==>
      |r.calls| == 2 && env(0, r.calls[0]).Ok? && env(1, r.calls[1]).Ok? &&
      env(0, r.calls[0]).value != JNull && env(1, r.calls[1]).value != JNull
    ensures Succeeded(r.result) ==>
      r.result == JObj([Field("success", JBool(true))]
                       + OptField("repo", Member(env(0, r.calls[0]).value, "html_url"))
                       + OptField("deployment", Member(env(1, r.calls[1]).value, "url")))
    ensures !Succeeded(r.result) ==> exists m :: r.result == Failure(m)
  {
    if params == JNull then Invoked(Failure(ReadError("null", "name")), [])
    else
      var first := Fetch(GithubRepos, RepoRequest(params));
      match env(0, first)
      case Thrown(m) => Invoked(Failure(m), [first])
      case Ok(repo) =>
        var second := Fetch(VercelDeploy, DeployRequest(Member(params, "name")));
        match env(1, second)
        case Thrown(m) => Invoked(Failure(m), [first, second])
        case Ok(deployment) =>
          match ReadProperty(Some(repo), "html_url")
          case Thrown(m) => Invoked(Failure(m), [first, second])
          case Ok(url) =>
            match ReadProperty(Some(deployment), "url")
            case Thrown(m) => Invoked(Failure(m), [first, second])
            case Ok(deployed) =>
              Invoked(JObj([Field("success", JBool(true))] + OptField("repo", url) + OptField("deployment", deployed)),
                      [first, second])
  }

  /**
   `deploy_project`: posts the project name for deployment and returns the
   deployment payload whole, or `{success: false, error}` when anything throws.
   */
  function ExecuteDeployProject(params: Json, env: Env): (r: Invoked)
    ensures params == JNull ==> r == Invoked(Failure(ReadError("null", "projectName")), [])
    ensures params != JNull ==> r.calls == [Fetch(VercelDeploy, DeployRequest(Member(params, "projectName")))]
    ensures Succeeded(r.result) <==> r.calls != [] && env(0, r.calls[0]).Ok?
    ensures Succeeded(r.result) ==>
      r.result == JObj([Field("success", JBool(true)), Field("deployment", env(0, r.calls[0]).value)])
    ensures !Succeeded(r.result) && r.calls != [] ==> r.result == Failure(env(0, r.calls[0]).message)
  {
    if params == JNull then Invoked(Failure(ReadError("null", "projectName")), [])
    else
      var call := Fetch(VercelDeploy, DeployRequest(Member(params, "projectName")));
      match env(0, call)
      case Thrown(m) => Invoked(Failure(m), [call])
      case Ok(data) => Invoked(JObj([Field("success", JBool(true)), Field("deployment", data)]), [call])
  }

  /**
   `build_mobile`: forwards the arguments unchanged, whatever they are, to the
   mobile build route and returns its payload as `build`.
   */
  function ExecuteBuildMobile(params: Json, env: Env): (r: Invoked)
    ensures r.calls == [Fetch(MobileBuild, params)]
    ensures Succeeded(r.result) <==> env(0, r.calls[0]).Ok?
    ensures Succeeded(r.result) ==>
      r.result == JObj([Field("success", JBool(true)), Field("build", env(0, r.calls[0]).value)])
    ensures !Succeeded(r.result) ==> r.result == Failure(env(0, r.calls[0]).message)
  {
    var call := Fetch(MobileBuild, params);
    match env(0, call)
    case Thrown(m) => Invoked(Failure(m), [call])
    case Ok(data) => Invoked(JObj([Field("success", JBool(true)), Field("build", data)]), [call])
  }

  /**
   The dispatch on the requested function's name: a known function answers
   `{success, ...}`, and any other name yields `{error: "Unknown function"}`
   without a call.
   */
  function Dispatch(name: Option<Json>, params: Json, env: Env): (r: Invoked)
    ensures ParseFunction(name).None? <==> r == Invoked(ErrorBody("Unknown function"), [])
    ensures ParseFunction(name).Some? ==> r.result.JObj? && |r.result.fields| > 0 && r.result.fields[0].key == "success"
    ensures ParseFunction(name).Some? && params != JNull ==> r.calls != []
  {
    match ParseFunction(name)
    case None => Invoked(ErrorBody("Unknown function"), [])
    case Some(CreateProject) => ExecuteCreateProject(params, env)
    case Some(DeployProject) => ExecuteDeployProject(params, env)
    case Some(BuildMobileApp) => ExecuteBuildMobile(params, env)
  }

  /** The `function` message the handler answers with after running a function. */
  function FunctionMessage(name: Option<Json>, content: string): Json {
    JObj([Field("role", JStr("function"))] + OptField("name", name) + [Field("content", JStr(content))])
  }

  /** The message's `function_call`, when it is a truthy value. */
  function RequestedCall(message: Json): Option<Json> {
    var fc := Member(message, "function_call");
    if TruthyOpt(fc) then fc else None
  }

  /**
   The handler. A reply without a truthy `function_call` is passed through
   unchanged and nothing else is called. With one, its `arguments` are parsed
   as JSON, the named function runs, and the answer is a `function` message
   echoing the name with the serialised result as content; an unknown name
   runs nothing. An unreadable or null body, a failing completion, a null
   reply and unparsable arguments end in 500 with the error's message.
   */
  function Chat(request: Outcome<Json>, planner: Planner, parse: Parser, stringify: Printer, env: Env): (h: Handled)
    ensures h.response.status in {200, 500}
    ensures request.Thrown? ==> h == Handled(Response(500, ErrorBody(request.message)), [])
    ensures request == Ok(JNull) ==>
      h == Handled(Response(500, ErrorBody(DestructureError("messages", "(intermediate value)", "null"))), [])
    ensures h.response.status == 500 ==> h.calls == []
    ensures h.response.status == 200 ==>
      request.Ok? && request.value != JNull &&
      var reply := planner(Member(request.value, "messages"));
      reply.Ok? && reply.value != JNull &&
      (RequestedCall(reply.value).None? ==> h == Handled(Response(200, reply.value), [])) &&
      (RequestedCall(reply.value).Some? ==>
         var fc := RequestedCall(reply.value).value;
         var args := parse(ToJsString(Member(fc, "arguments")));
         args.Ok? &&
         var invoked := Dispatch(Member(fc, "name"), args.value, env);
         h == Handled(Response(200, FunctionMessage(Member(fc, "name"), stringify(invoked.result))), invoked.calls))
    ensures request.Ok? && request.value != JNull && planner(Member(request.value, "messages")).Ok? ==>
      var reply := planner(Member(request.value, "messages")).value;
      (reply == JNull ==> h == Handled(Response(500, ErrorBody(ReadError("null", "function_call"))), [])) &&
      (reply != JNull && RequestedCall(reply).None? ==> h == Handled(Response(200, reply), [])) &&
      (reply != JNull && RequestedCall(reply).Some? ==>
         var args := parse(ToJsString(Member(RequestedCall(reply).value, "arguments")));
         var name := Member(RequestedCall(reply).value, "name");
         (args.Thrown? ==> h == Handled(Response(500, ErrorBody(args.message)), [])) &&
         (args.Ok? ==>
            var invoked := Dispatch(name, args.value, env);
            h == Handled(Response(200, FunctionMessage(name, stringify(invoked.result))), invoked.calls)))
    ensures request.Ok? && request.value != JNull && planner(Member(request.value, "messages")).Thrown? ==>
      h == Handled(Response(500, ErrorBody(planner(Member(request.value, "messages")).message)), [])
  {
    match request
    case Thrown(m) => Handled(Response(500, ErrorBody(m)), [])
    case Ok(body) =>
      if body == JNull then
        Handled(Response(500, ErrorBody(DestructureError("messages", "(intermediate value)", "null"))), [])
      else
        match planner(Member(body, "messages"))
        case Thrown(m) => Handled(Response(500, ErrorBody(m)), [])
        case Ok(message) =>
          match ReadProperty(Some(message), "function_call")
          case Thrown(m) => Handled(Response(500, ErrorBody(m)), [])
          case Ok(fc) =>
            if !TruthyOpt(fc) then Handled(Response(200, message), [])
            else
              var name := Member(fc.value, "name");
              match parse(ToJsString(Member(fc.value, "arguments")))
              case Thrown(m) => Handled(Response(500, ErrorBody(m)), [])
              case Ok(params) =>
                var invoked := Dispatch(name, params, env);
                Handled(Response(200, FunctionMessage(name, stringify(invoked.result))), invoked.calls)
  }

  /**
   Which calls a requested function makes, by name: `build_mobile` posts the
   arguments to the mobile build route, `deploy_project` at most one deploy,
   `create_project` the repository first, and any other name nothing at all.
   */
  lemma DispatchCalls(name: Option<Json>, params: Json, env: Env)
    ensures var r := Dispatch(name, params, env);
      (ParseFunction(name).None? ==> r == Invoked(ErrorBody("Unknown function"), [])) &&
      (name == Some(JStr("build_mobile")) ==> r.calls == [Fetch(MobileBuild, params)]) &&
      (name == Some(JStr("deploy_project")) ==> |r.calls| <= 1 && forall c :: c in r.calls ==> c.Fetch? && c.route == VercelDeploy) &&
      (name == Some(JStr("create_project")) && r.calls != [] ==> r.calls[0].route == GithubRepos) &&
      (name == Some(JStr("create_project")) && |r.calls| == 2 ==>
         r.calls[1] == Fetch(VercelDeploy, DeployRequest(Member(params, "name")))) &&
      |r.calls| <= 2
  {
  }
}
