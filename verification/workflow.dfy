/**
 The workflow runner behind `POST /api/traycer/execute`: it looks a task up by
 name, runs its steps one after the other in declaration order (substituting
 the caller's variables into each step's parameters, then executing it),
 collects an `{action, result}` entry per step, logs each step to the record
 store when logging is on, and answers with the whole transcript.
 */
module Workflow {
  import opened Js
  import opened Services
  import opened Interpolation
  import opened Executor

  datatype StepDef = StepDef(action: string, params: seq<Field>)
  datatype TaskDef = TaskDef(name: string, steps: seq<StepDef>)

  /** The parts of the workflow configuration that affect behaviour: the task list and `log_to_supabase`. */
  datatype Config = Config(tasks: seq<TaskDef>, logToStore: bool)

  /** One transcript entry: `{action, result}`. */
  datatype StepRecord = StepRecord(action: string, result: Json)

  /** A step executor: the outcome of an action run with parameters and projectId, given how many calls came before. */
  type StepExecutor = (string, seq<Field>, Option<Json>, nat) -> Executed

  /** `executeStep`: the dispatch table over the services. */
  function TableExecutor(env: Env): StepExecutor {
    (action: string, params: seq<Field>, projectId: Option<Json>, n: nat) => ExecuteStep(action, params, projectId, env, n)
  }

  /**
   What a run sees besides its steps: the caller's variables, the projectId,
   the logging switch, the services, and the step executor, which a request
   sets to `TableExecutor` over the same services.
   */
  datatype RunContext = RunContext(values: Option<Json>, projectId: Option<Json>, logToStore: bool, env: Env,
                                   exec: StepExecutor)

  /** A run after some steps: transcript, external calls so far, and the error that aborted it, if any. */
  datatype Run = Run(records: seq<StepRecord>, calls: seq<Call>, abort: Option<string>)

  /** `t.name === taskName`: only a string equal to the task's name matches. */
  predicate Names(t: TaskDef, taskName: Option<Json>) {
    taskName == Some(JStr(t.name))
  }

  /** `tasks.find(...)` from position `from` on: the index of the first task with the requested name. */
  function FindTask(tasks: seq<TaskDef>, taskName: Option<Json>, from: nat): (r: Option<nat>)
    requires from <= |tasks|
    ensures r.Some? ==> from <= r.value < |tasks| && Names(tasks[r.value], taskName) &&
                        (forall j :: from <= j < r.value ==> !Names(tasks[j], taskName))
    ensures r.None? ==> forall j :: from <= j < |tasks| ==> !Names(tasks[j], taskName)
    decreases |tasks| - from
  {
    if from == |tasks| then None
    else if Names(tasks[from], taskName) then Some(from)
    else FindTask(tasks, taskName, from + 1)
  }

  /** Steps are logged when the configuration asks for it and the projectId is truthy. */
  predicate Logging(ctx: RunContext) {
    ctx.logToStore && TruthyOpt(ctx.projectId)
  }

  /** The `actions` row the runner writes for a step: action, parameters run with, result, status. */
  function StepLogEntry(action: string, stepParams: seq<Field>, result: Json, failed: bool): (entry: Json)
    ensures entry.JObj? && |entry.fields| == 4
    ensures entry.fields[3] == Field("status", JStr(if failed then "failed" else "success"))
  {
    JObj([Field("type", JStr(action)), Field("payload", JObj(stepParams)), Field("result", result),
          Field("status", JStr(if failed then "failed" else "success"))])
  }

  /** The row's `type`, `payload` and `result` are the step's action, the parameters it ran with, and its result. */
  lemma StepLogEntryFields(action: string, stepParams: seq<Field>, result: Json, failed: bool)
    ensures var e := StepLogEntry(action, stepParams, result, failed);
      Get(e.fields, "type") == Some(JStr(action)) && Get(e.fields, "payload") == Some(JObj(stepParams)) &&
      Get(e.fields, "result") == Some(result) &&
      Get(e.fields, "status") == Some(JStr(if failed then "failed" else "success"))
  {
    var f := StepLogEntry(action, stepParams, result, failed).fields;
    assert Get(f, "payload") == Get(f[1..], "payload");
    assert Get(f[1..], "result") == Get(f[2..], "result");
    assert Get(f[2..], "status") == Get(f[3..], "status");
  }

  /** `result.error`: throws on a null result, undefined on anything but an object. */
  function ErrorOf(result: Json): Outcome<Option<Json>> {
    ReadProperty(Some(result), "error")
  }

  /**
   One iteration of the step loop. The step is interpolated against the
   caller's variables; if that throws, the run aborts. Otherwise the step runs,
   its entry is appended, and when logging is on a row is written whose status
   is "failed" exactly when the result's `error` is truthy; reading `error` off
   a null result, or a write that throws, aborts the run with that message.
   */
  function RunStep(prev: Run, step: StepDef, ctx: RunContext): (next: Run)
    requires prev.abort.None?
    ensures prev.records <= next.records && prev.calls <= next.calls
    ensures |next.records| == |prev.records| + 1 <==> Interpolate(step.params, ctx.values).Ok?
    ensures Interpolate(step.params, ctx.values).Thrown? ==>
      next == Run(prev.records, prev.calls, Some(Interpolate(step.params, ctx.values).message))
    ensures Interpolate(step.params, ctx.values).Ok? ==>
      var stepParams := Interpolate(step.params, ctx.values).value;
      var ex := ctx.exec(step.action, stepParams, ctx.projectId, |prev.calls|);
      var error := ErrorOf(ex.result);
      next.records[|prev.records|] == StepRecord(step.action, ex.result) &&
      prev.calls + ex.calls <= next.calls && |next.calls| <= |prev.calls| + |ex.calls| + 1 &&
      (!Logging(ctx) ==> next.calls == prev.calls + ex.calls && next.abort.None?) &&
      (Logging(ctx) && error.Thrown? ==> next.calls == prev.calls + ex.calls && next.abort == Some(error.message)) &&
      (Logging(ctx) && error.Ok? ==>
         |next.calls| == |prev.calls| + |ex.calls| + 1 &&
         next.calls[|prev.calls| + |ex.calls|] ==
           LogAction(ctx.projectId.value, StepLogEntry(step.action, stepParams, ex.result, TruthyOpt(error.value))) &&
         var written := ctx.env(|prev.calls| + |ex.calls|, next.calls[|prev.calls| + |ex.calls|]);
         (next.abort.None? <==> written.Ok?) && (written.Thrown? ==> next.abort == Some(written.message)))
  {
    match Interpolate(step.params, ctx.values)
    case Thrown(m) => Run(prev.records, prev.calls, Some(m))
    case Ok(stepParams) =>
      var ex := ctx.exec(step.action, stepParams, ctx.projectId, |prev.calls|);
      var records := prev.records + [StepRecord(step.action, ex.result)];
      var calls := prev.calls + ex.calls;
      if !Logging(ctx) then Run(records, calls, None)
      else
        match ErrorOf(ex.result)
        case Thrown(m) => Run(records, calls, Some(m))
        case Ok(err) =>
          var call := LogAction(ctx.projectId.value, StepLogEntry(step.action, stepParams, ex.result, TruthyOpt(err)));
          match ctx.env(|calls|, call)
          case Thrown(m) => Run(records, calls + [call], Some(m))
          case Ok(_) => Run(records, calls + [call], None)
  }

  /** The first `count` iterations of the step loop; an aborted run takes no further step. */
  function RunSteps(steps: seq<StepDef>, count: nat, ctx: RunContext): (run: Run)
    requires count <= |steps|
    ensures |run.records| <= count
    ensures run.abort.None? ==> |run.records| == count
    decreases count
  {
    if count == 0 then Run([], [], None)
    else
      var prev := RunSteps(steps, count - 1, ctx);
      if prev.abort.Some? then prev else RunStep(prev, steps[count - 1], ctx)
  }

  /** The parameters step `i` runs with, when its template can be interpolated. */
  function StepParams(step: StepDef, ctx: RunContext): seq<Field>
    requires Interpolate(step.params, ctx.values).Ok?
  {
    Interpolate(step.params, ctx.values).value
  }

  /**
   A run that was not aborted has one entry per step, in declaration order:
   entry `i` carries step `i`'s action and the result of executing it with its
   template interpolated against the caller's variables — never against an
   earlier step's result.
   */
  lemma {:induction false} RunTranscript(steps: seq<StepDef>, count: nat, ctx: RunContext)
    requires count <= |steps|
    ensures RunSteps(steps, count, ctx).abort.None? ==>
      |RunSteps(steps, count, ctx).records| == count &&
      forall i {:trigger RunSteps(steps, count, ctx).records[i]} :: 0 <= i < count ==>
        Interpolate(steps[i].params, ctx.values).Ok? &&
        RunSteps(steps, count, ctx).records[i] ==
          StepRecord(steps[i].action,
                     ctx.exec(steps[i].action, StepParams(steps[i], ctx), ctx.projectId,
                              |RunSteps(steps, i, ctx).calls|).result)
  {
    if RunSteps(steps, count, ctx).abort.Some? {
      return;
    }
    forall i | 0 <= i < count
      ensures Interpolate(steps[i].params, ctx.values).Ok?
      ensures RunSteps(steps, count, ctx).records[i] ==
        StepRecord(steps[i].action,
                   ctx.exec(steps[i].action, StepParams(steps[i], ctx), ctx.projectId,
                               |RunSteps(steps, i, ctx).calls|).result)
    {
      TranscriptEntry(steps, count, ctx, i);
    }
  }

  /** Entry `i` of a run of `count` steps that did not abort is step `i`'s action and result. */
  lemma {:induction false} TranscriptEntry(steps: seq<StepDef>, count: nat, ctx: RunContext, i: nat)
    requires i < count <= |steps|
    requires RunSteps(steps, count, ctx).abort.None?
    ensures Interpolate(steps[i].params, ctx.values).Ok?
    ensures i < |RunSteps(steps, count, ctx).records|
    ensures RunSteps(steps, count, ctx).records[i] ==
      StepRecord(steps[i].action,
                 ctx.exec(steps[i].action, StepParams(steps[i], ctx), ctx.projectId,
                             |RunSteps(steps, i, ctx).calls|).result)
    decreases count
  {
    TranscriptStep(steps, count, ctx);
    if i < count - 1 {
      TranscriptEntry(steps, count - 1, ctx, i);
      var prev := RunSteps(steps, count - 1, ctx).records;
      assert RunSteps(steps, count, ctx).records[i] == prev[i];
    }
  }

  /** The last iteration of a run that did not abort followed a run that did not abort, and added one entry. */
  lemma TranscriptGrows(steps: seq<StepDef>, count: nat, ctx: RunContext)
    requires 0 < count <= |steps|
    requires RunSteps(steps, count, ctx).abort.None?
    ensures RunSteps(steps, count - 1, ctx).abort.None?
    ensures |RunSteps(steps, count, ctx).records| == |RunSteps(steps, count - 1, ctx).records| + 1
  {
    TranscriptStep(steps, count, ctx);
  }

  /** The last iteration of a run that did not abort: it followed a run that did not abort, and appended its step's entry. */
  lemma TranscriptStep(steps: seq<StepDef>, count: nat, ctx: RunContext)
    requires 0 < count <= |steps|
    requires RunSteps(steps, count, ctx).abort.None?
    ensures RunSteps(steps, count - 1, ctx).abort.None?
    ensures Interpolate(steps[count - 1].params, ctx.values).Ok?
    ensures RunSteps(steps, count, ctx).records ==
      RunSteps(steps, count - 1, ctx).records +
      [StepRecord(steps[count - 1].action,
                  ctx.exec(steps[count - 1].action, StepParams(steps[count - 1], ctx), ctx.projectId,
                              |RunSteps(steps, count - 1, ctx).calls|).result)]
  {
    var prev := RunSteps(steps, count - 1, ctx);
    assert prev.abort.None?;
  }

  /** Once a run has aborted, later iterations change nothing: no further step runs and no further call is made. */
  lemma {:induction false} AbortStopsRun(steps: seq<StepDef>, count: nat, later: nat, ctx: RunContext)
    requires count <= later <= |steps|
    requires RunSteps(steps, count, ctx).abort.Some?
    ensures RunSteps(steps, later, ctx) == RunSteps(steps, count, ctx)
  {
    var k := count;
    while k < later
      invariant count <= k <= later
      invariant RunSteps(steps, k, ctx) == RunSteps(steps, count, ctx)
    {
      AbortedStays(steps, k, ctx);
      k := k + 1;
    }
  }

  lemma AbortedStays(steps: seq<StepDef>, count: nat, ctx: RunContext)
    requires count < |steps|
    requires RunSteps(steps, count, ctx).abort.Some?
    ensures RunSteps(steps, count + 1, ctx) == RunSteps(steps, count, ctx)
  {
  }

  /**
   Step failures never abort a run: with the caller's variables readable and
   logging off, every step runs whatever its result, error payloads included.
   */
  lemma {:induction false} StepFailuresDoNotAbort(steps: seq<StepDef>, count: nat, ctx: RunContext)
    requires count <= |steps|
    requires Readable(ctx.values) && !Logging(ctx)
    ensures RunSteps(steps, count, ctx).abort.None?
    ensures |RunSteps(steps, count, ctx).records| == count
    decreases count
  {
    if count > 0 {
      StepFailuresDoNotAbort(steps, count - 1, ctx);
      InterpolateThrowsIff(steps[count - 1].params, ctx.values);
    }
  }

  /**
   With logging on, a run whose step results are never null and whose
   `actions` writes all succeed is not aborted either: a step whose result
   carries an error is logged as failed and the loop goes on.
   */
  lemma {:induction false} LoggedFailuresDoNotAbort(steps: seq<StepDef>, count: nat, ctx: RunContext)
    requires count <= |steps|
    requires Readable(ctx.values) && Logging(ctx)
    requires forall a: string, p: seq<Field>, pid: Option<Json>, n: nat :: ctx.exec(a, p, pid, n).result != JNull
    requires forall n: nat, c: Call :: c.LogAction? ==> ctx.env(n, c).Ok?
    ensures RunSteps(steps, count, ctx).abort.None?
    ensures |RunSteps(steps, count, ctx).records| == count
    decreases count
  {
    if count > 0 {
      LoggedFailuresDoNotAbort(steps, count - 1, ctx);
      InterpolateThrowsIff(steps[count - 1].params, ctx.values);
    }
  }

  /**
   Step `i` of a logged run wrote its `actions` row right after the step's
   own calls: the row records the action, the parameters it ran with and its
   result, and is marked failed exactly when the result's `error` is truthy.
   */
  predicate StepLogged(steps: seq<StepDef>, i: nat, ctx: RunContext)
    requires i < |steps|
  {
    var before := RunSteps(steps, i, ctx);
    Interpolate(steps[i].params, ctx.values).Ok? &&
    var ex := ctx.exec(steps[i].action, StepParams(steps[i], ctx), ctx.projectId, |before.calls|);
    ErrorOf(ex.result).Ok? && ctx.projectId.Some? &&
    RunSteps(steps, i + 1, ctx).calls ==
      before.calls + ex.calls +
      [LogAction(ctx.projectId.value,
                 StepLogEntry(steps[i].action, StepParams(steps[i], ctx), ex.result, TruthyOpt(ErrorOf(ex.result).value)))]
  }

  /** With logging on, every step of a run that was not aborted wrote exactly one row, after its own calls. */
  lemma {:induction false} LoggedRun(steps: seq<StepDef>, count: nat, ctx: RunContext)
    requires count <= |steps| && Logging(ctx)
    ensures RunSteps(steps, count, ctx).abort.None? ==>
      forall i :: 0 <= i < count ==> StepLogged(steps, i, ctx)
  {
    if RunSteps(steps, count, ctx).abort.Some? {
      return;
    }
    forall i | 0 <= i < count
      ensures StepLogged(steps, i, ctx)
    {
      NotAbortedBefore(steps, i + 1, count, ctx);
      NotAbortedBefore(steps, i, count, ctx);
      LoggedStep(steps, i, ctx);
    }
  }

  /** A run that was not aborted after `count` steps was not aborted after fewer. */
  lemma {:induction false} NotAbortedBefore(steps: seq<StepDef>, k: nat, count: nat, ctx: RunContext)
    requires k <= count <= |steps|
    requires RunSteps(steps, count, ctx).abort.None?
    ensures RunSteps(steps, k, ctx).abort.None?
    decreases count
  {
    if k < count {
      TranscriptGrows(steps, count, ctx);
      NotAbortedBefore(steps, k, count - 1, ctx);
    }
  }

  lemma LoggedStep(steps: seq<StepDef>, i: nat, ctx: RunContext)
    requires i < |steps| && Logging(ctx)
    requires RunSteps(steps, i, ctx).abort.None? && RunSteps(steps, i + 1, ctx).abort.None?
    ensures StepLogged(steps, i, ctx)
  {
    var before := RunSteps(steps, i, ctx);
    var after := RunSteps(steps, i + 1, ctx);
    assert after == RunStep(before, steps[i], ctx);
    var ex := ctx.exec(steps[i].action, StepParams(steps[i], ctx), ctx.projectId, |before.calls|);
    var k := |before.calls| + |ex.calls|;
    assert after.calls[..k] == before.calls + ex.calls;
    assert after.calls == after.calls[..k] + [after.calls[k]];
  }

  /** The response body of a completed run. */
  function RecordJson(r: StepRecord): Json {
    JObj([Field("action", JStr(r.action)), Field("result", r.result)])
  }

  function SuccessBody(taskName: string, records: seq<StepRecord>): Json {
    JObj([Field("success", JBool(true)), Field("task", JStr(taskName)),
          Field("results", JArr(seq(|records|, i requires 0 <= i < |records| => RecordJson(records[i]))))])
  }

  /** The context `const { params, projectId } = body` sets up for a run of the configured tasks. */
  function TaskContext(config: Config, body: Json, env: Env): RunContext {
    RunContext(Member(body, "params"), Member(body, "projectId"), config.logToStore, env, TableExecutor(env))
  }

  /**
   `POST /api/traycer/execute`. An unreadable body or a null one ends in 500.
   An unknown task name ends in 404 with `Task '<taskName>' not found` before
   any external call. Otherwise the task's steps run in order; a run that
   aborted ends in 500 with the error's message, and a completed one in
   `{success: true, task, results}` with one entry per step, whatever the
   steps' own results were.
   */
  function Execute(config: Config, request: Outcome<Json>, env: Env): (h: Handled)
    ensures request.Thrown? ==> h == Handled(Response(500, ErrorBody(request.message)), [])
    ensures request == Ok(JNull) ==>
      h == Handled(Response(500, ErrorBody(DestructureError("taskName", "body", "null"))), [])
    ensures request.Ok? && request.value != JNull &&
            FindTask(config.tasks, Member(request.value, "taskName"), 0).None? ==>
      h == Handled(Response(404, ErrorBody("Task '" + ToJsString(Member(request.value, "taskName")) + "' not found")), [])
    ensures request.Ok? && request.value != JNull && FindTask(config.tasks, Member(request.value, "taskName"), 0).Some? ==>
      var task := config.tasks[FindTask(config.tasks, Member(request.value, "taskName"), 0).value];
      var run := RunSteps(task.steps, |task.steps|, TaskContext(config, request.value, env));
      h.calls == run.calls &&
      (run.abort.None? ==> h.response == Response(200, SuccessBody(task.name, run.records))) &&
      (run.abort.Some? ==> h.response == Response(500, ErrorBody(run.abort.value)))
    ensures h.response.status in {200, 404, 500}
    ensures h.response.status == 200 ==>
      request.Ok? && request.value.JObj? &&
      var taskName := Member(request.value, "taskName");
      var t := FindTask(config.tasks, taskName, 0);
      t.Some? &&
      var steps := config.tasks[t.value].steps;
      var run := RunSteps(steps, |steps|, TaskContext(config, request.value, env));
      run.abort.None? && h.calls == run.calls &&
      h.response.body == SuccessBody(config.tasks[t.value].name, run.records)
  {
    match request
    case Thrown(m) => Handled(Response(500, ErrorBody(m)), [])
    case Ok(body) =>
      if body == JNull then
        Handled(Response(500, ErrorBody(DestructureError("taskName", "body", "null"))), [])
      else
        var taskName := Member(body, "taskName");
        match FindTask(config.tasks, taskName, 0)
        case None => Handled(Response(404, ErrorBody("Task '" + ToJsString(taskName) + "' not found")), [])
        case Some(i) =>
          var task := config.tasks[i];
          var ctx := TaskContext(config, body, env);
          var run := RunSteps(task.steps, |task.steps|, ctx);
          match run.abort
          case Some(m) => Handled(Response(500, ErrorBody(m)), run.calls)
          case None => Handled(Response(200, SuccessBody(task.name, run.records)), run.calls)
  }

  /**
   A request for a known task whose run completes answers 200 with one
   `{action, result}` per step of the task, in declaration order, and
   `success: true` even when step results carry errors.
   */
  lemma CompletedResponse(config: Config, body: Json, env: Env)
    requires body != JNull
    requires FindTask(config.tasks, Member(body, "taskName"), 0).Some?
    ensures var t := FindTask(config.tasks, Member(body, "taskName"), 0).value;
      var steps := config.tasks[t].steps;
      var run := RunSteps(steps, |steps|, TaskContext(config, body, env));
      var h := Execute(config, Ok(body), env);
      run.abort.None? ==>
        h.response.status == 200 && h.calls == run.calls &&
        |run.records| == |steps| &&
        (forall i :: 0 <= i < |steps| ==> run.records[i].action == steps[i].action) &&
        h.response.body.fields[0] == Field("success", JBool(true))
  {
    var t := FindTask(config.tasks, Member(body, "taskName"), 0).value;
    var steps := config.tasks[t].steps;
    var ctx := TaskContext(config, body, env);
    RunTranscript(steps, |steps|, ctx);
  }

  /**
   With readable `params` and logging off, a request for a known task always
   answers 200, whatever its steps return.
   */
  lemma UnloggedRequestSucceeds(config: Config, body: Json, env: Env)
    requires body != JNull
    requires FindTask(config.tasks, Member(body, "taskName"), 0).Some?
    requires Readable(Member(body, "params")) && !(config.logToStore && TruthyOpt(Member(body, "projectId")))
    ensures Execute(config, Ok(body), env).response.status == 200
  {
    var t := FindTask(config.tasks, Member(body, "taskName"), 0).value;
    var steps := config.tasks[t].steps;
    StepFailuresDoNotAbort(steps, |steps|, TaskContext(config, body, env));
  }

  /**
   A run that aborts, because a step's variables could not be read or its log
   entry could not be written, turns the whole request into 500 with that
   error's message; the calls made up to the abort have happened.
   */
  lemma AbortedResponse(config: Config, body: Json, env: Env)
    requires body != JNull
    requires FindTask(config.tasks, Member(body, "taskName"), 0).Some?
    ensures var t := FindTask(config.tasks, Member(body, "taskName"), 0).value;
      var steps := config.tasks[t].steps;
      var run := RunSteps(steps, |steps|, TaskContext(config, body, env));
      run.abort.Some? ==>
        Execute(config, Ok(body), env) == Handled(Response(500, ErrorBody(run.abort.value)), run.calls)
  {
  }
}
