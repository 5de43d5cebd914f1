# Workflow runner, mobile build and chat dispatch: a Dafny model

This project models the three pieces of sequential logic in a dashboard
that otherwise forwards requests to GitHub, Vercel, a chat-completion
service, a record store and a local build toolchain:

- **The workflow runner** (`POST /api/traycer/execute`, module `Workflow`).
  It looks a task up by name and runs the task's steps in declaration
  order. For each step it substitutes the caller's variables into the
  step's parameter template (`interpolateParams`, module `Interpolation`)
  and executes the step through a fixed dispatch table (`executeStep`,
  module `Executor`). It collects one `{action, result}` entry per step
  and, when logging is on, writes an `actions` row per step. The loop
  reaches the executor through its run context; a request sets it to the
  dispatch table over the same services (`Workflow.TaskContext`), so the
  loop's lemmas hold for that table.
- **The mobile build** (`POST /api/mobile/build` and `buildMobileApp`,
  module `MobileBuild`). The request checks the platform, creates a
  "building" record and answers at once. The background job runs the
  build, export, sync and native stages in order and ends in a
  `completed` or `failed` update of the record.
- **The chat dispatch** (`POST /api/gpt/chat`, module `Chat`). A reply
  that asks for `create_project`, `deploy_project` or `build_mobile` runs
  that function against the application's own API routes. The handler
  then answers with a `function` message. Any other reply passes through
  unchanged.

Module `Js` holds the JavaScript semantics the handlers rely on:
- JSON values, with objects as ordered field lists (insertion order);
- `undefined` as `None`;
- truthiness;
- property reads that throw V8's TypeError on null and undefined;
- `slice` with negative indices;
- `trim` with ECMAScript's whitespace set;
- a loop that stops at the first thrown error.

Module `Services` holds the HTTP and record-store calls of the workflow
and chat handlers, which are passed in as an oracle (`Env`). The `n`-th
external call of a request returns a JSON payload or throws, and each
handler's result lists the calls it made, in order. The mobile build
declares its own two oracles in `MobileBuild`: the record store (`Store`)
and the shell (`Shell`). They take the call alone, without its position.
This loses nothing, because each build write and each build command
differs from the others.

## Model

| member | source | states |
|---|---|---|
| Interpolation.InterpolateKeepsKeys | src/app/api/traycer/execute/route.ts:63-74 | the substituted parameters have exactly the template's keys, in the template's order |
| Interpolation.InterpolateEntries | src/app/api/traycer/execute/route.ts:66-70 | a value that is not a string starting with "{{" is kept; a placeholder takes its variable's value when that value is truthy, and keeps the template string when the variable is missing or falsy |
| Interpolation.VarName | src/app/api/traycer/execute/route.ts:68 | the variable name is the placeholder without its first two and last two characters, trimmed; strings shorter than four characters name the empty variable |
| Interpolation.InterpolateThrowsIff | src/app/api/traycer/execute/route.ts:67-69 | substitution throws exactly when the caller's variables are undefined or null and the template holds a placeholder |
| Interpolation.InterpolateParams | src/app/api/traycer/execute/route.ts:63-74 | the copy-then-rewrite loop computes the single left-to-right pass, so a substituted value is never substituted again |
| Interpolation.NoSecondPass | src/app/api/traycer/execute/route.ts:66-71 | a variable bound to "{{b}}" yields "{{b}}", not the value of b |
| Interpolation.FalsyBindingKeepsTemplate | src/app/api/traycer/execute/route.ts:69 | a variable bound to 0 leaves the template string in place |
| Interpolation.UnclosedPlaceholderName | src/app/api/traycer/execute/route.ts:67-68 | only the "{{" prefix is checked: "{{name" is a placeholder for the variable "na" |
| Js.TrimPadded | src/app/api/traycer/execute/route.ts:68 | trimming removes exactly the leading and trailing whitespace around a core that neither starts nor ends with whitespace |
| Js.ReadProperty | src/app/api/traycer/execute/route.ts:69 | reading a property throws exactly on undefined and null, with V8's "Cannot read properties of undefined/null (reading '<name>')" message; otherwise it yields an object's own property, and undefined on every other value |
| Executor.ParseAction | src/app/api/traycer/execute/route.ts:80-120 | the dispatch table recognises exactly the five action names |
| Executor.MobileBuildBody | src/app/api/traycer/execute/route.ts:106 | the posted body's projectId is the run's projectId, absent when that is undefined, and every other key is the parameters' own |
| Executor.MobileBuildBodyKeys | src/app/api/traycer/execute/route.ts:106 | in the posted body a projectId the parameters already have keeps its place, and a new one goes last |
| Executor.StoreLogEntry | src/app/api/traycer/execute/route.ts:111-115 | the `supabase_log` row carries the parameters' type and payload and status "success" |
| Executor.ExecuteStep | src/app/api/traycer/execute/route.ts:76-126 | an unknown action yields `{error: "Unknown action: <action>"}` with no call; the fetch actions post their parameters to their route; `supabase_log` writes only with a truthy projectId and otherwise yields `{success: true}`; at most one call is made, and a throw becomes `{error}` instead of escaping |
| Workflow.FindTask | src/app/api/traycer/execute/route.ts:10 | the lookup yields the first task whose name strictly equals the requested one, and none when no task has that name |
| Workflow.StepLogEntry | src/app/api/traycer/execute/route.ts:36-41 | the `actions` row has four fields, and its status is "failed" for a failed step and "success" otherwise |
| Workflow.StepLogEntryFields | src/app/api/traycer/execute/route.ts:36-41 | the row's `type` is the step's action, its `payload` the parameters the step ran with, its `result` the step's result, and its `status` "failed" or "success" by the flag |
| Workflow.RunStep | src/app/api/traycer/execute/route.ts:26-42 | one loop iteration extends the transcript and the calls and never rewrites them; it appends one entry exactly when the template can be interpolated, and otherwise aborts with that error; with logging off it makes only the step's calls and never aborts; with logging on it appends one `actions` row after the step's calls, and aborts exactly when reading `error` or the write throws |
| Workflow.RunSteps | src/app/api/traycer/execute/route.ts:23-43 | the loop over the first `count` steps has at most one entry per step, and exactly one per step when it was not aborted |
| Workflow.RunTranscript | src/app/api/traycer/execute/route.ts:23-32 | a run that completes has one entry per step, in declaration order, each holding that step's action and the result of executing it with parameters interpolated against the caller's variables |
| Workflow.StepFailuresDoNotAbort | src/app/api/traycer/execute/route.ts:27-32 | with readable variables and logging off, every step runs whatever the earlier results, error payloads included |
| Workflow.LoggedFailuresDoNotAbort | src/app/api/traycer/execute/route.ts:26-42 | with logging on, readable variables, step results that are never null and `actions` writes that succeed, every step runs, error payloads included |
| Workflow.LoggedRun | src/app/api/traycer/execute/route.ts:34-42 | with logging on, every step of a run that was not aborted wrote exactly one `actions` row right after its own calls, with the action, the parameters it ran with and its result, marked failed exactly when the result's `error` is truthy |
| Workflow.AbortStopsRun | src/app/api/traycer/execute/route.ts:52-59 | once a run aborts, no further step runs and no further call is made |
| Workflow.Execute | src/app/api/traycer/execute/route.ts:5-61 | an unreadable or null body gives 500; an unknown task gives 404 `Task '<taskName>' not found` with no call made; for a known task the answer carries the run's calls and is `{success: true, task, results}` with status 200 when the run completed, and 500 with the abort message when it aborted |
| Workflow.CompletedResponse | src/app/api/traycer/execute/route.ts:47-51 | a known task whose run completes answers 200 with one entry per step carrying the step's action, starting with `success: true`, whatever the steps returned |
| Workflow.UnloggedRequestSucceeds | src/app/api/traycer/execute/route.ts:20-51 | with readable `params` and logging off, a request for a known task always answers 200 |
| Workflow.AbortedResponse | src/app/api/traycer/execute/route.ts:52-59 | a run of the named task that aborts answers 500 with the aborting error's message, after the calls made up to the abort |
| MobileBuild.ParsePlatform | src/app/api/mobile/build/route.ts:13 | a platform is accepted exactly when it is the string "android" or "ios" |
| MobileBuild.RequestBuild | src/app/api/mobile/build/route.ts:8-41 | an invalid platform gives 400 "Platform must be 'android' or 'ios'" and writes nothing; a valid one creates exactly one "building" record; when the insert returns a row the job starts with the row's id and the answer is 200 `{success: true, buildId, message: "<platform> build started"}`; an unreadable or null body, a throwing insert and a null row give 500 with the error's message and start no job |
| MobileBuild.Stages | src/app/api/mobile/build/route.ts:47-78 | there are four stages, running `npm run build`, `npx next export`, `npx cap sync <platform>` and the native build in that order: `cd android && ./gradlew assembleRelease` for Android, `cd ios && xcodebuild -scheme App -configuration Release` otherwise |
| MobileBuild.StagesInOrder | src/app/api/mobile/build/route.ts:45-78 | stages run in order and stop at the first failure: the commands run are a prefix of the stage commands, all of them when nothing failed; when one failed, all earlier ones succeeded and its error message is the failure |
| MobileBuild.StagesLog | src/app/api/mobile/build/route.ts:45-78 | when no stage failed, every stage succeeded and the log is each stage's header followed by its output, stage after stage |
| MobileBuild.FourStages | src/app/api/mobile/build/route.ts:45-78 | a run of four stages that did not fail ran every command in order, each of them succeeded, and its log is the four stages' headers and outputs joined in order |
| MobileBuild.BuildMobileApp | src/app/api/mobile/build/route.ts:43-93 | the job's first update is `completed` with the platform's output path and the accumulated log when every stage succeeded, and `failed` with the stage's error message otherwise; a second, `failed` update follows only when the `completed` update throws |
| MobileBuild.JobCompleted | src/app/api/mobile/build/route.ts:45-85 | a completed job ran the build, export, sync and native commands in that order, and its update carries the platform's artefact path and the four headers and outputs in that order |
| MobileBuild.JobFailed | src/app/api/mobile/build/route.ts:86-92 | a failed job ran no stage after the failing one and made a single update whose log is that stage's error message alone |
| MobileBuild.OutputPathByPlatform | src/app/api/mobile/build/route.ts:63-78 | the artefact is the Android APK path exactly for Android, and the iOS App.app path otherwise |
| Chat.ParseFunction | src/app/api/gpt/chat/route.ts:84-96 | a function is selected exactly when the name strictly equals one of the three names |
| Chat.ExecuteCreateProject | src/app/api/gpt/chat/route.ts:115-148 | the repository is requested first with the name, description and `auto_init: true`; the deployment of the same name is requested exactly when that call returned; success exactly when both calls returned non-null payloads, with the repository's `html_url` and the deployment's `url`; each failure is `{success: false, error}` with the thrown call's message, or the TypeError of reading from a null payload |
| Chat.ExecuteDeployProject | src/app/api/gpt/chat/route.ts:150-166 | one deploy call with the project name; success exactly when it returns, carrying the whole payload; otherwise `{success: false, error}` |
| Chat.ExecuteBuildMobile | src/app/api/gpt/chat/route.ts:168-182 | the arguments are posted unchanged to the mobile build route; success exactly when the call returns, carrying the payload as `build`; otherwise `{success: false, error}` |
| Chat.Dispatch | src/app/api/gpt/chat/route.ts:84-96 | a name that is not one of the three yields exactly `{error: "Unknown function"}` with no call; a known function answers an object starting with `success`, and makes at least one call whenever its arguments are not null |
| Chat.Chat | src/app/api/gpt/chat/route.ts:8-113 | a reply without a truthy `function_call` is answered unchanged with no call made; with one whose arguments parse, the named function runs on them and the answer is 200 `{role: "function", name, content}` with the serialised result and the function's calls; an unreadable or null body, a throwing completion, a null reply and unparsable arguments give 500 with the error's message and no call |
| Chat.DispatchCalls | src/app/api/gpt/chat/route.ts:84-96 | an unknown name yields `{error: "Unknown function"}` and calls nothing; each known name calls only its own routes |

## Left out

- Console logging (the task prefix, the status emoji, `console.error` of a detached job) is not modelled; it has no effect on results.
- `fetch`, `Response.json()`, the record store, the chat-completion client and `child_process` are oracles. Which payload or error they produce is the caller's choice. HTTP statuses of downstream responses are invisible to the handlers, and so to the model.
- `JSON.parse` and `JSON.stringify` are parameters of `Chat.Chat`. The serialisation the workflow and mobile build bodies go through is implicit: an undefined field is simply absent from the modelled body.
- Numbers are unbounded integers: NaN, -0, fractions and their truthiness are not modelled. Nor are the limits of JavaScript's doubles: integers beyond 2^53 are not rounded, and the model prints every integer digit by digit where JavaScript switches to exponent notation from 1e21 on (`String(1e21)` is "1e+21"). The 404 message of an unknown numeric task name and the argument text passed to `JSON.parse` differ for such numbers.
- A modelled object is a field list that may repeat a key, which no JavaScript object does. A property read finds the first field with the key, while `JSON.parse` keeps the last. No lemma here assumes distinct keys, and none depends on which duplicate a read finds.
- Object key order is insertion order. JavaScript's rule that integer-like keys come first is not modelled.
- Prototype and inherited properties are not modelled: a property read on a string, number, boolean or array is undefined. The fixed names the handlers read (`name`, `id`, `url`, `error`, …) are not own properties of those values.
- Interpolation.InterpolateEntries: a placeholder names an arbitrary property, and the model finds only an object's own properties. In JavaScript `{{length}}` or `{{0}}` also read a string's or array's own properties, and `{{toString}}` finds a truthy inherited function on any object; the model keeps the template string in those cases.
- Interpolation.VarName: strings are sequences of Unicode scalar values, while `slice(2, -2)` counts UTF-16 code units. A placeholder whose last two characters include one outside the Basic Multilingual Plane therefore names a different variable here: "{{name😀" names "nam" in the model and "name" in JavaScript. The model's strings cannot hold the lone surrogate such a slice can leave.
- The base URL from `NEXTAUTH_URL` and the API keys from the environment are not modelled. A call names its route instead.
- `completion.choices[0].message`: the planner oracle returns the message directly, so the empty-`choices` TypeError is not modelled.
- The function schemas offered to the chat-completion service are not modelled. They only guide the service, and the handler never checks arguments against them.
- The background job runs detached from the request. The model runs it as a separate function on the job the request started; interleaving with other requests is not modelled.
- The task configuration file is a parameter (`Workflow.Config`): the task list and the logging switch.
- `Chat.Chat` passes `messages` to the planner as they are. What the service does with a malformed transcript is part of the oracle.

## Behaviour worth knowing

- The workflow answer is `success: true` whenever the step loop completes, even when steps returned errors (`src/app/api/traycer/execute/route.ts:47-51`).
- A failed `actions` write during a run aborts the whole request with 500 (`src/app/api/traycer/execute/route.ts:35-42`); it is not treated as best-effort logging.
- A failing `completed` update of a mobile build is followed by a `failed` update carrying that error (`src/app/api/mobile/build/route.ts:86-92`).
- Substitution keeps the template string for a falsy variable value (`0`, `""`, `false`, `null`), not only for a missing one (`src/app/api/traycer/execute/route.ts:69`).
