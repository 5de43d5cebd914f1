/**
 `POST /api/mobile/build` and the background job it starts: the request
 validates the platform, creates a build record with status "building" and
 answers at once; the job runs the four build stages in a fixed order,
 collecting their output, and finally marks the record completed or failed.
 */
module MobileBuild {
  import opened Js
  import opened Services

  datatype Platform = Android | Ios

  function PlatformName(p: Platform): string {
    match p
    case Android => "android"
    case Ios => "ios"
  }

  /** `["android", "ios"].includes(platform)`: strict equality with one of the two strings. */
  function ParsePlatform(v: Option<Json>): (p: Option<Platform>)
    ensures p.Some? <==> v == Some(JStr("android")) || v == Some(JStr("ios"))
    ensures p.Some? ==> v == Some(JStr(PlatformName(p.value)))
  {
    if v == Some(JStr("android")) then Some(Android)
    else if v == Some(JStr("ios")) then Some(Ios)
    else None
  }

  const PlatformError: string := "Platform must be 'android' or 'ios'"

  /** A write to the `builds` table. */
  datatype StoreCall =
    | CreateBuild(projectId: Option<Json>, record: Json)
    | UpdateBuild(buildId: Option<Json>, updates: Json)

  /** The record store: the row a write returns, or the error it throws. */
  type Store = StoreCall -> Outcome<Json>

  /** The build record created before the job starts. */
  function BuildingRecord(p: Platform): Json {
    JObj([Field("platform", JStr(PlatformName(p))), Field("status", JStr("building"))])
  }

  /** What the background job is started with. */
  datatype BuildJob = BuildJob(buildId: Option<Json>, projectId: Option<Json>, platform: Platform)

  /** The reply, the record-store writes made while answering, and the job started, if any. */
  datatype Requested = Requested(response: Response, writes: seq<StoreCall>, job: Option<BuildJob>)

  function StartedBody(buildId: Option<Json>, p: Platform): Json {
    JObj([Field("success", JBool(true))] + OptField("buildId", buildId)
         + [Field("message", JStr(PlatformName(p) + " build started"))])
  }

  /**
   The request handler. A platform other than "android" or "ios" is refused
   with 400 before anything is written. Otherwise exactly one "building"
   record is created; when that succeeds the job is started with the new
   record's id and the reply is `{success: true, buildId, message}`. An
   unreadable or null body, or a failing insert, ends in 500 with the error's
   message and starts no job.
   */
  function RequestBuild(request: Outcome<Json>, store: Store): (r: Requested)
    ensures r.response.status in {200, 400, 500}
    ensures r.response.status == 200 <==> r.job.Some?
    ensures request.Thrown? ==> r == Requested(Response(500, ErrorBody(request.message)), [], None)
    ensures request.Ok? && request.value != JNull && ParsePlatform(Member(request.value, "platform")).None? ==>
      r == Requested(Response(400, ErrorBody(PlatformError)), [], None)
    ensures r.response.status == 400 ==> r.writes == []
    ensures request == Ok(JNull) ==>
      r == Requested(Response(500, ErrorBody(DestructureError("projectId", "body", "null"))), [], None)
    ensures request.Ok? && request.value != JNull && ParsePlatform(Member(request.value, "platform")).Some? ==>
      var p := ParsePlatform(Member(request.value, "platform")).value;
      var projectId := Member(request.value, "projectId");
      var write := CreateBuild(projectId, BuildingRecord(p));
      r.writes == [write] &&
      (store(write).Thrown? ==> r == Requested(Response(500, ErrorBody(store(write).message)), [write], None)) &&
      (store(write) == Ok(JNull) ==> r == Requested(Response(500, ErrorBody(ReadError("null", "id"))), [write], None)) &&
      (store(write).Ok? && store(write).value != JNull ==>
         var id := Member(store(write).value, "id");
         r == Requested(Response(200, StartedBody(id, p)), [write], Some(BuildJob(id, projectId, p))))
    ensures r.writes != [] ==>
      request.Ok? &&
      var p := ParsePlatform(Member(request.value, "platform"));
      p.Some? && r.writes == [CreateBuild(Member(request.value, "projectId"), BuildingRecord(p.value))]
    ensures r.job.Some? ==>
      |r.writes| == 1 && r.writes[0].record == BuildingRecord(r.job.value.platform) &&
      r.job.value.projectId == r.writes[0].projectId &&
      store(r.writes[0]).Ok? &&
      ReadProperty(Some(store(r.writes[0]).value), "id") == Ok(r.job.value.buildId) &&
      r.response.body == StartedBody(r.job.value.buildId, r.job.value.platform)
  {
    match request
    case Thrown(m) => Requested(Response(500, ErrorBody(m)), [], None)
    case Ok(body) =>
      if body == JNull then
        Requested(Response(500, ErrorBody(DestructureError("projectId", "body", "null"))), [], None)
      else
        var projectId := Member(body, "projectId");
        var platform := Member(body, "platform");
        match ParsePlatform(platform)
        case None => Requested(Response(400, ErrorBody(PlatformError)), [], None)
        case Some(p) =>
          var write := CreateBuild(projectId, BuildingRecord(p));
          match store(write)
          case Thrown(m) => Requested(Response(500, ErrorBody(m)), [write], None)
          case Ok(build) =>
            match ReadProperty(Some(build), "id")
            case Thrown(m) => Requested(Response(500, ErrorBody(m)), [write], None)
            case Ok(id) => Requested(Response(200, StartedBody(id, p)), [write], Some(BuildJob(id, projectId, p)))
  }

  /** One build stage: the header appended to the log, and the shell command it runs. */
  datatype Stage = Stage(header: string, command: string)

  /** The four stages in their fixed order: build, export, sync with the platform, native build. */
  function Stages(p: Platform): (s: seq<Stage>)
    ensures |s| == 4
    ensures s[0].command == "npm run build" && s[1].command == "npx next export"
    ensures s[2].command == "npx cap sync " + PlatformName(p)
    ensures s[3].command == (if p == Android then "cd android && ./gradlew assembleRelease"
                             else "cd ios && xcodebuild -scheme App -configuration Release")
  {
    [ Stage("\U{1F4E6} Building Next.js app...\n", "npm run build"),
      Stage("\n\U{1F4E4} Exporting static files...\n", "npx next export"),
      Stage("\n\U{1F504} Syncing to Capacitor (" + PlatformName(p) + ")...\n", "npx cap sync " + PlatformName(p)),
      NativeStage(p) ]
  }

  function NativeStage(p: Platform): Stage {
    match p
    case Android => Stage("\n\U{1F916} Building Android APK...\n", "cd android && ./gradlew assembleRelease")
    case Ios => Stage("\n\U{1F34E} Building iOS app...\n", "cd ios && xcodebuild -scheme App -configuration Release")
  }

  /** Where the native build leaves its artefact. */
  function OutputPath(p: Platform): string {
    match p
    case Android => "./android/app/build/outputs/apk/release/app-release.apk"
    case Ios => "./ios/build/Release-iphoneos/App.app"
  }

  /** The shell: a command's standard output, or the message of the error it fails with. */
  type Shell = string -> Outcome<string>

  /** Stages run so far: the accumulated log, the commands run in order, and the failure that stopped them, if any. */
  datatype StageRun = StageRun(logs: string, ran: seq<string>, failure: Option<string>)

  /** The first `count` stages; a failed stage ends the sequence. */
  function RunStages(stages: seq<Stage>, count: nat, shell: Shell): StageRun
    requires count <= |stages|
    decreases count
  {
    if count == 0 then StageRun("", [], None)
    else
      var prev := RunStages(stages, count - 1, shell);
      if prev.failure.Some? then prev
      else
        var stage := stages[count - 1];
        match shell(stage.command)
        case Thrown(m) => StageRun(prev.logs, prev.ran + [stage.command], Some(m))
        case Ok(out) => StageRun(prev.logs + stage.header + out, prev.ran + [stage.command], None)
  }

  function Concat(parts: seq<string>): string
    decreases |parts|
  {
    if |parts| == 0 then "" else Concat(parts[..|parts| - 1]) + parts[|parts| - 1]
  }

  function CommandsOf(stages: seq<Stage>): seq<string> {
    seq(|stages|, i requires 0 <= i < |stages| => stages[i].command)
  }

  /** What a stage that succeeded contributes to the log: its header, then its output. */
  function LogPart(stage: Stage, shell: Shell): string {
    stage.header + (match shell(stage.command) case Ok(out) => out case Thrown(_) => "")
  }

  /** The log of the first `count` stages when all of them succeed: each header and output, stage after stage. */
  function ExpectedLog(stages: seq<Stage>, count: nat, shell: Shell): string
    requires count <= |stages|
  {
    Concat(seq(count, i requires 0 <= i < count => LogPart(stages[i], shell)))
  }

  /**
   Stages run strictly in order and stop at the first failure: the commands
   run are a prefix of the stages' commands, all of them when nothing failed.
   When one failed, every stage before it succeeded, it was the last to run,
   and its error message is the failure.
   */
  lemma {:induction false} StagesInOrder(stages: seq<Stage>, count: nat, shell: Shell)
    requires count <= |stages|
    ensures var run := RunStages(stages, count, shell);
      |run.ran| <= count && run.ran == CommandsOf(stages)[..|run.ran|] &&
      (run.failure.None? ==> |run.ran| == count) &&
      (run.failure.Some? ==>
         |run.ran| >= 1 &&
         (forall i :: 0 <= i < |run.ran| - 1 ==> shell(stages[i].command).Ok?) &&
         shell(stages[|run.ran| - 1].command) == Thrown(run.failure.value))
    decreases count
  {
    if count > 0 {
      StagesInOrder(stages, count - 1, shell);
      var prev := RunStages(stages, count - 1, shell);
      if prev.failure.None? {
        StagesLog(stages, count - 1, shell);
        assert CommandsOf(stages)[..count] == CommandsOf(stages)[..count - 1] + [stages[count - 1].command];
      }
    }
  }

  /** When no stage failed, every stage succeeded and the log is the expected one. */
  lemma {:induction false} StagesLog(stages: seq<Stage>, count: nat, shell: Shell)
    requires count <= |stages|
    requires RunStages(stages, count, shell).failure.None?
    ensures forall i :: 0 <= i < count ==> shell(stages[i].command).Ok?
    ensures RunStages(stages, count, shell).logs == ExpectedLog(stages, count, shell)
    decreases count
  {
    if count > 0 {
      var prev := RunStages(stages, count - 1, shell);
      assert prev.failure.None?;
      StagesLog(stages, count - 1, shell);
      var last := stages[count - 1];
      assert shell(last.command).Ok?;
      assert RunStages(stages, count, shell).logs == prev.logs + LogPart(last, shell);
      var parts := seq(count, i requires 0 <= i < count => LogPart(stages[i], shell));
      assert parts[..count - 1] == seq(count - 1, i requires 0 <= i < count - 1 => LogPart(stages[i], shell));
    }
  }

  /** The final update the job asks for. */
  datatype BuildUpdate = Completed(outputUrl: string, logs: string) | Failed(logs: string)

  function UpdateJson(u: BuildUpdate): Json {
    match u
    case Completed(url, logs) =>
      JObj([Field("status", JStr("completed")), Field("output_url", JStr(url)), Field("logs", JStr(logs))])
    case Failed(logs) => JObj([Field("status", JStr("failed")), Field("logs", JStr(logs))])
  }

  /** The job's effects: the commands it ran and the record updates it attempted, in order. */
  datatype JobRun = JobRun(commands: seq<string>, updates: seq<BuildUpdate>)

  /**
   The background job. If every stage succeeds it asks for `completed` with
   the platform's artefact path and the accumulated log; if a stage fails it
   asks for `failed` with that stage's error message as the whole log. A
   `completed` update that itself throws is followed by one `failed` update
   carrying that error; nothing follows a `failed` update.
   */
  function BuildMobileApp(job: BuildJob, shell: Shell, store: Store): (r: JobRun)
    ensures 1 <= |r.updates| <= 2
    ensures var stages := Stages(job.platform);
      var run := RunStages(stages, |stages|, shell);
      r.commands == run.ran &&
      r.updates[0] == (if run.failure.None? then Completed(OutputPath(job.platform), run.logs)
                       else Failed(run.failure.value))
    ensures |r.updates| == 2 <==>
      r.updates[0].Completed? && store(UpdateBuild(job.buildId, UpdateJson(r.updates[0]))).Thrown?
    ensures |r.updates| == 2 ==>
      r.updates[1] == Failed(store(UpdateBuild(job.buildId, UpdateJson(r.updates[0]))).message)
  {
    var stages := Stages(job.platform);
    var run := RunStages(stages, |stages|, shell);
    match run.failure
    case Some(m) => JobRun(run.ran, [Failed(m)])
    case None =>
      var done := Completed(OutputPath(job.platform), run.logs);
      match store(UpdateBuild(job.buildId, UpdateJson(done)))
      case Thrown(m) => JobRun(run.ran, [done, Failed(m)])
      case Ok(_) => JobRun(run.ran, [done])
  }

  /**
   A completed job ran all four commands, build, export, sync and native, and
   its log is each stage's header followed by that stage's output, in that
   order, next to the platform's artefact path.
   */
  lemma JobCompleted(job: BuildJob, shell: Shell, store: Store)
    ensures var stages := Stages(job.platform);
      var r := BuildMobileApp(job, shell, store);
      r.updates[0].Completed? ==>
      r.commands == CommandsOf(stages) &&
      (forall i :: 0 <= i < 4 ==> shell(stages[i].command).Ok?) &&
      r.updates[0].outputUrl == OutputPath(job.platform) &&
      r.updates[0].logs == Concat([LogPart(stages[0], shell), LogPart(stages[1], shell),
                                   LogPart(stages[2], shell), LogPart(stages[3], shell)])
  {
    var stages := Stages(job.platform);
    if RunStages(stages, |stages|, shell).failure.None? {
      FourStages(stages, shell);
    }
  }

  /** A four-stage run that did not fail ran every command, and its log is the four stages' parts in order. */
  lemma FourStages(stages: seq<Stage>, shell: Shell)
    requires |stages| == 4
    ensures RunStages(stages, |stages|, shell).failure.None? ==>
      RunStages(stages, |stages|, shell).ran == CommandsOf(stages) &&
      (forall i :: 0 <= i < 4 ==> shell(stages[i].command).Ok?) &&
      RunStages(stages, |stages|, shell).logs ==
        Concat([LogPart(stages[0], shell), LogPart(stages[1], shell), LogPart(stages[2], shell), LogPart(stages[3], shell)])
  {
    if RunStages(stages, |stages|, shell).failure.Some? {
      return;
    }
    StagesInOrder(stages, |stages|, shell);
    StagesLog(stages, |stages|, shell);
    assert seq(4, i requires 0 <= i < 4 => LogPart(stages[i], shell))
        == [LogPart(stages[0], shell), LogPart(stages[1], shell), LogPart(stages[2], shell), LogPart(stages[3], shell)];
    assert CommandsOf(stages)[..4] == CommandsOf(stages);
  }

  /**
   A failed job stopped at its first failing stage, ran none after it, and
   made a single update whose log is that stage's error message alone.
   */
  lemma JobFailed(job: BuildJob, shell: Shell, store: Store)
    ensures var stages := Stages(job.platform);
      var r := BuildMobileApp(job, shell, store);
      r.updates[0].Failed? ==>
      r.updates == [r.updates[0]] && 1 <= |r.commands| <= 4 &&
      r.commands == CommandsOf(stages)[..|r.commands|] &&
      (forall i :: 0 <= i < |r.commands| - 1 ==> shell(stages[i].command).Ok?) &&
      shell(r.commands[|r.commands| - 1]) == Thrown(r.updates[0].logs)
  {
    var stages := Stages(job.platform);
    StagesInOrder(stages, |stages|, shell);
  }

  /** Android builds yield the APK, every other platform the iOS app bundle. */
  lemma OutputPathByPlatform(p: Platform)
    ensures (OutputPath(p) == "./android/app/build/outputs/apk/release/app-release.apk") <==> p == Android
    ensures p != Android ==> OutputPath(p) == "./ios/build/Release-iphoneos/App.app"
  {
  }
}
