/** The web front of app.py: the guard chains of the upload routes, the names
    uploads are stored under, the task rows the routes create, and the
    ordered status updates each background job writes into the task table.

    The framework is reduced to what the handlers look at: a request is its
    uploaded files (file name, declared content type and mimetype) and its
    form fields; `abort(code)` is an `Aborted` response; `executor.submit`
    is the job description the handler returns; the task id a handler draws
    from uuid4, the clock, and the application's host are parameters. */
module WebApp {
  import opened Common
  import opened Envelope
  import opened TaskRegistry
  import BeatVideo
  import PipPlanner

  // -----------------------------------------------------------------------
  // Requests and responses

  datatype Upload = Upload(filename: string, contentType: string, mimetype: string)

  datatype Request = Request(files: map<string, Upload>, form: map<string, string>)

  /** `request.form.get(key)`. */
  function FormGet(req: Request, key: string): Option<string>
  {
    if key in req.form then Some(req.form[key]) else None
  }

  /** Why a route gave up. */
  datatype Reason =
    | MissingVideo | NoFileChosen | FirstNotVideo | SecondNotVideo | MissingScore | NotVideo
    | MissingImage | NotImage | EmptyImage | ProcessingFailed | TaskNotFound | DuplicateTask

  datatype Abort = Abort(code: int, reason: Reason)

  /** The work a handler hands to the thread pool. */
  datatype Job =
    | BeatJob(taskId: string, video1Path: string, video2Path: string, times: Option<string>)
    | MaozibiJob(taskId: string, video0Path: string, video1Path: string)
    | MaozibiScoreJob(taskId: string, video0Path: string, video1Path: string, score: string)

  /** The payload of the beat route's answer. */
  datatype Created = Created(taskId: string, statusUrl: string, apiStatusUrl: string, createdAt: Value)

  /** The payload of the image route's answer. */
  datatype ImageReceipt = ImageReceipt(taskId: string, message: string, status: string, imageUrl: string)

  datatype Response =
    | Aborted(abort: Abort)
    | CreatedJson(created: Envelope<Created>, job: Job)
    | RedirectTo(location: string, job: Job)
    | SingleVideoResult(taskId: string, videoUrl: string, savedAs: string)
    | ImageJson(receipt: Envelope<ImageReceipt>)
    | StatusJson(taskBody: Envelope<TaskView>)
    | StatusPage(task: TaskView, taskId: string)

  /** Where the maozibi routes and jobs point their public links. */
  const PublicHost: string := "http://8.215.28.241:721"

  // -----------------------------------------------------------------------
  // Guard chains

  predicate IsVideo(u: Upload) { StartsWith(u.contentType, "video/") }

  /** Both files present, both chosen, both declared as video. */
  predicate ValidVideoPair(req: Request, a: string, b: string)
  {
    a in req.files && b in req.files &&
    req.files[a].filename != "" && req.files[b].filename != "" &&
    IsVideo(req.files[a]) && IsVideo(req.files[b])
  }

  /** The checks of `process_videos_web` (fields `video1`, `video2`) and
      `maozibi_web` (fields `video0`, `video1`), in their order: a missing
      field, then an empty file name, then the first file's type, then the
      second's. */
  function TwoVideoGuard(req: Request, a: string, b: string): (r: Option<Reason>)
    ensures r.None? <==> ValidVideoPair(req, a, b)
    ensures a !in req.files || b !in req.files ==> r == Some(MissingVideo)
    ensures r == Some(NoFileChosen) <==>
              a in req.files && b in req.files && (req.files[a].filename == "" || req.files[b].filename == "")
    ensures r == Some(FirstNotVideo) ==> a in req.files && !IsVideo(req.files[a])
    ensures r == Some(SecondNotVideo) ==> b in req.files && !IsVideo(req.files[b]) && IsVideo(req.files[a])
  {
    if a !in req.files || b !in req.files then Some(MissingVideo)
    else if req.files[a].filename == "" || req.files[b].filename == "" then Some(NoFileChosen)
    else if !IsVideo(req.files[a]) then Some(FirstNotVideo)
    else if !IsVideo(req.files[b]) then Some(SecondNotVideo)
    else None
  }

  /** `request.form.get('score', '')`. */
  function ScoreOf(req: Request): string
  {
    if "score" in req.form then req.form["score"] else ""
  }

  /** The checks of `maobizi_score_web`: as the two-video chain, with a blank
      score refused after the file names and before the content types. */
  function ScoreGuard(req: Request): (r: Option<Reason>)
    ensures r.None? <==> ValidVideoPair(req, "video0", "video1") && !IsBlank(ScoreOf(req))
    ensures r == Some(MissingScore) <==>
              "video0" in req.files && "video1" in req.files &&
              req.files["video0"].filename != "" && req.files["video1"].filename != "" &&
              IsBlank(ScoreOf(req))
  {
    if "video0" !in req.files || "video1" !in req.files then Some(MissingVideo)
    else if req.files["video0"].filename == "" || req.files["video1"].filename == "" then Some(NoFileChosen)
    else if IsBlank(ScoreOf(req)) then Some(MissingScore)
    else if !IsVideo(req.files["video0"]) then Some(FirstNotVideo)
    else if !IsVideo(req.files["video1"]) then Some(SecondNotVideo)
    else None
  }

  /** The score route asks for the score before it looks at the types, so a
      blank score is what a request with chosen files hears about first; and
      with a real score it answers exactly as the plain two-video chain. */
  lemma ScoreGuardOrder(req: Request)
    ensures ("video0" in req.files && "video1" in req.files &&
             req.files["video0"].filename != "" && req.files["video1"].filename != "" &&
             IsBlank(ScoreOf(req))) ==> ScoreGuard(req) == Some(MissingScore)
    ensures !IsBlank(ScoreOf(req)) ==> ScoreGuard(req) == TwoVideoGuard(req, "video0", "video1")
  {
  }

  /** The checks of `process_single_video_web`. */
  function SingleVideoGuard(req: Request): (r: Option<Reason>)
    ensures r.None? <==> "video" in req.files && req.files["video"].filename != "" && IsVideo(req.files["video"])
    ensures "video" !in req.files ==> r == Some(MissingVideo)
    ensures r == Some(NotVideo) ==> "video" in req.files && req.files["video"].filename != ""
  {
    if "video" !in req.files then Some(MissingVideo)
    else if req.files["video"].filename == "" then Some(NoFileChosen)
    else if !IsVideo(req.files["video"]) then Some(NotVideo)
    else None
  }

  /** The checks of `maozibi_img_web`: it looks at the mimetype, and does not
      check the file name at all. */
  function ImageGuard(req: Request): (r: Option<Reason>)
    ensures r.None? <==> "image" in req.files && StartsWith(req.files["image"].mimetype, "image/")
  {
    if "image" !in req.files then Some(MissingImage)
    else if !StartsWith(req.files["image"].mimetype, "image/") then Some(NotImage)
    else None
  }

  // -----------------------------------------------------------------------
  // Stored names

  /** The extension an upload is stored with: the text after the last '.'
      of its file name when it has one (`split('.')[-1]`, equally
      `rsplit('.', 1)[-1]`), else the route's default. */
  function ExtensionOf(filename: string, default: string): (ext: string)
    ensures '.' in filename ==> ('.' !in ext && |ext| < |filename| &&
              filename[|filename| - |ext| - 1..] == "." + ext)
    ensures '.' !in filename ==> ext == default
  {
    if '.' in filename then
      var e := AfterLast(filename, '.');
      AfterLastSplits(filename, '.');
      assert filename[|filename| - |e| - 1..] == [filename[|filename| - |e| - 1]] + filename[|filename| - |e|..];
      e
    else default
  }

  /** `f"{prefix}{task_id}.{ext}"`. */
  function StoredName(prefix: string, taskId: string, ext: string): string
  {
    prefix + taskId + "." + ext
  }

  /** A stored name keeps the upload's extension: reading the extension of
      the stored name gives back the one derived from the upload. */
  lemma StoredNameKeepsExtension(prefix: string, taskId: string, filename: string, default: string)
    requires '.' !in default
    ensures ExtensionOf(StoredName(prefix, taskId, ExtensionOf(filename, default)), default) ==
            ExtensionOf(filename, default)
  {
    var ext := ExtensionOf(filename, default);
    assert StoredName(prefix, taskId, ext) == (prefix + taskId) + ['.'] + ext;
    AfterLastAppend(prefix + taskId, '.', ext);
    assert '.' in StoredName(prefix, taskId, ext) by {
      assert StoredName(prefix, taskId, ext)[|prefix + taskId|] == '.';
    }
  }

  // -----------------------------------------------------------------------
  // Task rows written by the routes

  function PendingKwargs(message: string): Kwargs
  {
    [("status", Text("pending")), ("message", Text(message)), ("progress", Number(0))]
  }

  /** A row created with the pending keywords: status pending, the given
      message, progress 0, and the defaults elsewhere (in particular the
      creation stamp and no status link). */
  lemma PendingRow(now: int, message: string)
    ensures var r := ApplyKwargs(DefaultRecord(now), PendingKwargs(message));
      && r.status == Text("pending") && r.message == Text(message) && r.progress == Number(0)
      && r.createdAt == Stamp(now) && r.statusUrl == Null
  {
    var kw := PendingKwargs(message);
    var d := DefaultRecord(now);
    ApplyKwargsField(d, kw, Status);
    ApplyKwargsField(d, kw, Message);
    ApplyKwargsField(d, kw, Progress);
    ApplyKwargsField(d, kw, CreatedAt);
    ApplyKwargsField(d, kw, StatusUrl);
    LastAssignedAt(kw, Status, 0);
    LastAssignedAt(kw, Message, 1);
    LastAssignedAt(kw, Progress, 2);
    LastAssignedNone(kw, CreatedAt);
    LastAssignedNone(kw, StatusUrl);
  }

  /** An update that names only `status_url` sets the link and keeps every
      other field. */
  lemma StatusUrlOnly(r: TaskRecord, url: string)
    ensures ApplyKwargs(r, [("status_url", Text(url))]) == r.(statusUrl := Text(url))
  {
    assert [("status_url", Text(url))][..0] == [];
  }

  const BeatCreatedMessage: string := "任务已创建，准备处理..."
  const MaozibiCreatedMessage: string := "任务已创建，等待处理..."

  /** `process_videos_web`: after the guards, a pending row for the new task,
      the two uploads saved in a fresh temporary directory, the beat job
      queued with the raw `times` form field, and the status links in a
      success envelope. A task id already in the table violates the unique
      index, which the framework answers with status 500. */
  method ProcessVideosWeb(table: TaskTable, req: Request, taskId: string, tempDir: string,
                          appHost: string, now: int) returns (resp: Response)
    modifies table
    ensures TwoVideoGuard(req, "video1", "video2").Some? ==>
              resp == Aborted(Abort(400, TwoVideoGuard(req, "video1", "video2").value)) &&
              table.tasks == old(table.tasks)
    ensures TwoVideoGuard(req, "video1", "video2").None? && taskId in old(table.tasks) ==>
              resp == Aborted(Abort(500, DuplicateTask)) && table.tasks == old(table.tasks)
    ensures TwoVideoGuard(req, "video1", "video2").None? && taskId !in old(table.tasks) ==>
              table.tasks == CreatedTasks(old(table.tasks), taskId, PendingKwargs(BeatCreatedMessage), now) &&
              resp == CreatedJson(
                Success(Some(Created(taskId, appHost + "/status/" + taskId, appHost + "/status/" + taskId, Stamp(now)))),
                BeatJob(taskId,
                        PipPlanner.Join(tempDir, PipPlanner.Mp4Name("video1_", taskId)),
                        PipPlanner.Join(tempDir, PipPlanner.Mp4Name("video2_", taskId)),
                        FormGet(req, "times")))
  {
    var rejected := TwoVideoGuard(req, "video1", "video2");
    if rejected.Some? {
      return Aborted(Abort(400, rejected.value));
    }
    var times := FormGet(req, "times");
    var created := table.CreateTaskStatus(taskId, PendingKwargs(BeatCreatedMessage), now);
    if !created {
      return Aborted(Abort(500, DuplicateTask));
    }
    var video1Path := PipPlanner.Join(tempDir, PipPlanner.Mp4Name("video1_", taskId));
    var video2Path := PipPlanner.Join(tempDir, PipPlanner.Mp4Name("video2_", taskId));
    var statusUrl := appHost + "/status/" + taskId;
    PendingRow(now, BeatCreatedMessage);
    var view := table.GetTaskStatus(taskId);
    var createdAt := view.value.createdAt;
    resp := CreatedJson(Success(Some(Created(taskId, statusUrl, statusUrl, createdAt))),
                        BeatJob(taskId, video1Path, video2Path, times));
  }

  /** What registering a maozibi task does to the table: a known id is
      refused with 500 and nothing changes; a new id gets a pending row, then
      its status link, and the client is sent to the status page. */
  predicate MaozibiTaskCreated(before: map<string, TaskRecord>, after: map<string, TaskRecord>, taskId: string,
                               tempDir: string, score: Option<string>, now: int, resp: Response)
  {
    && (taskId in before ==> resp == Aborted(Abort(500, DuplicateTask)) && after == before)
    && (taskId !in before ==>
          after == UpdatedTasks(CreatedTasks(before, taskId, PendingKwargs(MaozibiCreatedMessage), now),
                                taskId, [("status_url", Text(PublicHost + "/status/" + taskId))], now) &&
          resp == RedirectTo("/status/" + taskId, MaozibiJobFor(taskId, tempDir, score)))
  }

  /** The shared body of `maozibi_web` and `maobizi_score_web` once the guards
      passed: a pending row, then its public status link, then the job and a
      redirect to the status page. */
  method CreateMaozibiTask(table: TaskTable, taskId: string, tempDir: string, score: Option<string>, now: int)
    returns (resp: Response)
    modifies table
    ensures MaozibiTaskCreated(old(table.tasks), table.tasks, taskId, tempDir, score, now, resp)
  {
    var created := table.CreateTaskStatus(taskId, PendingKwargs(MaozibiCreatedMessage), now);
    if !created {
      return Aborted(Abort(500, DuplicateTask));
    }
    var statusUrl := PublicHost + "/status/" + taskId;
    var _ := table.UpdateTaskStatus(taskId, [("status_url", Text(statusUrl))], now);
    resp := RedirectTo("/status/" + taskId, MaozibiJobFor(taskId, tempDir, score));
  }

  function MaozibiJobFor(taskId: string, tempDir: string, score: Option<string>): Job
  {
    var v0 := PipPlanner.Join(tempDir, PipPlanner.Mp4Name("video0_", taskId));
    var v1 := PipPlanner.Join(tempDir, PipPlanner.Mp4Name("video1_", taskId));
    match score
    case None => MaozibiJob(taskId, v0, v1)
    case Some(s) => MaozibiScoreJob(taskId, v0, v1, s)
  }

  /** `maozibi_web`. */
  method MaozibiWeb(table: TaskTable, req: Request, taskId: string, tempDir: string, now: int) returns (resp: Response)
    modifies table
    ensures TwoVideoGuard(req, "video0", "video1").Some? ==>
              resp == Aborted(Abort(400, TwoVideoGuard(req, "video0", "video1").value)) &&
              table.tasks == old(table.tasks)
    ensures TwoVideoGuard(req, "video0", "video1").None? ==>
              MaozibiTaskCreated(old(table.tasks), table.tasks, taskId, tempDir, None, now, resp)
    ensures TwoVideoGuard(req, "video0", "video1").None? && taskId !in old(table.tasks) ==>
              taskId in table.tasks && table.tasks[taskId].statusUrl == Text(PublicHost + "/status/" + taskId) &&
              table.tasks[taskId].status == Text("pending") && table.tasks[taskId].progress == Number(0) &&
              table.tasks[taskId].createdAt == Stamp(now)
  {
    var rejected := TwoVideoGuard(req, "video0", "video1");
    if rejected.Some? {
      return Aborted(Abort(400, rejected.value));
    }
    resp := CreateMaozibiTask(table, taskId, tempDir, None, now);
    PendingRow(now, MaozibiCreatedMessage);
    if taskId !in old(table.tasks) {
      StatusUrlOnly(Saved(ApplyKwargs(DefaultRecord(now), PendingKwargs(MaozibiCreatedMessage)), now), PublicHost + "/status/" + taskId);
    }
  }

  /** `maobizi_score_web`. */
  method MaobiziScoreWeb(table: TaskTable, req: Request, taskId: string, tempDir: string, now: int) returns (resp: Response)
    modifies table
    ensures ScoreGuard(req).Some? ==>
              resp == Aborted(Abort(400, ScoreGuard(req).value)) && table.tasks == old(table.tasks)
    ensures ScoreGuard(req).None? ==>
              MaozibiTaskCreated(old(table.tasks), table.tasks, taskId, tempDir, Some(ScoreOf(req)), now, resp)
    ensures ScoreGuard(req).None? && taskId !in old(table.tasks) ==>
              taskId in table.tasks && table.tasks[taskId].statusUrl == Text(PublicHost + "/status/" + taskId) &&
              table.tasks[taskId].status == Text("pending") && table.tasks[taskId].progress == Number(0) &&
              table.tasks[taskId].createdAt == Stamp(now)
  {
    var rejected := ScoreGuard(req);
    if rejected.Some? {
      return Aborted(Abort(400, rejected.value));
    }
    resp := CreateMaozibiTask(table, taskId, tempDir, Some(ScoreOf(req)), now);
    PendingRow(now, MaozibiCreatedMessage);
    if taskId !in old(table.tasks) {
      StatusUrlOnly(Saved(ApplyKwargs(DefaultRecord(now), PendingKwargs(MaozibiCreatedMessage)), now), PublicHost + "/status/" + taskId);
    }
  }

  /** `process_single_video_web`: the upload is stored in the output folder
      as `single_video_<id>.<ext>` (extension `mp4` when the name has no
      '.'), and the result page links to it; no task row is written. */
  function ProcessSingleVideoWeb(req: Request, taskId: string, moduleDir: string): (resp: Response)
    ensures SingleVideoGuard(req).Some? <==> resp.Aborted?
    ensures SingleVideoGuard(req).None? <==> resp.SingleVideoResult?
    ensures resp.Aborted? ==> resp.abort == Abort(400, SingleVideoGuard(req).value)
    ensures resp.SingleVideoResult? ==>
              var name := StoredName("single_video_", taskId, ExtensionOf(req.files["video"].filename, "mp4"));
              resp.savedAs == PipPlanner.Join(PipPlanner.OutputDir(moduleDir), name) &&
              resp.videoUrl == PublicHost + "/output/" + name && resp.taskId == taskId
  {
    match SingleVideoGuard(req)
    case Some(reason) => Aborted(Abort(400, reason))
    case None =>
      var name := StoredName("single_video_", taskId, ExtensionOf(req.files["video"].filename, "mp4"));
      SingleVideoResult(taskId, PublicHost + "/output/" + name, PipPlanner.Join(PipPlanner.OutputDir(moduleDir), name))
  }

  // -----------------------------------------------------------------------
  // The image route (`maozibi_img_web`)

  function ImageName(req: Request, taskId: string): string
    requires "image" in req.files
  {
    StoredName("maozibi_img_", taskId, ExtensionOf(req.files["image"].filename, "jpg"))
  }

  /** The answer as written. The empty-data check and the saved-file check
      call `abort` inside the `try`; the `HTTPException` it raises is an
      `Exception`, so the handler's `except` catches it and answers 500. */
  function ImageResponseAsWritten(req: Request, data: seq<byte>, taskId: string, appHost: string, saved: bool): (resp: Response)
    ensures resp.Aborted? && resp.abort.code == 500 <==> ImageGuard(req).None? && (|data| == 0 || !saved)
    ensures resp.Aborted? && resp.abort.code == 400 <==> ImageGuard(req).Some?
    ensures resp.ImageJson? <==> ImageGuard(req).None? && |data| > 0 && saved
    ensures resp.ImageJson? ==>
              resp.receipt.success && resp.receipt.data.Some? &&
              resp.receipt.data.value.imageUrl == appHost + "/output/" + ImageName(req, taskId)
  {
    match ImageGuard(req)
    case Some(reason) => Aborted(Abort(400, reason))
    case None =>
      if |data| == 0 then Aborted(Abort(500, ProcessingFailed))
      else if !saved then Aborted(Abort(500, ProcessingFailed))
      else ImageJson(Success(Some(ImageReceipt(taskId, "图片上传成功，二维码已生成", "completed",
                                               appHost + "/output/" + ImageName(req, taskId)))))
  }

  /** As written, an upload with no bytes is reported as a server failure. */
  lemma ImageEmptyDataAsWritten(req: Request, taskId: string, appHost: string, saved: bool)
    requires ImageGuard(req).None?
    ensures ImageResponseAsWritten(req, [], taskId, appHost, saved) == Aborted(Abort(500, ProcessingFailed))
  {
  }

  /** The intended answer: empty data is the client's fault (400); only a
      failed save is a server error. */
  function ImageResponse(req: Request, data: seq<byte>, taskId: string, appHost: string, saved: bool): (resp: Response)
    ensures resp.Aborted? && resp.abort.code == 500 <==> ImageGuard(req).None? && |data| > 0 && !saved
    ensures resp.Aborted? && resp.abort.code == 400 <==> ImageGuard(req).Some? || |data| == 0
    ensures resp.ImageJson? <==> ImageGuard(req).None? && |data| > 0 && saved
    ensures resp.ImageJson? ==>
              resp.receipt.success && resp.receipt.data.Some? &&
              resp.receipt.data.value.imageUrl == appHost + "/output/" + ImageName(req, taskId)
  {
    match ImageGuard(req)
    case Some(reason) => Aborted(Abort(400, reason))
    case None =>
      if |data| == 0 then Aborted(Abort(400, EmptyImage))
      else if !saved then Aborted(Abort(500, ProcessingFailed))
      else ImageJson(Success(Some(ImageReceipt(taskId, "图片上传成功，二维码已生成", "completed",
                                               appHost + "/output/" + ImageName(req, taskId)))))
  }

  /** The two differ only on empty data. */
  lemma ImageResponsesAgreeOnData(req: Request, data: seq<byte>, taskId: string, appHost: string, saved: bool)
    requires |data| > 0
    ensures ImageResponse(req, data, taskId, appHost, saved) == ImageResponseAsWritten(req, data, taskId, appHost, saved)
  {
  }

  /** The keywords the image route writes; `image_filename` names no column
      and is dropped, and the timestamps are isoformat strings. */
  function ImageKwargs(name: string, isoNow: string): Kwargs
  {
    [("status", Text("completed")), ("message", Text("图片上传并处理完成")), ("progress", Number(100)),
     ("created_at", Text(isoNow)), ("completed_at", Text(isoNow)), ("image_filename", Text(name))]
  }

  /** `maozibi_img_web` as written (empty data answers 500). The row it
      updates was never created, so the table is left as it was unless the
      fresh id happens to name an existing task. */
  method MaozibiImgWeb(table: TaskTable, req: Request, data: seq<byte>, taskId: string, appHost: string,
                       saved: bool, isoNow: string, now: int) returns (resp: Response)
    modifies table
    ensures resp == ImageResponseAsWritten(req, data, taskId, appHost, saved)
    ensures resp.ImageJson? ==>
              table.tasks == UpdatedTasks(old(table.tasks), taskId, ImageKwargs(ImageName(req, taskId), isoNow), now)
    ensures !resp.ImageJson? || taskId !in old(table.tasks) ==> table.tasks == old(table.tasks)
  {
    resp := ImageResponseAsWritten(req, data, taskId, appHost, saved);
    if resp.ImageJson? {
      var _ := table.UpdateTaskStatus(taskId, ImageKwargs(ImageName(req, taskId), isoNow), now);
    }
  }

  // -----------------------------------------------------------------------
  // Status page (`get_task_status_page`)

  /** 404 for an unknown task; otherwise the task's view, as JSON for a POST
      and as the status page for a GET. */
  method GetTaskStatusPage(table: TaskTable, taskId: string, isPost: bool) returns (resp: Response)
    ensures taskId !in table.tasks <==> resp == Aborted(Abort(404, TaskNotFound))
    ensures taskId in table.tasks && isPost ==> resp == StatusJson(Success(Some(ViewOf(table.tasks[taskId]))))
    ensures taskId in table.tasks && !isPost ==> resp == StatusPage(ViewOf(table.tasks[taskId]), taskId)
  {
    var known := table.TaskExists(taskId);
    if !known {
      return Aborted(Abort(404, TaskNotFound));
    }
    var view := table.GetTaskStatus(taskId);
    if isPost {
      resp := StatusJson(Success(Some(view.value)));
    } else {
      resp := StatusPage(view.value, taskId);
    }
  }

  // -----------------------------------------------------------------------
  // Background jobs

  /** The table after a series of `update_task_status` calls on one task. */
  function ApplyUpdates(tasks: map<string, TaskRecord>, taskId: string, updates: seq<Kwargs>, now: int): map<string, TaskRecord>
    decreases |updates|
  {
    if |updates| == 0 then tasks
    else UpdatedTasks(ApplyUpdates(tasks, taskId, updates[..|updates| - 1], now), taskId, updates[|updates| - 1], now)
  }

  /** Updates on one task leave every other task, and the set of tasks, as
      they were; on a task that does not exist they change nothing. */
  lemma {:induction false} ApplyUpdatesFrame(tasks: map<string, TaskRecord>, taskId: string, updates: seq<Kwargs>, now: int)
    ensures ApplyUpdates(tasks, taskId, updates, now).Keys == tasks.Keys
    ensures forall other :: other in tasks && other != taskId ==> ApplyUpdates(tasks, taskId, updates, now)[other] == tasks[other]
    ensures taskId !in tasks ==> ApplyUpdates(tasks, taskId, updates, now) == tasks
    decreases |updates|
  {
    if |updates| > 0 {
      ApplyUpdatesFrame(tasks, taskId, updates[..|updates| - 1], now);
    }
  }

  /** After one more update a field holds the value that update gives it, or
      keeps the value it had. */
  lemma LastUpdateField(tasks: map<string, TaskRecord>, taskId: string, updates: seq<Kwargs>, u: Kwargs, now: int, f: Field)
    requires taskId in tasks && f != UpdatedAt
    ensures taskId in ApplyUpdates(tasks, taskId, updates + [u], now)
    ensures taskId in ApplyUpdates(tasks, taskId, updates, now)
    ensures FieldOf(ApplyUpdates(tasks, taskId, updates + [u], now)[taskId], f) ==
            match LastAssigned(u, f)
            case Some(v) => v
            case None => FieldOf(ApplyUpdates(tasks, taskId, updates, now)[taskId], f)
  {
    ApplyUpdatesFrame(tasks, taskId, updates, now);
    assert (updates + [u])[..|updates|] == updates;
    ApplyKwargsField(ApplyUpdates(tasks, taskId, updates, now)[taskId], u, f);
  }

  function ProcessingKwargs(message: string): Kwargs
  {
    [("status", Text("processing")), ("message", Text(message)), ("progress", Number(20))]
  }

  function ProgressKwargs(progress: int, message: string): Kwargs
  {
    [("progress", Number(progress)), ("message", Text(message))]
  }

  function CompletedKwargs(message: string, filename: string, url: string, now: int): Kwargs
  {
    [("status", Text("completed")), ("message", Text(message)), ("progress", Number(100)),
     ("video_filename", Text(filename)), ("video_url", Text(url)), ("completed_at", Stamp(now))]
  }

  function FailedKwargs(error: string): Kwargs
  {
    [("status", Text("error")), ("message", Text("处理失败: " + error)), ("progress", Number(0))]
  }

  const FfmpegMissingKwargs: Kwargs := [("status", Text("error")), ("message", Text("FFmpeg未安装或不可用"))]

  /** What the completion update assigns. */
  lemma CompletedAssigns(u: Kwargs, message: string, filename: string, url: string, now: int)
    requires u == CompletedKwargs(message, filename, url, now)
    ensures LastAssigned(u, Status) == Some(Text("completed"))
    ensures LastAssigned(u, Progress) == Some(Number(100))
    ensures LastAssigned(u, VideoFilename) == Some(Text(filename))
    ensures LastAssigned(u, VideoUrl) == Some(Text(url))
    ensures LastAssigned(u, CompletedAt) == Some(Stamp(now))
  {
    LastAssignedAt(u, Status, 0);
    LastAssignedAt(u, Progress, 2);
    LastAssignedAt(u, VideoFilename, 3);
    LastAssignedAt(u, VideoUrl, 4);
    LastAssignedAt(u, CompletedAt, 5);
  }

  /** What the failure update assigns. */
  lemma FailedAssigns(u: Kwargs, error: string)
    requires u == FailedKwargs(error)
    ensures LastAssigned(u, Status) == Some(Text("error"))
    ensures LastAssigned(u, Progress) == Some(Number(0))
  {
    LastAssignedAt(u, Status, 0);
    LastAssignedAt(u, Progress, 2);
  }

  /** The beat times the job hands to the planner. The form field arrives as
      a string (or None): None means the default beats 1 to 6; a string is
      iterated character by character, and comparing its first character
      with the clip duration raises TypeError, so only the empty string gets
      through, as an empty beat list. The planner opens both clips before
      it reaches the beats, so when a clip fails to load the job fails with
      the engine's message instead, whatever the field holds. */
  function BeatTimesFor(times: Option<string>): Result<seq<real>, string>
  {
    match times
    case None => Ok([1.0, 2.0, 3.0, 4.0, 5.0, 6.0])
    case Some(s) => if |s| == 0 then Ok([]) else Err(StrFloatTypeError)
  }

  /** The intended reading of the form field: comma-separated seconds, whole
      or with a decimal fraction ("0,4.5,19"); None still means the default beats and the empty string no
      beats; anything else that is not such a list is refused. */
  function BeatTimesIntended(times: Option<string>): Result<seq<real>, string>
  {
    match times
    case None => Ok([1.0, 2.0, 3.0, 4.0, 5.0, 6.0])
    case Some(s) =>
      if |s| == 0 then Ok([])
      else match SecondsOf(PipPlanner.Split(s, ','))
        case Some(ts) => Ok(ts)
        case None => Err(BadBeatTimes)
  }

  const BadBeatTimes: string := "beat times must be comma-separated seconds"

  function Pow10(n: nat): (r: nat)
    ensures r >= 1
  {
    if n == 0 then 1 else 10 * Pow10(n - 1)
  }

  /** One piece as seconds: digits, or digits '.' digits. */
  function SecondsOfPiece(p: string): Option<real>
  {
    if |p| > 0 && AllDigits(p) then Some(DigitsValue(p) as real)
    else if '.' in p then
      var i := PipPlanner.FirstIndexOf(p, '.');
      var whole := p[..i];
      var fraction := p[i + 1..];
      if |whole| > 0 && |fraction| > 0 && AllDigits(whole) && AllDigits(fraction) then
        Some(DigitsValue(whole) as real + (DigitsValue(fraction) as real) / (Pow10(|fraction|) as real))
      else None
    else None
  }

  /** Every piece read as seconds, in order. */
  function SecondsOf(pieces: seq<string>): Option<seq<real>>
    decreases |pieces|
  {
    if |pieces| == 0 then Some([])
    else
      match SecondsOfPiece(pieces[0])
      case None => None
      case Some(t) =>
        match SecondsOf(pieces[1..])
        case None => None
        case Some(rest) => Some([t] + rest)
  }

  /** How a client writes whole-second beats into the field. */
  function TimesText(xs: seq<nat>): string
    decreases |xs|
  {
    if |xs| == 0 then ""
    else if |xs| == 1 then DecimalString(xs[0])
    else DecimalString(xs[0]) + [','] + TimesText(xs[1..])
  }

  function AsReals(xs: seq<nat>): (r: seq<real>)
    ensures |r| == |xs| && forall i :: 0 <= i < |xs| ==> r[i] == xs[i] as real
    decreases |xs|
  {
    if |xs| == 0 then [] else [xs[0] as real] + AsReals(xs[1..])
  }

  lemma {:induction false} SecondsOfTimesText(xs: seq<nat>)
    requires |xs| > 0
    ensures SecondsOf(PipPlanner.Split(TimesText(xs), ',')) == Some(AsReals(xs))
    decreases |xs|
  {
    var d := DecimalString(xs[0]);
    DigitsValueOfDecimal(xs[0]);
    assert SecondsOfPiece(d) == Some(xs[0] as real);
    assert ',' !in d by {
      forall i | 0 <= i < |d| ensures d[i] != ',' { }
    }
    if |xs| == 1 {
      assert PipPlanner.Split(d, ',') == [d];
      assert PipPlanner.Split(d, ',')[1..] == [];
    } else {
      PipPlanner.SplitAfter(d, ',', TimesText(xs[1..]));
      SecondsOfTimesText(xs[1..]);
      var pieces := PipPlanner.Split(TimesText(xs), ',');
      assert pieces[0] == d && pieces[1..] == PipPlanner.Split(TimesText(xs[1..]), ',');
    }
  }

  /** Whole-second beats written as the client writes them are read back as
      the same beats. */
  lemma BeatTimesRoundTrip(xs: seq<nat>)
    requires |xs| > 0
    ensures BeatTimesIntended(Some(TimesText(xs))) == Ok(AsReals(xs))
  {
    assert |TimesText(xs)| > 0 by {
      DigitsValueOfDecimal(xs[0]);
    }
    SecondsOfTimesText(xs);
  }

  /** The field "1,2,3" fails the job as written but gives beats 1, 2, 3 as
      intended. */
  lemma BeatTimesTextRejected()
    ensures BeatTimesFor(Some("1,2,3")).Err?
    ensures BeatTimesIntended(Some("1,2,3")) == Ok([1.0, 2.0, 3.0])
  {
    assert TimesText([1, 2, 3]) == "1,2,3";
    BeatTimesRoundTrip([1, 2, 3]);
    var r := AsReals([1, 2, 3]);
    assert r[0] == 1.0 && r[1] == 2.0 && r[2] == 3.0;
    assert r == [1.0, 2.0, 3.0];
  }

  lemma SplitThree(a: string, b: string, c: string)
    requires ',' !in a && ',' !in b && ',' !in c
    ensures PipPlanner.Split(a + [','] + b + [','] + c, ',') == [a, b, c]
  {
    assert a + [','] + b + [','] + c == a + [','] + (b + [','] + c);
    PipPlanner.SplitAfter(a, ',', b + [','] + c);
    PipPlanner.SplitAfter(b, ',', c);
  }

  lemma SecondsOfThree(a: string, b: string, c: string)
    requires SecondsOfPiece(a).Some? && SecondsOfPiece(b).Some? && SecondsOfPiece(c).Some?
    ensures SecondsOf([a, b, c]) == Some([SecondsOfPiece(a).value, SecondsOfPiece(b).value, SecondsOfPiece(c).value])
  {
    var ta, tb, tc := SecondsOfPiece(a).value, SecondsOfPiece(b).value, SecondsOfPiece(c).value;
    SecondsOfCons(c, []);
    assert [c] + [] == [c];
    SecondsOfCons(b, [c]);
    assert [b] + [c] == [b, c];
    SecondsOfCons(a, [b, c]);
    assert [a] + [b, c] == [a, b, c];
    assert [ta] + ([tb] + ([tc] + [])) == [ta, tb, tc];
  }

  lemma SecondsOfCons(p: string, rest: seq<string>)
    ensures SecondsOf([p] + rest) ==
            if SecondsOfPiece(p).Some? && SecondsOf(rest).Some? then Some([SecondsOfPiece(p).value] + SecondsOf(rest).value)
            else None
  {
    assert ([p] + rest)[0] == p && ([p] + rest)[1..] == rest;
  }

  /** Three pieces joined by commas are read piece by piece. */
  lemma ThreePieces(a: string, b: string, c: string)
    requires ',' !in a && ',' !in b && ',' !in c
    requires SecondsOfPiece(a).Some? && SecondsOfPiece(b).Some? && SecondsOfPiece(c).Some?
    ensures BeatTimesIntended(Some(a + [','] + b + [','] + c)) ==
            Ok([SecondsOfPiece(a).value, SecondsOfPiece(b).value, SecondsOfPiece(c).value])
  {
    SplitThree(a, b, c);
    SecondsOfThree(a, b, c);
  }

  /** Fractional beats, as in the planner's own example list, are read as
      written. */
  lemma BeatTimesFractionExample()
    ensures BeatTimesIntended(Some("0.0,4.5,19")) == Ok([0.0, 4.5, 19.0])
  {
    ExamplePieces();
    ThreePieces("0.0", "4.5", "19");
    assert "0.0" + [','] + "4.5" + [','] + "19" == "0.0,4.5,19";
  }

  lemma ExamplePieces()
    ensures SecondsOfPiece("0.0") == Some(0.0)
    ensures SecondsOfPiece("4.5") == Some(4.5)
    ensures SecondsOfPiece("19") == Some(19.0)
  {
    assert PipPlanner.FirstIndexOf("0.0", '.') == 1;
    assert PipPlanner.FirstIndexOf("4.5", '.') == 1;
    assert "0.0"[..1] == "0" && "0.0"[2..] == "0";
    assert "4.5"[..1] == "4" && "4.5"[2..] == "5";
    assert DigitsValue("0") == 0 && DigitsValue("4") == 4 && DigitsValue("5") == 5;
    assert "19"[..1] == "1" && DigitsValue("19") == 19;
  }

  /** The text of the TypeError Python raises for `str >= float`. */
  const StrFloatTypeError: string := "'>=' not supported between instances of 'str' and 'float'"

  function BeatOutputName(taskId: string): string
  {
    "processed_video_" + taskId + ".mp4"
  }

  /** The updates `process_videos_background` writes: processing at 20,
      analysing at 40, then either 80 and completed at 100 with the file name
      and its link, or error with progress 0. */
  function BeatJobUpdates(taskId: string, ok: bool, error: string, now: int): seq<Kwargs>
  {
    [ProcessingKwargs("正在处理视频..."), ProgressKwargs(40, "正在分析视频...")] +
    if ok then
      [ProgressKwargs(80, "正在生成最终文件..."),
       CompletedKwargs("视频处理完成", BeatOutputName(taskId), "/output/" + BeatOutputName(taskId), now)]
    else [FailedKwargs(error)]
  }

  /** `process_videos_background(task_id, video1_path, video2_path,
      beat_times)`. The two uploaded clips are given as the engine opened
      them; the render writes `output/processed_video_<id>.mp4` at speed 5
      with the music file "jiggy boogy.mp3" looked up in the working
      directory. The job succeeds exactly when the beat times are usable and
      the engine writes the silent video; a mux failure does not fail it.
      Loading the clips, which comes before the beat loop, is folded into
      `encodeOk`: its failure reports `encodeError` even when the beat times
      would also have failed. */
  method ProcessVideosBackground(table: TaskTable, taskId: string, first: Clip, second: Clip, times: Option<string>,
                                 moduleDir: string, files: set<string>, encodeOk: bool, encodeError: string,
                                 run: BeatVideo.RunResult, now: int)
    modifies table
    requires second.duration >= 0.0
    ensures table.tasks == ApplyUpdates(old(table.tasks), taskId,
              BeatJobUpdates(taskId, BeatTimesFor(times).Ok? && encodeOk,
                             if BeatTimesFor(times).Err? then BeatTimesFor(times).error else encodeError, now), now)
  {
    ghost var start := table.tasks;
    var _ := table.UpdateTaskStatus(taskId, ProcessingKwargs("正在处理视频..."), now);
    var outputName := "processed_video_" + taskId + ".mp4";
    var outputPath := "output/" + outputName;
    var videoUrl := "/output/" + outputName;
    var _ := table.UpdateTaskStatus(taskId, ProgressKwargs(40, "正在分析视频..."), now);
    var beats := BeatTimesFor(times);
    ghost var ups := [ProcessingKwargs("正在处理视频..."), ProgressKwargs(40, "正在分析视频...")];
    assert table.tasks == ApplyUpdates(start, taskId, ups, now) by {
      assert ups[..1] == [ProcessingKwargs("正在处理视频...")];
      assert ups[..1][..0] == [];
    }
    if beats.Err? {
      var _ := table.UpdateTaskStatus(taskId, FailedKwargs(beats.error), now);
      assert (ups + [FailedKwargs(beats.error)])[..2] == ups;
      return;
    }
    var render := BeatVideo.CreateBeatVideo(first, second, beats.value, outputPath, 5.0,
                                            Some("jiggy boogy.mp3"), moduleDir, files, encodeOk, run);
    if render.Err? {
      var _ := table.UpdateTaskStatus(taskId, FailedKwargs(encodeError), now);
      assert (ups + [FailedKwargs(encodeError)])[..2] == ups;
      return;
    }
    var _ := table.UpdateTaskStatus(taskId, ProgressKwargs(80, "正在生成最终文件..."), now);
    var _ := table.UpdateTaskStatus(taskId, CompletedKwargs("视频处理完成", outputName, videoUrl, now), now);
    ghost var all := ups + [ProgressKwargs(80, "正在生成最终文件..."), CompletedKwargs("视频处理完成", outputName, videoUrl, now)];
    assert all[..3] == ups + [ProgressKwargs(80, "正在生成最终文件...")];
    assert all[..3][..2] == ups;
  }

  /** The final row of the beat job: completed at 100 with the output's name
      and link when it succeeds, error at 0 otherwise. */
  lemma BeatJobOutcome(tasks: map<string, TaskRecord>, taskId: string, ok: bool, error: string, now: int)
    requires taskId in tasks
    ensures var t := ApplyUpdates(tasks, taskId, BeatJobUpdates(taskId, ok, error, now), now);
      && taskId in t
      && (ok ==> t[taskId].status == Text("completed") && t[taskId].progress == Number(100) &&
                 t[taskId].videoFilename == Text(BeatOutputName(taskId)) &&
                 t[taskId].videoUrl == Text("/output/" + BeatOutputName(taskId)) &&
                 t[taskId].completedAt == Stamp(now))
      && (!ok ==> t[taskId].status == Text("error") && t[taskId].progress == Number(0))
  {
    var ups := BeatJobUpdates(taskId, ok, error, now);
    var init := ups[..|ups| - 1];
    var u := ups[|ups| - 1];
    assert ups == init + [u];
    LastUpdateField(tasks, taskId, init, u, now, Status);
    LastUpdateField(tasks, taskId, init, u, now, Progress);
    if ok {
      LastUpdateField(tasks, taskId, init, u, now, VideoFilename);
      LastUpdateField(tasks, taskId, init, u, now, VideoUrl);
      LastUpdateField(tasks, taskId, init, u, now, CompletedAt);
      CompletedAssigns(u, "视频处理完成", BeatOutputName(taskId), "/output/" + BeatOutputName(taskId), now);
    } else {
      FailedAssigns(u, error);
    }
  }

  /** The updates a maozibi job writes (`process_maozibi_background`,
      `process_maozibi_score_background`). A missing ffmpeg stops the job
      right after the first update with status error, without touching the
      progress. */
  function MaozibiJobUpdates(ffmpegOk: bool, ok: bool, kind: string, outputName: string,
                             error: string, now: int): seq<Kwargs>
  {
    [ProcessingKwargs("正在处理" + kind + "视频...")] +
    if !ffmpegOk then [FfmpegMissingKwargs]
    else
      [ProgressKwargs(40, "正在分析视频...")] +
      if ok then
        [ProgressKwargs(80, "正在生成最终文件..."),
         CompletedKwargs(kind + "视频处理完成", outputName, PublicHost + "/output/" + outputName, now)]
      else [FailedKwargs(error)]
  }

  /** Without ffmpeg the row ends in status error with progress still at 20,
      unlike every other failure, which resets it to 0. */
  lemma MaozibiFfmpegMissingKeepsProgress(tasks: map<string, TaskRecord>, taskId: string, ok: bool,
                                          kind: string, outputName: string, error: string, now: int)
    requires taskId in tasks
    ensures var t := ApplyUpdates(tasks, taskId, MaozibiJobUpdates(false, ok, kind, outputName, error, now), now);
      taskId in t && t[taskId].status == Text("error") && t[taskId].progress == Number(20)
  {
    var ups := MaozibiJobUpdates(false, ok, kind, outputName, error, now);
    assert ups == [ProcessingKwargs("正在处理" + kind + "视频...")] + [FfmpegMissingKwargs];
    LastUpdateField(tasks, taskId, [ProcessingKwargs("正在处理" + kind + "视频...")], FfmpegMissingKwargs, now, Status);
    LastUpdateField(tasks, taskId, [ProcessingKwargs("正在处理" + kind + "视频...")], FfmpegMissingKwargs, now, Progress);
    assert [ProcessingKwargs("正在处理" + kind + "视频...")] == [] + [ProcessingKwargs("正在处理" + kind + "视频...")];
    LastUpdateField(tasks, taskId, [], ProcessingKwargs("正在处理" + kind + "视频..."), now, Progress);
  }

  /** With ffmpeg present a maozibi row ends completed at 100 with the link
      under the public host, or error at 0. */
  lemma MaozibiJobOutcome(tasks: map<string, TaskRecord>, taskId: string, ok: bool,
                          kind: string, outputName: string, error: string, now: int)
    requires taskId in tasks
    ensures var t := ApplyUpdates(tasks, taskId, MaozibiJobUpdates(true, ok, kind, outputName, error, now), now);
      && taskId in t
      && (ok ==> t[taskId].status == Text("completed") && t[taskId].progress == Number(100) &&
                 t[taskId].videoUrl == Text(PublicHost + "/output/" + outputName))
      && (!ok ==> t[taskId].status == Text("error") && t[taskId].progress == Number(0))
  {
    var ups := MaozibiJobUpdates(true, ok, kind, outputName, error, now);
    var init := ups[..|ups| - 1];
    var u := ups[|ups| - 1];
    assert ups == init + [u];
    LastUpdateField(tasks, taskId, init, u, now, Status);
    LastUpdateField(tasks, taskId, init, u, now, Progress);
    if ok {
      LastUpdateField(tasks, taskId, init, u, now, VideoUrl);
      CompletedAssigns(u, kind + "视频处理完成", outputName, PublicHost + "/output/" + outputName, now);
    } else {
      FailedAssigns(u, error);
    }
  }

  /** A maozibi job (`process_maozibi_background` when `score` is None,
      `process_maozibi_score_background` otherwise). `ffmpegOk` is the
      ffmpeg probe, `video0`/`video1` the bytes read back from the uploads,
      `jobId` the id the planner draws for its own files, and the remaining
      parameters what the engine reports, as in `PipPlanner`. */
  method MaozibiBackground(table: TaskTable, taskId: string, score: Option<string>, ffmpegOk: bool,
                           video0: seq<byte>, video1: seq<byte>, tempDir: string, jobId: string, moduleDir: string,
                           d0: real, d1: real, mainWidth: nat, mainHeight: nat,
                           musicExists: bool, engineOk: bool, pipError: string, now: int)
    modifies table
    ensures var ok := |video0| > 0 && |video1| > 0 && (score.None? || !IsBlank(score.value)) && engineOk && musicExists;
      table.tasks == ApplyUpdates(old(table.tasks), taskId,
                       MaozibiJobUpdates(ffmpegOk, ok, LabelOf(score), OutputNameOf(score, jobId), pipError, now), now)
  {
    ghost var start := table.tasks;
    var kind := LabelOf(score);
    var _ := table.UpdateTaskStatus(taskId, ProcessingKwargs("正在处理" + kind + "视频..."), now);
    ghost var first := [ProcessingKwargs("正在处理" + kind + "视频...")];
    assert table.tasks == ApplyUpdates(start, taskId, first, now) by {
      assert first[..0] == [];
    }
    if !ffmpegOk {
      var _ := table.UpdateTaskStatus(taskId, FfmpegMissingKwargs, now);
      assert (first + [FfmpegMissingKwargs])[..1] == first;
      return;
    }
    var _ := table.UpdateTaskStatus(taskId, ProgressKwargs(40, "正在分析视频..."), now);
    ghost var ups := first + [ProgressKwargs(40, "正在分析视频...")];
    assert ups[..1] == first;
    var processor := new PipPlanner.VideoProcessor(tempDir);
    var job;
    if score.None? {
      job := processor.ProcessMaozibiVideos(video0, video1, jobId, moduleDir, d0, d1, mainWidth, mainHeight, musicExists, engineOk);
    } else {
      job := processor.ProcessMaozibiScoreVideos(video0, video1, score.value, jobId, moduleDir, d0, d1,
                                                 mainWidth, mainHeight, musicExists, engineOk);
    }
    if job.result.Err? {
      var _ := table.UpdateTaskStatus(taskId, FailedKwargs(pipError), now);
      assert (ups + [FailedKwargs(pipError)])[..2] == ups;
      assert MaozibiJobUpdates(true, false, kind, OutputNameOf(score, jobId), pipError, now) == ups + [FailedKwargs(pipError)];
      return;
    }
    var outputName := job.result.value.outputName;
    assert table.tasks == ApplyUpdates(start, taskId, ups, now);
    var _ := table.UpdateTaskStatus(taskId, ProgressKwargs(80, "正在生成最终文件..."), now);
    ghost var ups3 := ups + [ProgressKwargs(80, "正在生成最终文件...")];
    assert ups3[..2] == ups;
    assert table.tasks == ApplyUpdates(start, taskId, ups3, now);
    var videoUrl := PublicHost + "/output/" + outputName;
    var _ := table.UpdateTaskStatus(taskId, CompletedKwargs(kind + "视频处理完成", outputName, videoUrl, now), now);
    ghost var all := ups + [ProgressKwargs(80, "正在生成最终文件..."), CompletedKwargs(kind + "视频处理完成", outputName, videoUrl, now)];
    assert all[..3] == ups + [ProgressKwargs(80, "正在生成最终文件...")];
    assert all[..3][..2] == ups;
    assert table.tasks == ApplyUpdates(start, taskId, all, now);
    assert |video0| > 0 && |video1| > 0 && (score.None? || !IsBlank(score.value)) && engineOk && musicExists;
    assert outputName == OutputNameOf(score, jobId);
    assert MaozibiJobUpdates(true, true, kind, outputName, pipError, now) == all;
  }

  function LabelOf(score: Option<string>): string
  {
    if score.None? then "maozibi" else "maozibi_score"
  }

  function OutputNameOf(score: Option<string>, jobId: string): string
  {
    PipPlanner.Mp4Name(if score.None? then "maozibi_" else "maozibi_score_", jobId)
  }
}
