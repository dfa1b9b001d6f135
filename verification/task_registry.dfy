/** The job-status table (`TaskStatus` in database.py): one row per task id,
    created when a request is accepted and updated by the background job at
    fixed checkpoints. The SQLite/peewee storage is modelled as a map from
    task id to the row's fields. */
module TaskRegistry {
  import opened Common

  /** A Python value stored in a row field. Timestamps (`datetime.now()`)
      are abstract clock readings. */
  datatype Value = Text(s: string) | Number(n: int) | Stamp(t: int) | Null

  /** Python truthiness of a stored value. */
  predicate Truthy(v: Value)
  {
    match v
    case Text(s) => s != ""
    case Number(n) => n != 0
    case Stamp(_) => true
    case Null => false
  }

  /** The row fields a keyword argument can name. */
  datatype Field =
    | Status | Message | Progress | CreatedAt | CompletedAt
    | VideoFilename | VideoUrl | StatusUrl | UpdatedAt

  /** The model attribute a keyword names, if any (`hasattr(task, key)`). */
  function FieldNamed(key: string): (f: Option<Field>)
    ensures f == Some(Status) <==> key == "status"
    ensures f == Some(Message) <==> key == "message"
    ensures f == Some(Progress) <==> key == "progress"
    ensures f == Some(CreatedAt) <==> key == "created_at"
    ensures f == Some(CompletedAt) <==> key == "completed_at"
    ensures f == Some(VideoFilename) <==> key == "video_filename"
    ensures f == Some(VideoUrl) <==> key == "video_url"
    ensures f == Some(StatusUrl) <==> key == "status_url"
    ensures f == Some(UpdatedAt) <==> key == "updated_at"
  {
    match key
    case "status" => Some(Status)
    case "message" => Some(Message)
    case "progress" => Some(Progress)
    case "created_at" => Some(CreatedAt)
    case "completed_at" => Some(CompletedAt)
    case "video_filename" => Some(VideoFilename)
    case "video_url" => Some(VideoUrl)
    case "status_url" => Some(StatusUrl)
    case "updated_at" => Some(UpdatedAt)
    case _ => None
  }

  datatype TaskRecord = TaskRecord(
    status: Value, message: Value, progress: Value,
    createdAt: Value, completedAt: Value,
    videoFilename: Value, videoUrl: Value, statusUrl: Value,
    updatedAt: Value)

  function FieldOf(r: TaskRecord, f: Field): Value
  {
    match f
    case Status => r.status
    case Message => r.message
    case Progress => r.progress
    case CreatedAt => r.createdAt
    case CompletedAt => r.completedAt
    case VideoFilename => r.videoFilename
    case VideoUrl => r.videoUrl
    case StatusUrl => r.statusUrl
    case UpdatedAt => r.updatedAt
  }

  /** `setattr(task, f, v)` on a known field. */
  function WithField(r: TaskRecord, f: Field, v: Value): (r': TaskRecord)
    ensures forall g :: FieldOf(r', g) == if g == f then v else FieldOf(r, g)
  {
    match f
    case Status => r.(status := v)
    case Message => r.(message := v)
    case Progress => r.(progress := v)
    case CreatedAt => r.(createdAt := v)
    case CompletedAt => r.(completedAt := v)
    case VideoFilename => r.(videoFilename := v)
    case VideoUrl => r.(videoUrl := v)
    case StatusUrl => r.(statusUrl := v)
    case UpdatedAt => r.(updatedAt := v)
  }

  /** Keyword arguments, in the order the caller wrote them. */
  type Kwargs = seq<(string, Value)>

  /** One step of `for key, value in kwargs.items(): if hasattr(task, key):
      setattr(task, key, value)`. */
  function SetAttr(r: TaskRecord, kv: (string, Value)): TaskRecord
  {
    match FieldNamed(kv.0)
    case Some(f) => WithField(r, f, kv.1)
    case None => r
  }

  /** The whole keyword loop, left to right. */
  function ApplyKwargs(r: TaskRecord, kw: Kwargs): TaskRecord
    decreases |kw|
  {
    if |kw| == 0 then r else SetAttr(ApplyKwargs(r, kw[..|kw| - 1]), kw[|kw| - 1])
  }

  /** The value the last keyword naming `f` carries, if any keyword does. */
  function LastAssigned(kw: Kwargs, f: Field): Option<Value>
    decreases |kw|
  {
    if |kw| == 0 then None
    else if FieldNamed(kw[|kw| - 1].0) == Some(f) then Some(kw[|kw| - 1].1)
    else LastAssigned(kw[..|kw| - 1], f)
  }

  /** The keyword at `i` is the last one naming `f`, so its value is the one
      assigned. */
  lemma {:induction false} LastAssignedAt(kw: Kwargs, f: Field, i: nat)
    requires i < |kw| && FieldNamed(kw[i].0) == Some(f)
    requires forall j :: i < j < |kw| ==> FieldNamed(kw[j].0) != Some(f)
    ensures LastAssigned(kw, f) == Some(kw[i].1)
    decreases |kw|
  {
    if i < |kw| - 1 {
      LastAssignedAt(kw[..|kw| - 1], f, i);
    }
  }

  /** No keyword names `f`. */
  lemma {:induction false} LastAssignedNone(kw: Kwargs, f: Field)
    requires forall j :: 0 <= j < |kw| ==> FieldNamed(kw[j].0) != Some(f)
    ensures LastAssigned(kw, f) == None
    decreases |kw|
  {
    if |kw| > 0 {
      LastAssignedNone(kw[..|kw| - 1], f);
    }
  }

  /** The update loop changes a field only when some keyword names it, and
      then to the value of the last such keyword; keywords that name no field
      are ignored. */
  lemma {:induction false} ApplyKwargsField(r: TaskRecord, kw: Kwargs, f: Field)
    ensures FieldOf(ApplyKwargs(r, kw), f) ==
            match LastAssigned(kw, f) case Some(v) => v case None => FieldOf(r, f)
    decreases |kw|
  {
    if |kw| > 0 {
      ApplyKwargsField(r, kw[..|kw| - 1], f);
    }
  }

  /** `BaseModel.save()` stamps `updated_at` before writing. */
  function Saved(r: TaskRecord, now: int): TaskRecord
  {
    r.(updatedAt := Stamp(now))
  }

  /** A row built from the column defaults: status 'pending', empty message,
      progress 0, nullable columns null, both timestamps `now`. */
  function DefaultRecord(now: int): TaskRecord
  {
    TaskRecord(Text("pending"), Text(""), Number(0), Stamp(now), Null, Null, Null, Null, Stamp(now))
  }

  /** `create_task_status`: the defaults overridden by the keywords, then
      saved; a task id already present violates the unique index and the
      table is left as it was. */
  function CreatedTasks(tasks: map<string, TaskRecord>, taskId: string, kw: Kwargs, now: int): map<string, TaskRecord>
  {
    if taskId in tasks then tasks
    else tasks[taskId := Saved(ApplyKwargs(DefaultRecord(now), kw), now)]
  }

  /** `update_task_status` on the table: the named row gets the keywords and
      a fresh `updated_at`; an unknown id changes nothing. */
  function UpdatedTasks(tasks: map<string, TaskRecord>, taskId: string, kw: Kwargs, now: int): map<string, TaskRecord>
  {
    if taskId in tasks then tasks[taskId := Saved(ApplyKwargs(tasks[taskId], kw), now)] else tasks
  }

  /** A created row holds the defaults for every field no keyword names. */
  lemma CreateDefaults(tasks: map<string, TaskRecord>, taskId: string, kw: Kwargs, now: int, f: Field)
    requires taskId !in tasks && f != UpdatedAt && LastAssigned(kw, f) == None
    ensures taskId in CreatedTasks(tasks, taskId, kw, now)
    ensures FieldOf(CreatedTasks(tasks, taskId, kw, now)[taskId], f) == FieldOf(DefaultRecord(now), f)
  {
    ApplyKwargsField(DefaultRecord(now), kw, f);
  }

  /** An update touches only its own row, and in that row only the fields
      its keywords name (plus `updated_at`). */
  lemma UpdateFrame(tasks: map<string, TaskRecord>, taskId: string, kw: Kwargs, now: int, other: string, f: Field)
    requires other in tasks
    requires other != taskId || (f != UpdatedAt && LastAssigned(kw, f) == None)
    ensures other in UpdatedTasks(tasks, taskId, kw, now)
    ensures FieldOf(UpdatedTasks(tasks, taskId, kw, now)[other], f) == FieldOf(tasks[other], f)
  {
    if other == taskId {
      ApplyKwargsField(tasks[taskId], kw, f);
    }
  }

  /** What `get_task_status` returns for a row. `created_at` and
      `completed_at` are rendered with isoformat(), which the model leaves
      abstract; a falsy `completed_at` is reported as None. */
  datatype TaskView = TaskView(
    status: Value, message: Value, progress: Value,
    createdAt: Value, completedAt: Value,
    videoFilename: Value, videoUrl: Value, statusUrl: Value)

  function ViewOf(r: TaskRecord): (v: TaskView)
    ensures v.completedAt == Null <==> !Truthy(r.completedAt)
    ensures v.status == r.status && v.progress == r.progress && v.message == r.message
  {
    TaskView(r.status, r.message, r.progress, r.createdAt,
             if Truthy(r.completedAt) then r.completedAt else Null,
             r.videoFilename, r.videoUrl, r.statusUrl)
  }

  /** The table itself. */
  class TaskTable {
    var tasks: map<string, TaskRecord>

    constructor ()
      ensures tasks == map[]
    {
      tasks := map[];
    }

    /** `TaskStatus.create_task_status(task_id, **kwargs)`. */
    method CreateTaskStatus(taskId: string, kwargs: Kwargs, now: int) returns (created: bool)
      modifies this
      ensures created <==> taskId !in old(tasks)
      ensures tasks == CreatedTasks(old(tasks), taskId, kwargs, now)
    {
      created := taskId !in tasks;
      if created {
        var row := DefaultRecord(now);
        var i := 0;
        while i < |kwargs|
          invariant 0 <= i <= |kwargs|
          invariant row == ApplyKwargs(DefaultRecord(now), kwargs[..i])
        {
          assert kwargs[..i + 1][..i] == kwargs[..i];
          row := SetAttr(row, kwargs[i]);
          i := i + 1;
        }
        assert kwargs[..i] == kwargs;
        tasks := tasks[taskId := Saved(row, now)];
      }
    }

    /** `TaskStatus.get_task_status(task_id)`: None for an unknown id. */
    method GetTaskStatus(taskId: string) returns (view: Option<TaskView>)
      ensures view.Some? <==> taskId in tasks
      ensures view.Some? ==> view.value == ViewOf(tasks[taskId])
    {
      if taskId in tasks {
        view := Some(ViewOf(tasks[taskId]));
      } else {
        view := None;
      }
    }

    /** `TaskStatus.update_task_status(task_id, **kwargs)`: True and the row
        updated when the id exists, False and nothing changed otherwise. */
    method UpdateTaskStatus(taskId: string, kwargs: Kwargs, now: int) returns (found: bool)
      modifies this
      ensures found <==> taskId in old(tasks)
      ensures tasks == UpdatedTasks(old(tasks), taskId, kwargs, now)
    {
      if taskId !in tasks {
        return false;
      }
      var row := tasks[taskId];
      var i := 0;
      while i < |kwargs|
        invariant 0 <= i <= |kwargs|
        invariant row == ApplyKwargs(tasks[taskId], kwargs[..i])
      {
        assert kwargs[..i + 1][..i] == kwargs[..i];
        row := SetAttr(row, kwargs[i]);
        i := i + 1;
      }
      assert kwargs[..i] == kwargs;
      tasks := tasks[taskId := Saved(row, now)];
      found := true;
    }

    /** `TaskStatus.task_exists(task_id)`. */
    method TaskExists(taskId: string) returns (b: bool)
      ensures b <==> taskId in tasks
    {
      b := taskId in tasks;
    }
  }
}
