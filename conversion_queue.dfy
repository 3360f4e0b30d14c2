/** The server side of the converter: uploaded files become conversion tasks
    in a first-in first-out queue served by one worker with a single working
    slot; clients read a task's status and the queue's state. */
module ConversionQueue {
  import opened Wire
  import Text
  import WinPath

  datatype TaskStatus = Queued | Processing | Completed | Failed

  /** The status as the API spells it. */
  function StatusName(s: TaskStatus): string {
    match s
    case Queued => "queued"
    case Processing => "processing"
    case Completed => "completed"
    case Failed => "failed"
  }

  /** A moment of `datetime.now()`, given by its `isoformat()` rendering. */
  datatype Instant = Instant(iso: string)

  const InputMissing: string := "Input file does not exist"
  const ToolMissing: string := "Conversion tool not found"
  const UnknownFailure: string := "Unknown error during conversion"
  const NoOutputFile: string := "Conversion process did not create output file"
  const TimedOutMessage: string := "Conversion process timed out"

  /** One conversion job. The worker updates status, error and completion
      time in place; the same object is reachable from the queue and from
      the task history. */
  class ConversionTask {
    const taskId: string
    const filePath: string
    const outputPath: string
    const originalFilename: string
    const clientIp: string
    const createdAt: Instant
    var status: TaskStatus
    var error: Option<string>
    var completedAt: Option<Instant>

    constructor (taskId: string, filePath: string, outputPath: string,
                 originalFilename: string, clientIp: string, now: Instant)
      ensures this.taskId == taskId && this.filePath == filePath && this.outputPath == outputPath
      ensures this.originalFilename == originalFilename && this.clientIp == clientIp
      ensures createdAt == now && status == Queued && error == None && completedAt == None
    {
      this.taskId := taskId;
      this.filePath := filePath;
      this.outputPath := outputPath;
      this.originalFilename := originalFilename;
      this.clientIp := clientIp;
      createdAt := now;
      status := Queued;
      error := None;
      completedAt := None;
    }
  }

  // ---------------------------------------------------------------------
  // Outcome of one conversion
  // ---------------------------------------------------------------------

  /** How the run of the conversion tool ends: it exits (with its return
      code, its standard error, and whether the output file is there
      afterwards), it exceeds the one-hour timeout, or it raises some other
      exception (`str(e)`). */
  datatype RunResult =
    | Exited(returnCode: int, stderr: string, outputExists: bool)
    | TimedOut
    | Raised(message: string)

  /** What the worker meets while processing one task: whether the input file
      exists, whether preparing the output directory raised, whether the tool
      exists, how the tool run ends, and the time it ends. */
  datatype WorkerEnv = WorkerEnv(
    inputExists: bool,
    prepareError: Option<string>,
    toolExists: bool,
    run: RunResult,
    now: Instant)

  /** How the worker leaves a task: `Settled` runs the normal ending (the
      completion time is recorded and the slot released); `Stalled` is the
      early `continue`, which marks the task failed and skips that ending. */
  datatype Settlement =
    | Settled(status: TaskStatus, error: Option<string>)
    | Stalled(message: string)

  /** The outcome of a tool run that was started. */
  function RunOutcome(run: RunResult): (s: Settlement)
    ensures s.Settled?
    ensures s.status == Completed <==> run.Exited? && run.returnCode == 0 && run.outputExists
    ensures s.status == Completed ==> s.error.None?
    ensures s.status != Completed ==> s.status == Failed && s.error.Some?
    ensures run.Exited? && run.returnCode != 0 ==> s.error.value != ""
    ensures run.Exited? && run.returnCode != 0 && Text.Strip(run.stderr) != "" ==>
      s.error == Some(Text.Strip(run.stderr))
    ensures run.Exited? && run.returnCode != 0 && Text.Strip(run.stderr) == "" ==>
      s.error == Some(UnknownFailure)
    ensures run.Exited? && run.returnCode == 0 && !run.outputExists ==> s.error == Some(NoOutputFile)
    ensures run.TimedOut? ==> s.error == Some(TimedOutMessage)
    ensures run.Raised? ==> s.error == Some(run.message)
  {
    match run
    case Exited(code, stderr, outputExists) =>
      if code != 0 then
        var msg := Text.Strip(stderr);
        Settled(Failed, Some(if msg != "" then msg else UnknownFailure))
      else if outputExists then Settled(Completed, None)
      else Settled(Failed, Some(NoOutputFile))
    case TimedOut => Settled(Failed, Some(TimedOutMessage))
    case Raised(message) => Settled(Failed, Some(message))
  }

  /** The outcome of processing a task, checks included. */
  function Settle(env: WorkerEnv): (s: Settlement)
    ensures s.Stalled? <==> !env.inputExists || (env.prepareError.None? && !env.toolExists)
    ensures s.Stalled? ==> s.message == (if !env.inputExists then InputMissing else ToolMissing)
    ensures s.Settled? ==> (s.status == Completed || s.status == Failed)
    ensures s.Settled? && s.status == Completed <==>
      && env.inputExists && env.prepareError.None? && env.toolExists
      && env.run.Exited? && env.run.returnCode == 0 && env.run.outputExists
    ensures env.inputExists && env.prepareError.Some? ==> s == Settled(Failed, env.prepareError)
    ensures env.inputExists && env.prepareError.None? && env.toolExists ==> s == RunOutcome(env.run)
  {
    if !env.inputExists then Stalled(InputMissing)
    else if env.prepareError.Some? then Settled(Failed, env.prepareError)
    else if !env.toolExists then Stalled(ToolMissing)
    else RunOutcome(env.run)
  }

  // ---------------------------------------------------------------------
  // The queue
  // ---------------------------------------------------------------------

  class TaskQueue {
    var queue: seq<ConversionTask>
    var currentTask: ConversionTask?
    var taskHistory: map<string, ConversionTask>

    /** The history maps every id to its own task; queued tasks are distinct,
        recorded, still queued and not the current one; the current task is
        recorded and is in progress or stalled; only the current task can be
        processing. */
    ghost predicate Valid()
      reads this, taskHistory.Values
    {
      && (forall id :: id in taskHistory ==> taskHistory[id].taskId == id)
      && (forall i :: 0 <= i < |queue| ==> queue[i].taskId in taskHistory && taskHistory[queue[i].taskId] == queue[i])
      && (forall i, j :: 0 <= i < j < |queue| ==> queue[i] != queue[j])
      && (forall i :: 0 <= i < |queue| ==> queue[i].status == Queued && queue[i].completedAt.None?)
      && (currentTask != null ==>
            && currentTask.taskId in taskHistory && taskHistory[currentTask.taskId] == currentTask
            && currentTask !in queue
            && (currentTask.status == Processing || currentTask.status == Failed))
      && (forall t :: t in taskHistory.Values && t.status == Processing ==> t == currentTask)
    }

    /** The slot is held by a task that already failed: the early `continue`
        left it there. */
    ghost predicate IsStalled()
      reads this, currentTask
    {
      currentTask != null && currentTask.status == Failed
    }

    constructor ()
      ensures Valid()
      ensures queue == [] && currentTask == null && taskHistory == map[]
    {
      queue := [];
      currentTask := null;
      taskHistory := map[];
    }

    /** `add_task`: the task goes to the back of the queue and into the
        history under its id, which is returned. */
    method AddTask(task: ConversionTask) returns (id: string)
      requires Valid()
      requires task.status == Queued && task.completedAt.None?
      requires task.taskId !in taskHistory
      modifies this
      ensures Valid()
      ensures queue == old(queue) + [task]
      ensures taskHistory == old(taskHistory)[task.taskId := task]
      ensures currentTask == old(currentTask)
      ensures id == task.taskId
    {
      assert task !in queue;
      queue := queue + [task];
      taskHistory := taskHistory[task.taskId := task];
      id := task.taskId;
    }

    /** `get_task`: the recorded task with that id, or none. */
    function GetTask(id: string): (t: ConversionTask?)
      reads this
      ensures t == null <==> id !in taskHistory
      ensures t != null ==> t == taskHistory[id]
    {
      if id in taskHistory then taskHistory[id] else null
    }

    /** The ids of the queued tasks, front first. */
    function QueuedIds(): (ids: seq<string>)
      reads this
      ensures |ids| == |queue|
      ensures forall i :: 0 <= i < |queue| ==> ids[i] == queue[i].taskId
    {
      seq(|queue|, i requires 0 <= i < |queue| reads this => queue[i].taskId)
    }

    /** `get_queue_status`. */
    method GetQueueStatus() returns (body: map<string, Json>)
      ensures body.Keys == {"queue_size", "current_task", "queued_tasks"}
      ensures body["queue_size"] == Num(|queue|)
      ensures body["current_task"] == if currentTask == null then Null else Str(currentTask.taskId)
      ensures body["queued_tasks"] == Strs(QueuedIds())
    {
      body := map[
        "queue_size" := Num(|queue|),
        "current_task" := if currentTask == null then Null else Str(currentTask.taskId),
        "queued_tasks" := Strs(QueuedIds())
      ];
    }

    /** The locked part of a worker iteration: when the slot is free and the
        queue is not empty, the front task leaves the queue, takes the slot and
        is marked processing. */
    method TakeNext() returns (took: bool)
      requires Valid()
      modifies this, if queue == [] then {} else {queue[0]}
      ensures Valid()
      ensures took == (old(queue) != [] && old(currentTask) == null)
      ensures took ==> && queue == old(queue)[1..] && currentTask == old(queue)[0]
                       && currentTask.status == Processing
                       && currentTask.error == old(queue[0].error)
                       && currentTask.completedAt == old(queue[0].completedAt)
      ensures !took ==> queue == old(queue) && currentTask == old(currentTask)
      ensures taskHistory == old(taskHistory)
    {
      if queue == [] || currentTask != null {
        return false;
      }
      var task := queue[0];
      queue := queue[1..];
      currentTask := task;
      task.status := Processing;
      took := true;
      assert forall i :: 0 <= i < |queue| ==> queue[i] == old(queue)[i + 1];
    }

    /** The rest of a worker iteration: the task in the slot settles; on the
        normal ending it gets its completion time and the slot is released,
        while a missing input file or tool leaves it failed in the slot. */
    method FinishCurrent(env: WorkerEnv)
      requires Valid()
      requires currentTask != null && currentTask.status == Processing
      modifies this, currentTask
      ensures Valid()
      ensures queue == old(queue) && taskHistory == old(taskHistory)
      ensures var t := old(currentTask);
        match Settle(env)
        case Stalled(message) =>
          && currentTask == t && t.status == Failed && t.error == Some(message)
          && t.completedAt == old(t.completedAt)
        case Settled(status, error) =>
          && currentTask == null && t.status == status
          && t.error == (if error.Some? then error else old(t.error))
          && t.completedAt == Some(env.now)
    {
      var task := currentTask;
      match Settle(env) {
        case Stalled(message) =>
          task.status := Failed;
          task.error := Some(message);
        case Settled(status, error) =>
          task.status := status;
          if error.Some? {
            task.error := error;
          }
          task.completedAt := Some(env.now);
          currentTask := null;
      }
    }

    /** One pass of the worker loop. */
    method WorkerIteration(env: WorkerEnv) returns (took: bool)
      requires Valid()
      modifies this, if queue == [] then {} else {queue[0]}
      ensures Valid()
      ensures took == (old(queue) != [] && old(currentTask) == null)
      ensures !took ==> queue == old(queue) && currentTask == old(currentTask)
      ensures took ==> queue == old(queue)[1..]
      ensures took ==> match Settle(env)
        case Stalled(message) =>
          && currentTask == old(queue)[0] && currentTask.status == Failed && IsStalled()
          && currentTask.error == Some(message)
          && StatusReply(ViewOf(currentTask)) == UnhandledError
        case Settled(status, error) =>
          && currentTask == null && old(queue)[0].status == status
          && old(queue)[0].error == (if error.Some? then error else old(queue[0].error))
          && old(queue)[0].completedAt == Some(env.now)
      ensures taskHistory == old(taskHistory)
    {
      took := TakeNext();
      if took {
        FinishCurrent(env);
      }
    }
  }

  // ---------------------------------------------------------------------
  // Client IP and uploads (ConvertFileView)
  // ---------------------------------------------------------------------

  const ForwardedForKey: string := "HTTP_X_FORWARDED_FOR"
  const RemoteAddrKey: string := "REMOTE_ADDR"

  /** `get_client_ip`: the first entry of a non-empty `X-Forwarded-For`
      header, else `REMOTE_ADDR`, else the empty string. */
  function ClientIp(meta: map<string, string>): (ip: string)
    ensures ForwardedForKey in meta && meta[ForwardedForKey] != "" ==>
      && ip == Text.FirstListEntry(meta[ForwardedForKey])
      && ',' !in ip
      && (ip == "" || (!Text.IsSpace(ip[0]) && !Text.IsSpace(ip[|ip| - 1])))
    ensures !(ForwardedForKey in meta && meta[ForwardedForKey] != "") ==>
      ip == (if RemoteAddrKey in meta then meta[RemoteAddrKey] else "")
  {
    if ForwardedForKey in meta && meta[ForwardedForKey] != "" then
      Text.FirstListEntry(meta[ForwardedForKey])
    else if RemoteAddrKey in meta then meta[RemoteAddrKey]
    else ""
  }

  /** An uploaded file as the view sees it. */
  datatype Upload = Upload(name: string, size: nat)

  const ConvertedPrefix: string := "dt_"

  /** Where an upload is saved: `<base>\<hash>\<name>`. */
  function InputPath(baseDir: string, hash: string, name: string): string {
    WinPath.Join(WinPath.Join(baseDir, hash), name)
  }

  /** Where the tool writes its result: `<base>\<hash>\dt_<name>`. */
  function OutputPath(baseDir: string, hash: string, name: string): string {
    WinPath.Join(WinPath.Join(baseDir, hash), ConvertedPrefix + name)
  }

  const DownloadBase: string := "https://dl.meikoneko.space/download/"

  /** The layout of `base + dir + "/" + name`, for parts without a backslash. */
  lemma {:induction false} UrlLayout(base: string, dir: string, name: string)
    requires WinPath.Sep !in dir && WinPath.Sep !in name
    ensures var r := base + dir + "/" + name;
      && |base| < |r| && r[..|base|] == base
      && WinPath.Sep !in r[|base|..]
      && |name| < |r| && r[|r| - |name| - 1] == '/' && r[|r| - |name|..] == name
  {
    var tail := dir + "/" + name;
    var r := base + tail;
    assert base + dir + "/" + name == r;
    assert r[..|base|] == base;
    assert r[|base|..] == tail;
    assert r[|r| - |name|..] == name;
  }

  /** The download link of a completed task: the last directory segment and
      the file name of its output path. */
  function DownloadUrl(outputPath: string): (r: string)
    ensures |DownloadBase| < |r| && r[..|DownloadBase|] == DownloadBase
    ensures WinPath.Sep !in r[|DownloadBase|..]
    ensures var name := WinPath.Basename(outputPath);
      |name| < |r| && r[|r| - |name| - 1] == '/' && r[|r| - |name|..] == name
  {
    var dir := WinPath.Basename(WinPath.Dirname(outputPath));
    var name := WinPath.Basename(outputPath);
    UrlLayout(DownloadBase, dir, name);
    DownloadBase + dir + "/" + name
  }

  /** The converted file sits next to the upload, named `dt_` plus the
      upload's name, and its download link names the hash directory and that
      file. */
  lemma UploadPaths(baseDir: string, hash: string, name: string)
    requires baseDir != [] && baseDir[|baseDir| - 1] != WinPath.Sep
    requires hash != [] && WinPath.Sep !in hash && WinPath.Sep !in name
    ensures WinPath.Dirname(OutputPath(baseDir, hash, name)) == WinPath.Dirname(InputPath(baseDir, hash, name))
    ensures WinPath.Basename(OutputPath(baseDir, hash, name)) == ConvertedPrefix + WinPath.Basename(InputPath(baseDir, hash, name))
    ensures DownloadUrl(OutputPath(baseDir, hash, name)) == DownloadBase + hash + "/" + ConvertedPrefix + name
  {
    var dir := WinPath.Join(baseDir, hash);
    var outName := ConvertedPrefix + name;
    assert dir[|dir| - 1] == hash[|hash| - 1];
    assert WinPath.Sep !in outName;
    WinPath.JoinSplits(dir, name);
    WinPath.JoinSplits(dir, outName);
    WinPath.JoinSplits(baseDir, hash);
    var out := OutputPath(baseDir, hash, name);
    assert WinPath.Basename(WinPath.Dirname(out)) == hash;
    assert WinPath.Basename(out) == outName;
    assert DownloadUrl(out) == DownloadBase + hash + "/" + outName;
  }

  /** The reply `ConvertFileView.post` gives to an accepted upload. */
  function QueuedReply(taskId: string): (r: Response)
    ensures r.Reply? && r.code == 200
    ensures r.body.Keys == {"task_id", "status", "message", "check_status_url"}
    ensures r.body["status"] == Str("queued") && r.body["task_id"] == Str(taskId)
    ensures r.body["check_status_url"] == Str("/api/task/" + taskId)
  {
    Reply(200, map[
      "task_id" := Str(taskId),
      "status" := Str("queued"),
      "message" := Str("File conversion has been queued"),
      "check_status_url" := Str("/api/task/" + taskId)])
  }

  /** Django's uploaded file is falsy when its name is empty, so such an
      upload counts as no file at all. */
  predicate HasFile(file: Option<Upload>) {
    file.Some? && file.value.name != ""
  }

  /** `ConvertFileView.post`: rejects a request without a file, reports a
      failure to create the hash directory (`dirError`) or to write the
      upload (`saveError`), and otherwise queues a task for the saved file.
      `hash` stands for the fresh hash directory name and `taskId` for the
      fresh `uuid4`. */
  method ConvertFilePost(q: TaskQueue, file: Option<Upload>, meta: map<string, string>,
                         baseDir: string, hash: string, dirError: Option<string>,
                         saveError: Option<string>, taskId: string, now: Instant) returns (r: Response)
    requires q.Valid()
    requires taskId !in q.taskHistory
    modifies q
    ensures q.Valid()
    ensures !HasFile(file) ==> r == Reply(400, map["error" := Str("No file uploaded")]) && unchanged(q)
    ensures HasFile(file) && dirError.Some? ==>
      r == Reply(500, map["error" := Str("Server error: " + dirError.value)]) && unchanged(q)
    ensures HasFile(file) && dirError.None? && saveError.Some? ==>
      r == Reply(500, map["error" := Str("File save error: " + saveError.value)]) && unchanged(q)
    ensures HasFile(file) && dirError.None? && saveError.None? ==>
      && r == QueuedReply(taskId)
      && |q.queue| == |old(q.queue)| + 1 && q.queue[..|old(q.queue)|] == old(q.queue)
      && taskId in q.taskHistory && q.taskHistory[taskId] == q.queue[|q.queue| - 1]
      && q.taskHistory == old(q.taskHistory)[taskId := q.taskHistory[taskId]]
      && fresh(q.taskHistory[taskId])
      && q.currentTask == old(q.currentTask)
    ensures HasFile(file) && dirError.None? && saveError.None? ==>
      var t := q.taskHistory[taskId];
      && t.filePath == InputPath(baseDir, hash, file.value.name)
      && t.outputPath == OutputPath(baseDir, hash, file.value.name)
      && t.originalFilename == file.value.name
      && t.clientIp == ClientIp(meta)
      && t.status == Queued && t.createdAt == now
  {
    if !HasFile(file) {
      return Reply(400, map["error" := Str("No file uploaded")]);
    }
    var name := file.value.name;
    if dirError.Some? {
      return Reply(500, map["error" := Str("Server error: " + dirError.value)]);
    }
    var inputPath := InputPath(baseDir, hash, name);
    if saveError.Some? {
      return Reply(500, map["error" := Str("File save error: " + saveError.value)]);
    }
    var outputPath := OutputPath(baseDir, hash, name);
    var clientIp := ClientIp(meta);
    var task := new ConversionTask(taskId, inputPath, outputPath, name, clientIp, now);
    var _ := q.AddTask(task);
    r := QueuedReply(taskId);
  }

  // ---------------------------------------------------------------------
  // Task status (TaskStatusView)
  // ---------------------------------------------------------------------

  /** The fields of a task the status view reads. */
  datatype TaskView = TaskView(
    taskId: string,
    status: TaskStatus,
    originalFilename: string,
    outputPath: string,
    createdAt: Instant,
    error: Option<string>,
    completedAt: Option<Instant>)

  function ViewOf(t: ConversionTask): TaskView
    reads t
  {
    TaskView(t.taskId, t.status, t.originalFilename, t.outputPath, t.createdAt, t.error, t.completedAt)
  }

  /** The status reply for a recorded task. A finished task whose completion
      time was never set makes `completed_at.isoformat()` raise, which Django
      turns into a bare 500. */
  function StatusReply(v: TaskView): (r: Response)
    ensures r.UnhandledError? <==> (v.status == Completed || v.status == Failed) && v.completedAt.None?
    ensures r.Reply? ==>
      && r.code == 200
      && {"task_id", "status", "original_filename", "created_at"} <= r.body.Keys
      && r.body["task_id"] == Str(v.taskId)
      && r.body["status"] == Str(StatusName(v.status))
      && r.body["original_filename"] == Str(v.originalFilename)
      && r.body["created_at"] == Str(v.createdAt.iso)
    ensures r.Reply? ==> ("download_url" in r.body <==> v.status == Completed)
    ensures r.Reply? ==> ("error" in r.body <==> v.status == Failed)
    ensures r.Reply? ==> ("completed_at" in r.body <==> v.status == Completed || v.status == Failed)
    ensures r.Reply? ==> r.body.Keys <= {"task_id", "status", "original_filename", "created_at", "download_url", "error", "completed_at"}
    ensures r.Reply? && v.status == Completed ==> r.body["download_url"] == Str(DownloadUrl(v.outputPath))
    ensures r.Reply? && v.status == Failed ==> r.body["error"] == (if v.error.Some? then Str(v.error.value) else Null)
  {
    var base := map[
      "task_id" := Str(v.taskId),
      "status" := Str(StatusName(v.status)),
      "original_filename" := Str(v.originalFilename),
      "created_at" := Str(v.createdAt.iso)];
    match v.status
    case Completed =>
      if v.completedAt.None? then UnhandledError
      else Reply(200, base["download_url" := Str(DownloadUrl(v.outputPath))]["completed_at" := Str(v.completedAt.value.iso)])
    case Failed =>
      if v.completedAt.None? then UnhandledError
      else Reply(200, base["error" := (if v.error.Some? then Str(v.error.value) else Null)]["completed_at" := Str(v.completedAt.value.iso)])
    case _ => Reply(200, base)
  }

  /** `TaskStatusView.get`: 404 for an unknown id, else the task's status reply. */
  method GetTaskStatus(q: TaskQueue, taskId: string) returns (r: Response)
    ensures taskId !in q.taskHistory ==> r == Reply(404, map["error" := Str("Task not found")])
    ensures taskId in q.taskHistory ==> r == StatusReply(ViewOf(q.taskHistory[taskId]))
  {
    var task := q.GetTask(taskId);
    if task == null {
      return Reply(404, map["error" := Str("Task not found")]);
    }
    r := StatusReply(ViewOf(task));
  }
}
