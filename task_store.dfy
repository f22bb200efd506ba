/** Task state of the service: the progress map (`CONVERSION_PROGRESS`,
    written by `update_progress`) and the batch map (`ACTIVE_BATCH_TASKS`),
    owned by one object, with the read, list and delete operations of the
    task endpoints. The model is sequential. */
module TaskState {
  import opened Wrappers
  import opened Models
  import opened Sorting

  /** One progress snapshot; there is no history and no merge. */
  datatype ProgressRecord = ProgressRecord(progress: int, status: string, message: string)

  /** The per-file entry of a batch: `error` is present only on failure. */
  datatype FileResult = FileResult(originalFilename: string, status: string, outputFilename: Option<string>, error: Option<string>)

  datatype BatchTask = BatchTask(createdAt: int, fileCount: int, results: seq<FileResult>, options: ConversionOptions, status: string)

  /** An entry of `list_tasks`: the batch record joined with its progress. */
  datatype TaskSummary = TaskSummary(taskId: string, createdAt: int, fileCount: int, progress: int, status: string, message: string)

  /** The answer of `get_task`. */
  datatype TaskDetail = TaskDetail(taskId: string, createdAt: int, fileCount: int, results: seq<FileResult>,
                                   options: ConversionOptions, progress: int, status: string, message: string)

  /** The progress record a lookup sees: the stored one, or the defaults
      progress 0, status "unknown", message "" when there is none. */
  function ProgressOrDefault(progress: map<string, ProgressRecord>, id: string): (r: ProgressRecord)
    ensures id in progress ==> r == progress[id]
    ensures id !in progress ==> r == ProgressRecord(0, "unknown", "")
  {
    if id in progress then progress[id] else ProgressRecord(0, "unknown", "")
  }

  /** Read after write: once a task's record is replaced, a lookup of
      that task sees exactly the new record, and a lookup of any other
      task sees what it saw before. */
  lemma ProgressReadAfterWrite(progress: map<string, ProgressRecord>, id: string, rec: ProgressRecord, other: string)
    ensures ProgressOrDefault(progress[id := rec], id) == rec
    ensures other != id ==> ProgressOrDefault(progress[id := rec], other) == ProgressOrDefault(progress, other)
  {
  }

  /** Statuses of work still running; a task in one of them cannot be deleted. */
  predicate InProgressStatus(s: string)
  {
    s == "init" || s == "uploading" || s == "downloading" || s == "converting" || s == "processing"
  }

  /** The status test of `delete_task`, written as the source nests it:
      `status not in [complete, error, unknown, None]` and then
      `status in [init, uploading, downloading, converting, processing]`. */
  function DeleteRefused(status: Option<string>): bool
  {
    var s := status;
    if s == None || s == Some("complete") || s == Some("error") || s == Some("unknown") then false
    else InProgressStatus(s.value)
  }

  /** The nested test refuses a delete exactly for the in-progress
      statuses: queued, partial_error, complete, error and a missing
      record are all deletable. */
  lemma DeleteRefusedIff(status: Option<string>)
    ensures DeleteRefused(status) <==> (status.Some? && InProgressStatus(status.value))
    ensures !DeleteRefused(Some("queued")) && !DeleteRefused(Some("partial_error"))
    ensures !DeleteRefused(Some("complete")) && !DeleteRefused(Some("error")) && !DeleteRefused(None)
    ensures DeleteRefused(Some("converting"))
  {
  }

  class TaskStore {
    var progress: map<string, ProgressRecord>
    var batches: map<string, BatchTask>
    /** Every progress write in order, so that sequences of checkpoints
        can be stated; the service itself keeps only the last one. */
    ghost var writes: seq<(string, ProgressRecord)>

    constructor ()
      ensures progress == map[] && batches == map[] && writes == []
    {
      progress, batches := map[], map[];
      writes := [];
    }

    /** `update_progress`: the record for `taskId` becomes exactly the new
        snapshot (inserted if absent); every other record is unchanged. */
    method UpdateProgress(taskId: string, p: int, status: string, message: string)
      modifies this`progress, this`writes
      ensures progress == old(progress)[taskId := ProgressRecord(p, status, message)]
      ensures taskId in progress && progress[taskId] == ProgressRecord(p, status, message)
      ensures forall id :: id in old(progress) && id != taskId ==> id in progress && progress[id] == old(progress)[id]
      ensures writes == old(writes) + [(taskId, ProgressRecord(p, status, message))]
    {
      progress := progress[taskId := ProgressRecord(p, status, message)];
      writes := writes + [(taskId, ProgressRecord(p, status, message))];
    }

    /** The progress status `delete_task` reads: `None` without a record. */
    function StatusOf(id: string): Option<string>
      reads this
    {
      if id in progress then Some(progress[id].status) else None
    }

    function Summary(id: string): (e: TaskSummary)
      reads this
      requires id in batches
    {
      var b := batches[id];
      var p := ProgressOrDefault(progress, id);
      TaskSummary(id, b.createdAt, b.fileCount, p.progress, p.status, p.message)
    }

    /** `get_task`: 404 for an id with no batch record; otherwise the batch
        record joined with its progress, or the progress defaults. */
    function GetTask(id: string): (r: Result<TaskDetail, int>)
      reads this
      ensures r.Err? <==> id !in batches
      ensures r.Err? ==> r.error == 404
      ensures r.Ok? ==> r.value.taskId == id && r.value.results == batches[id].results
                        && r.value.createdAt == batches[id].createdAt && r.value.fileCount == batches[id].fileCount
                        && r.value.options == batches[id].options
      ensures r.Ok? && id !in progress ==> r.value.progress == 0 && r.value.status == "unknown" && r.value.message == ""
      ensures r.Ok? && id in progress ==>
                r.value.progress == progress[id].progress && r.value.status == progress[id].status
                && r.value.message == progress[id].message
    {
      if id !in batches then Err(404)
      else
        var b := batches[id];
        var p := ProgressOrDefault(progress, id);
        Ok(TaskDetail(id, b.createdAt, b.fileCount, b.results, b.options, p.progress, p.status, p.message))
    }

    /** `list_tasks`: one entry per batch record, newest first. */
    method ListTasks() returns (r: seq<TaskSummary>)
      ensures |r| == |batches.Keys|
      ensures forall i :: 0 <= i < |r| ==> r[i].taskId in batches && r[i] == Summary(r[i].taskId)
      ensures forall id :: id in batches ==> exists i :: 0 <= i < |r| && r[i].taskId == id
      ensures SortedDesc(r, (e: TaskSummary) => e.createdAt)
    {
      var tasks := Summaries();
      var key := (e: TaskSummary) => e.createdAt;
      r := SortDesc(tasks, key);
      SortDescSorted(tasks, key);
      forall i | 0 <= i < |r| ensures r[i].taskId in batches && r[i] == Summary(r[i].taskId) {
        assert r[i] in multiset(tasks);
      }
      forall id | id in batches ensures exists i :: 0 <= i < |r| && r[i].taskId == id {
        var j :| 0 <= j < |tasks| && tasks[j].taskId == id;
        assert tasks[j] in multiset(r);
      }
    }

    /** The loop over the batch records, visiting the keys in some order
        (the dictionary's insertion order is not kept). */
    method Summaries() returns (tasks: seq<TaskSummary>)
      ensures |tasks| == |batches.Keys|
      ensures forall i :: 0 <= i < |tasks| ==> tasks[i].taskId in batches && tasks[i] == Summary(tasks[i].taskId)
      ensures forall id :: id in batches ==> exists i :: 0 <= i < |tasks| && tasks[i].taskId == id
    {
      var pending := batches.Keys;
      tasks := [];
      while pending != {}
        invariant pending <= batches.Keys
        invariant |tasks| + |pending| == |batches.Keys|
        invariant forall i :: 0 <= i < |tasks| ==> tasks[i].taskId in batches && tasks[i].taskId !in pending && tasks[i] == Summary(tasks[i].taskId)
        invariant forall id :: id in batches && id !in pending ==> exists i :: 0 <= i < |tasks| && tasks[i].taskId == id
        decreases |pending|
      {
        var id :| id in pending;
        var before := tasks;
        tasks := tasks + [Summary(id)];
        forall other | other in batches && other !in pending - {id}
          ensures exists i :: 0 <= i < |tasks| && tasks[i].taskId == other
        {
          if other == id {
            assert tasks[|tasks| - 1].taskId == other;
          } else {
            var j :| 0 <= j < |before| && before[j].taskId == other;
            assert tasks[j] == before[j];
          }
        }
        pending := pending - {id};
      }
    }

    /** `delete_task`: 404 without a batch record (so a second delete of the
        same id answers 404), 400 while the task is in progress; otherwise
        both records go and every other entry stays. */
    method DeleteTask(id: string) returns (r: Result<(), int>)
      modifies this`progress, this`batches
      ensures id !in old(batches) ==> r == Err(404) && batches == old(batches) && progress == old(progress)
      ensures id in old(batches) && DeleteRefused(old(StatusOf(id))) ==>
                r == Err(400) && batches == old(batches) && progress == old(progress)
      ensures id in old(batches) && !DeleteRefused(old(StatusOf(id))) ==>
                r == Ok(()) && batches == old(batches) - {id} && progress == old(progress) - {id}
    {
      if id !in batches {
        return Err(404);
      }
      if DeleteRefused(StatusOf(id)) {
        return Err(400);
      }
      batches := batches - {id};
      progress := progress - {id};
      r := Ok(());
    }
  }

  /** `update_progress` followed by `get_task` on a batch task: the answer
      carries exactly the progress, status and message just written, with
      the batch record's own fields. */
  method ReportAfterUpdate(store: TaskStore, id: string, p: int, status: string, message: string)
      returns (r: Result<TaskDetail, int>)
    requires id in store.batches
    modifies store`progress, store`writes
    ensures r.Ok? && r.value.progress == p && r.value.status == status && r.value.message == message
    ensures r.value.results == store.batches[id].results && store.batches == old(store.batches)
  {
    store.UpdateProgress(id, p, status, message);
    r := store.GetTask(id);
  }
}
