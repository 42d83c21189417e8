/**
 * The lifecycle engine `Service`: `GetTaskResult` and `AddTask` delegate to
 * the store; `Execute` drives one task New -> InProcess -> Error | Done by
 * writing whole records with `Update`. The outbound HTTP call is not made
 * here: its result arrives as a `CallOutcome`.
 */
module TaskService {
  import opened Wire
  import opened TaskEntity
  import opened InMemoryRepository
  import TaskStatusCodec

  /**
   * What became of the outbound call: building the request failed
   * (`http.NewRequestWithContext` returned an error), sending it failed
   * (`client.Do` returned an error, a passed deadline included), or a
   * response arrived with its status code, header and content length.
   */
  datatype CallOutcome =
    | ConstructFail
    | CallFail
    | Response(statusCode: int, header: Header, contentLength: int)

  /** How the `Execute` goroutine ends: it returns, or it panics. */
  datatype Exit = Returned | Panicked

  /** One run of `Execute`: the records `Update` stored, in order, and the map afterwards. */
  datatype Run = Run(written: seq<TaskResult>, store: Store)

  // ---------------------------------------------------------------------------
  // The task state machine

  /** The transitions a task may take: New -> InProcess -> Error | Done. */
  predicate Transition(a: TaskStatusCodec.TaskResultStatus, b: TaskStatusCodec.TaskResultStatus) {
    || (a == TaskStatusCodec.TaskStatusNew && b == TaskStatusCodec.TaskStatusInProcess)
    || (a == TaskStatusCodec.TaskStatusInProcess && b == TaskStatusCodec.TaskStatusError)
    || (a == TaskStatusCodec.TaskStatusInProcess && b == TaskStatusCodec.TaskStatusDone)
  }

  predicate IsTerminal(s: TaskStatusCodec.TaskResultStatus) {
    s == TaskStatusCodec.TaskStatusError || s == TaskStatusCodec.TaskStatusDone
  }

  /** Every consecutive pair of `ss` is a transition. */
  predicate IsLifecycle(ss: seq<TaskStatusCodec.TaskResultStatus>) {
    forall k | 0 < k < |ss| :: Transition(ss[k - 1], ss[k])
  }

  /** The statuses of a sequence of records. */
  function Statuses(rs: seq<TaskResult>): seq<TaskStatusCodec.TaskResultStatus> {
    seq(|rs|, k requires 0 <= k < |rs| => rs[k].status)
  }

  /** No transition leaves a terminal status, and none moves back to New. */
  lemma TerminalIsFinal(a: TaskStatusCodec.TaskResultStatus, b: TaskStatusCodec.TaskResultStatus)
    requires Transition(a, b)
    ensures !IsTerminal(a)
    ensures b != TaskStatusCodec.TaskStatusNew
    ensures a != b
  {
  }

  // ---------------------------------------------------------------------------
  // What `Execute` writes

  /**
   * The record `Execute` writes second: `{id, Done, code, header, length}`
   * for a response, `{id, Error}` with every other field zero otherwise.
   */
  function TerminalRecord(id: string, outcome: CallOutcome): (r: TaskResult)
    ensures r.id == id && IsTerminal(r.status)
    ensures r.status == TaskStatusCodec.TaskStatusDone <==> outcome.Response?
  {
    match outcome
    case Response(code, header, length) => TaskResult(id, TaskStatusCodec.TaskStatusDone, code, header, length)
    case _ => Bare(id, TaskStatusCodec.TaskStatusError)
  }

  /**
   * The writes of one run of `Execute` for `id`: `{id, InProcess}` first;
   * if that is stored, the terminal record. A failed `Update` changes nothing
   * and is not listed.
   */
  function ExecuteRun(data: Store, id: string, outcome: CallOutcome): (r: Run)
    ensures |r.written| == if id in data then 2 else 0
    ensures forall k | 0 <= k < |r.written| :: r.written[k].id == id
    ensures r.store.Keys == data.Keys
    ensures Consistent(data) ==> Consistent(r.store)
  {
    var (d1, err1) := Replaced(data, Bare(id, TaskStatusCodec.TaskStatusInProcess));
    if err1.Some? then Run([], data)
    else
      var (d2, err2) := Replaced(d1, TerminalRecord(id, outcome));
      if err2.Some? then Run([Bare(id, TaskStatusCodec.TaskStatusInProcess)], d1)
      else Run([Bare(id, TaskStatusCodec.TaskStatusInProcess), TerminalRecord(id, outcome)], d2)
  }

  /**
   * How `Execute` as written ends: after a failed request construction and
   * a stored `Error`, it goes on to dereference the nil request and panics.
   */
  function ExitAsWritten(data: Store, id: string, outcome: CallOutcome): (e: Exit)
    ensures e == Panicked ==>
      ExecuteRun(data, id, outcome).written == [Bare(id, TaskStatusCodec.TaskStatusInProcess), Bare(id, TaskStatusCodec.TaskStatusError)]
    ensures e == Panicked ==> ExecuteRun(data, id, outcome).store[id].status == TaskStatusCodec.TaskStatusError
  {
    if id in data && outcome.ConstructFail? then Panicked else Returned
  }

  /** The updates a run performs, as store operations. */
  function AsUpdates(rs: seq<TaskResult>): seq<StoreOp> {
    seq(|rs|, k requires 0 <= k < |rs| => UpdateOp(rs[k]))
  }

  /**
   * A run of `Execute` is its list of updates applied to the map: it stores
   * exactly the records it lists, and each is about `id`.
   */
  lemma ExecuteIsItsUpdates(data: Store, id: string, outcome: CallOutcome)
    ensures ApplyAll(data, AsUpdates(ExecuteRun(data, id, outcome).written)) == ExecuteRun(data, id, outcome).store
    ensures forall r | r in ExecuteRun(data, id, outcome).written :: r.id == id
  {
    var run := ExecuteRun(data, id, outcome);
    var ops := AsUpdates(run.written);
    if id in data {
      var d1 := Replaced(data, Bare(id, TaskStatusCodec.TaskStatusInProcess)).0;
      assert ops[1..][1..] == [];
      assert ApplyAll(d1, ops[1..]) == ApplyAll(Replaced(d1, TerminalRecord(id, outcome)).0, []);
    }
  }

  /**
   * `Execute` touches only the id it was given: same key set, every other
   * entry unchanged.
   */
  lemma ExecuteTouchesOnlyItsId(data: Store, id: string, outcome: CallOutcome)
    ensures ExecuteRun(data, id, outcome).store.Keys == data.Keys
    ensures forall k | k in data && k != id :: ExecuteRun(data, id, outcome).store[k] == data[k]
  {
  }

  /**
   * The end state of the record: unchanged and nothing written when the id
   * is absent; otherwise InProcess then the terminal record, which is the
   * record left in the map.
   */
  lemma ExecuteFinalRecord(data: Store, id: string, outcome: CallOutcome)
    ensures id !in data ==> ExecuteRun(data, id, outcome) == Run([], data)
    ensures id in data ==>
      ExecuteRun(data, id, outcome).written == [Bare(id, TaskStatusCodec.TaskStatusInProcess), TerminalRecord(id, outcome)]
    ensures id in data ==> ExecuteRun(data, id, outcome).store[id] == TerminalRecord(id, outcome)
  {
  }

  /** The map after a run: the terminal record replaces the entry for `id`, if there is one. */
  lemma ExecuteStore(data: Store, id: string, outcome: CallOutcome)
    ensures ExecuteRun(data, id, outcome).store == if id in data then data[id := TerminalRecord(id, outcome)] else data
  {
  }

  /**
   * Started on a `New` record, the statuses the record goes through form a
   * lifecycle New -> InProcess -> Error | Done that ends in a terminal status.
   */
  lemma ExecuteMovesForward(data: Store, id: string, outcome: CallOutcome)
    requires id in data && data[id].status == TaskStatusCodec.TaskStatusNew
    ensures IsLifecycle([data[id].status] + Statuses(ExecuteRun(data, id, outcome).written))
    ensures |ExecuteRun(data, id, outcome).written| == 2
    ensures IsTerminal(ExecuteRun(data, id, outcome).store[id].status)
  {
    var ss := [data[id].status] + Statuses(ExecuteRun(data, id, outcome).written);
    assert ss == [TaskStatusCodec.TaskStatusNew, TaskStatusCodec.TaskStatusInProcess, TerminalRecord(id, outcome).status];
  }

  /**
   * A task submitted and then executed: an immediate fetch sees `New`; after
   * the run the fetch sees the terminal record, the record has been
   * New, InProcess and the terminal status in that order, and every other
   * task is as it was.
   */
  lemma SubmitThenExecute(data: Store, uuid: string, outcome: CallOutcome)
    requires Consistent(data) && uuid !in data
    ensures Lookup(Created(data, uuid), uuid) == Ok(Bare(uuid, TaskStatusCodec.TaskStatusNew))
    ensures Lookup(ExecuteRun(Created(data, uuid), uuid, outcome).store, uuid) == Ok(TerminalRecord(uuid, outcome))
    ensures IsLifecycle([TaskStatusCodec.TaskStatusNew] + Statuses(ExecuteRun(Created(data, uuid), uuid, outcome).written))
    ensures forall k | k in data :: Lookup(ExecuteRun(Created(data, uuid), uuid, outcome).store, k) == Ok(data[k])
    ensures Consistent(ExecuteRun(Created(data, uuid), uuid, outcome).store)
  {
    var d0 := Created(data, uuid);
    ExecuteMovesForward(d0, uuid, outcome);
    ExecuteIsItsUpdates(d0, uuid, outcome);
    ConsistencyPreserved(d0, AsUpdates(ExecuteRun(d0, uuid, outcome).written));
  }

  /**
   * Runs for two different tasks commute, and each task's record ends as
   * its own run leaves it: one task's outcome never shows in another's record.
   */
  lemma DistinctRunsCommute(data: Store, a: string, oa: CallOutcome, b: string, ob: CallOutcome)
    requires a != b
    ensures ExecuteRun(ExecuteRun(data, a, oa).store, b, ob).store == ExecuteRun(ExecuteRun(data, b, ob).store, a, oa).store
    ensures a in data ==> ExecuteRun(ExecuteRun(data, a, oa).store, b, ob).store[a] == TerminalRecord(a, oa)
  {
    var ta, tb := TerminalRecord(a, oa), TerminalRecord(b, ob);
    var da := ExecuteRun(data, a, oa).store;
    var db := ExecuteRun(data, b, ob).store;
    ExecuteStore(data, a, oa);
    ExecuteStore(data, b, ob);
    ExecuteStore(da, b, ob);
    ExecuteStore(db, a, oa);
    if a in data && b in data {
      UpdatesOnDistinctIdsCommute(data, ta, tb);
    }
  }

  /**
   * As written, a request that cannot be built ends with `Error` stored and
   * then a panic: the nil request is dereferenced.
   */
  lemma ConstructFailureStoresErrorThenPanics(data: Store, id: string)
    requires id in data
    ensures ExecuteRun(data, id, ConstructFail).store[id] == Bare(id, TaskStatusCodec.TaskStatusError)
    ensures ExitAsWritten(data, id, ConstructFail) == Panicked
  {
  }

  /** `Service` with its store. */
  class Service {
    const repo: TaskInMemoryRepository

    /** `NewService`; the timeout is not modelled. */
    constructor (repo: TaskInMemoryRepository)
      ensures this.repo == repo
    {
      this.repo := repo;
    }

    /** `GetTaskResult`: the store's record, or its `ErrNotFound`. */
    method GetTaskResult(id: string) returns (r: Result<TaskResult, Error>)
      ensures r == Lookup(repo.data, id)
    {
      var res := repo.GetByID(id);
      if res.Err? {
        return Err(res.error);
      }
      r := Ok(res.value);
    }

    /**
     * `AddTask`: the id `Create` returns (`uuid` is the value `uuid.New()`
     * drew). The `go s.Execute(taskID, task)` that follows runs later, on its
     * own: see `Execute`.
     */
    method AddTask(task: Task, uuid: string) returns (taskId: string, err: Option<Error>)
      requires repo.Valid() && uuid !in repo.data
      modifies repo
      ensures repo.Valid()
      ensures taskId == uuid && err == None
      ensures repo.data == Created(old(repo.data), uuid)
      ensures repo.log == old(repo.log)
    {
      var created := repo.Create(task, uuid);
      match created
      case Err(e) =>
        return "", Some(e);
      case Ok(id) =>
        taskId, err := id, None;
    }

    /**
     * `Execute` as written. The request construction, `client.Do` and the
     * deadline are folded into `outcome`.
     */
    method Execute(id: string, task: Task, outcome: CallOutcome) returns (exit: Exit)
      requires repo.Valid()
      modifies repo
      ensures repo.Valid()
      ensures repo.data == ExecuteRun(old(repo.data), id, outcome).store
      ensures repo.log == old(repo.log) + ExecuteRun(old(repo.data), id, outcome).written
      ensures exit == ExitAsWritten(old(repo.data), id, outcome)
    {
      var err := repo.Update(Bare(id, TaskStatusCodec.TaskStatusInProcess));
      if err.Some? {
        return Returned;
      }
      var constructed := !outcome.ConstructFail?;
      if !constructed {
        var errUpdate := repo.Update(Bare(id, TaskStatusCodec.TaskStatusError));
        if errUpdate.Some? {
          return Returned;
        }
      }
      // Adding the task's headers and calling `client.Do` both dereference
      // the request, which is nil when its construction failed.
      if !constructed {
        return Panicked;
      }
      if outcome.CallFail? {
        var errUpdate := repo.Update(Bare(id, TaskStatusCodec.TaskStatusError));
        return Returned;
      }
      err := repo.Update(TaskResult(id, TaskStatusCodec.TaskStatusDone, outcome.statusCode, outcome.header, outcome.contentLength));
      exit := Returned;
    }

    /**
     * `Execute` with the missing `return` after the `Error` write on a
     * failed request construction: the same records written, and it always returns.
     */
    method ExecuteCorrected(id: string, task: Task, outcome: CallOutcome) returns (exit: Exit)
      requires repo.Valid()
      modifies repo
      ensures repo.Valid()
      ensures repo.data == ExecuteRun(old(repo.data), id, outcome).store
      ensures repo.log == old(repo.log) + ExecuteRun(old(repo.data), id, outcome).written
      ensures exit == Returned
    {
      var err := repo.Update(Bare(id, TaskStatusCodec.TaskStatusInProcess));
      if err.Some? {
        return Returned;
      }
      if outcome.ConstructFail? || outcome.CallFail? {
        var errUpdate := repo.Update(Bare(id, TaskStatusCodec.TaskStatusError));
        return Returned;
      }
      err := repo.Update(TaskResult(id, TaskStatusCodec.TaskStatusDone, outcome.statusCode, outcome.header, outcome.contentLength));
      exit := Returned;
    }
  }
}
