/**
 * `TaskInMemoryRepository`: a map from task id to `TaskResult` with
 * `Create`, `GetByID` and `Update`. The functions below give the effect of
 * each operation on the map; the class applies them to its `data` field.
 */
module InMemoryRepository {
  import opened Wire
  import opened TaskEntity
  import TaskStatusCodec

  /** The repository's `data` map. */
  type Store = map<string, TaskResult>

  /** Every record is stored under its own id. */
  predicate Consistent(data: Store) {
    forall k | k in data :: data[k].id == k
  }

  /**
   * The map after `Create` stored the record it builds for `id`: status
   * `New`, every other field zero. Every earlier entry is kept.
   */
  function Created(data: Store, id: string): (d: Store)
    ensures d.Keys == data.Keys + {id}
    ensures id !in data ==> |d| == |data| + 1
    ensures d[id].id == id && d[id].status == TaskStatusCodec.TaskStatusNew
    ensures d[id].httpStatusCode == 0 && d[id].headers == map[] && d[id].length == 0
    ensures forall k | k in data && k != id :: d[k] == data[k]
    ensures Consistent(data) ==> Consistent(d)
  {
    var d := data[id := Bare(id, TaskStatusCodec.TaskStatusNew)];
    if id in data then d
    else
      assert d.Keys == data.Keys + {id};
      assert |d.Keys| == |data.Keys + {id}| == |data.Keys| + 1;
      d
  }

  /** What `GetByID` returns: the stored record, or `ErrNotFound` when the id is absent. */
  function Lookup(data: Store, id: string): (r: Result<TaskResult, Error>)
    ensures r.Ok? <==> id in data
    ensures r.Ok? ==> r.value == data[id]
    ensures r.Err? ==> r.error == NotFound
  {
    if id in data then Ok(data[id]) else Err(NotFound)
  }

  /**
   * The map and the error after `Update(res)`: `ErrNotFound` and no change
   * when `res.id` is absent; otherwise the whole record under `res.id` is
   * replaced by `res` (no merge of fields) and nothing else changes.
   */
  function Replaced(data: Store, res: TaskResult): (r: (Store, Option<Error>))
    ensures r.1.None? <==> res.id in data
    ensures r.1.Some? ==> r.1.value == NotFound && r.0 == data
    ensures r.0.Keys == data.Keys
    ensures res.id in data ==> r.0[res.id] == res
    ensures forall k | k in data && k != res.id :: r.0[k] == data[k]
    ensures Consistent(data) ==> Consistent(r.0)
  {
    if res.id !in data then (data, Some(NotFound))
    else (data[res.id := res], None)
  }

  /** One mutation of the map: a `Create` with the id it drew, or an `Update`. */
  datatype StoreOp = CreateOp(uuid: string) | UpdateOp(res: TaskResult)

  /** The id an operation is about. */
  function Key(op: StoreOp): string {
    match op
    case CreateOp(uuid) => uuid
    case UpdateOp(res) => res.id
  }

  function Apply(data: Store, op: StoreOp): Store {
    match op
    case CreateOp(uuid) => Created(data, uuid)
    case UpdateOp(res) => Replaced(data, res).0
  }

  /** The map after a sequence of operations, first to last. */
  function ApplyAll(data: Store, ops: seq<StoreOp>): Store
    decreases |ops|
  {
    if ops == [] then data else ApplyAll(Apply(data, ops[0]), ops[1..])
  }

  /** No operation deletes: the key set never shrinks and can only gain the ids `Create` drew. */
  lemma {:induction false} KeysNeverShrink(data: Store, ops: seq<StoreOp>)
    ensures data.Keys <= ApplyAll(data, ops).Keys
    ensures forall k | k in ApplyAll(data, ops) :: k in data || exists j | 0 <= j < |ops| :: ops[j] == CreateOp(k)
    decreases |ops|
  {
    if ops != [] {
      var d1 := Apply(data, ops[0]);
      KeysNeverShrink(d1, ops[1..]);
      forall k | k in ApplyAll(data, ops)
        ensures k in data || exists j | 0 <= j < |ops| :: ops[j] == CreateOp(k)
      {
        if k !in data {
          if k in d1 {
            assert ops[0] == CreateOp(k);
          } else {
            var j :| 0 <= j < |ops[1..]| && ops[1..][j] == CreateOp(k);
            assert ops[j + 1] == CreateOp(k);
          }
        }
      }
    }
  }

  /** Every record stays stored under its own id, whatever the operations. */
  lemma {:induction false} ConsistencyPreserved(data: Store, ops: seq<StoreOp>)
    requires Consistent(data)
    ensures Consistent(ApplyAll(data, ops))
    decreases |ops|
  {
    if ops != [] {
      ConsistencyPreserved(Apply(data, ops[0]), ops[1..]);
    }
  }

  /**
   * Operations about other ids leave an id's entry as it was: present with
   * the same record, or absent.
   */
  lemma {:induction false} OtherKeysUntouched(data: Store, ops: seq<StoreOp>, id: string)
    requires forall j | 0 <= j < |ops| :: Key(ops[j]) != id
    ensures id in ApplyAll(data, ops) <==> id in data
    ensures id in data ==> ApplyAll(data, ops)[id] == data[id]
    decreases |ops|
  {
    if ops != [] {
      assert Key(ops[0]) != id;
      OtherKeysUntouched(Apply(data, ops[0]), ops[1..], id);
    }
  }

  /** Updates of two different ids commute. */
  lemma UpdatesOnDistinctIdsCommute(data: Store, a: TaskResult, b: TaskResult)
    requires a.id != b.id
    ensures Replaced(Replaced(data, a).0, b).0 == Replaced(Replaced(data, b).0, a).0
  {
  }

  /** `NewTaskInMemoryRepository`, `Create`, `GetByID` and `Update` over the `data` field. */
  class TaskInMemoryRepository {
    var data: Store
    /** The records `Update` has stored so far, in order; a poll can observe each of them. */
    ghost var log: seq<TaskResult>

    ghost predicate Valid()
      reads this
    {
      Consistent(data)
    }

    /** `NewTaskInMemoryRepository`: an empty map. */
    constructor ()
      ensures Valid() && data == map[] && log == []
    {
      data := map[];
      log := [];
    }

    /**
     * `Create`: `uuid` is the value `uuid.New()` drew, which is not yet a
     * key. Stores the `New` record under it and returns it; never fails.
     */
    method Create(task: Task, uuid: string) returns (r: Result<string, Error>)
      requires Valid()
      requires uuid !in data
      modifies this
      ensures Valid()
      ensures r == Ok(uuid)
      ensures data == Created(old(data), uuid)
      ensures data.Keys == old(data.Keys) + {uuid} && |data| == old(|data|) + 1
      ensures log == old(log)
    {
      var newTask := Bare(uuid, TaskStatusCodec.TaskStatusNew);
      data := data[newTask.id := newTask];
      r := Ok(newTask.id);
    }

    /** `GetByID`: the stored record, or `ErrNotFound`; the map is only read. */
    method GetByID(id: string) returns (r: Result<TaskResult, Error>)
      ensures r == Lookup(data, id)
      ensures Valid() && r.Ok? ==> r.value.id == id
    {
      if id !in data {
        return Err(NotFound);
      }
      r := Ok(data[id]);
    }

    /**
     * `Update`: `ErrNotFound` and no change when `res.id` is not a key;
     * otherwise the whole record under `res.id` becomes `res`.
     */
    method Update(res: TaskResult) returns (err: Option<Error>)
      requires Valid()
      modifies this
      ensures Valid()
      ensures (data, err) == Replaced(old(data), res)
      ensures err.None? <==> res.id in old(data)
      ensures data.Keys == old(data.Keys)
      ensures log == old(log) + (if err.None? then [res] else [])
    {
      if res.id !in data {
        return Some(NotFound);
      }
      data := data[res.id := res];
      log := log + [res];
      err := None;
    }
  }
}
