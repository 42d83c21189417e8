/** The value types of package `entity` that the store and the service pass around. */
module TaskEntity {
  import TaskMethodCodec
  import TaskStatusCodec

  /**
   * An `http.Header`: a header name to its ordered values. Go's nil map
   * reads like the empty map, so both are `map[]` here.
   */
  type Header = map<string, seq<string>>

  /** `Task`: the outbound call a client submits (`verb` is the Go field `Method`). */
  datatype Task = Task(verb: TaskMethodCodec.TaskMethod, url: string, headers: map<string, string>)

  /**
   * `TaskResult`: the record the store keeps per task id. `httpStatusCode`,
   * `headers` and `length` are filled only by a received response.
   */
  datatype TaskResult = TaskResult(
    id: string,
    status: TaskStatusCodec.TaskResultStatus,
    httpStatusCode: int,
    headers: Header,
    length: int)

  /** The record with the given id and status and every other field zero. */
  function Bare(id: string, status: TaskStatusCodec.TaskResultStatus): TaskResult {
    TaskResult(id, status, 0, map[], 0)
  }
}
