# Task lifecycle of an asynchronous HTTP request aggregator

Clients submit an outbound HTTP call (verb, URL, headers). The aggregator
hands back a task id at once and makes the call in the background. Later the
client polls for the outcome by that id: a status and, when a response
arrived, its status code, header multimap and body length.

This project models the core of that system in Dafny:

- `wire.dfy` (module `Wire`): Go bytes as `byte`, `bytes.CutPrefix` and
  `bytes.CutSuffix` with a one-byte affix, the `(value, error)` wrappers, and
  the sentinel errors of the core as one datatype.
- `task_method.dfy` (module `TaskMethodCodec`): the `TaskMethod` enum (nine
  HTTP verbs numbered 0..8: the methods of section 4.3 of RFC 7231 and PATCH
  from RFC 5789) and its JSON codec.
- `task_result_status.dfy` (module `TaskStatusCodec`): the `TaskResultStatus`
  enum (`new`, `in_process`, `error`, `done`, numbered 1..4) and its JSON codec.
- `task_result.dfy` (module `TaskEntity`): the `Task` and `TaskResult` records.
- `task_inmemory_repository.dfy` (module `InMemoryRepository`): the store. The
  pure functions `Created`, `Lookup` and `Replaced` give the effect of each
  operation on the map. The class `TaskInMemoryRepository` holds the `data`
  map and applies them in its methods; a ghost `log` lists every record a
  successful `Update` stored, in order. Together with the `New` record
  `Create` stores, which `Created` gives, these are what a poll can observe.
- `service.dfy` (module `TaskService`): the lifecycle engine. The function
  `ExecuteRun` gives the records one run of `Execute` stores and the map it
  leaves. The class `Service` holds the store; its `Execute` method follows
  the source step by step, and its contract ties the store's `log` and map
  to `ExecuteRun`.

Both codec enums are Go `int` types, so the model keeps them as integers and
keeps the range checks of `MarshalJSON`; values outside the named range are
representable and rejected. A `TaskResult`'s nil header map reads like an
empty one, so both are `map[]`. The outbound call is an input: a
`CallOutcome` of `ConstructFail` (the request could not be built),
`CallFail` (sending failed, a passed deadline included) or
`Response(code, header, length)`. The id `uuid.New()` draws is a parameter
`uuid` of `Create` and `AddTask`, required not to be a key yet.

## Model

| member | source | states |
|---|---|---|
| `Wire.CutPrefix` | internal/task/entity/task_method.go:32-35 | the cut succeeds exactly when the input starts with the byte, and then quote ++ rest is the input; otherwise the input comes back unchanged |
| `Wire.CutSuffix` | internal/task/entity/task_method.go:37-40 | the cut succeeds exactly when the input ends with the byte, and then rest ++ quote is the input; otherwise the input comes back unchanged |
| `Wire.CutQuoted` | internal/task/entity/task_method.go:75-79 | cutting the leading and then the trailing quote off a quoted body gives the body back |
| `TaskMethodCodec.String` | internal/task/entity/task_method.go:84-109 | the name is empty exactly for values outside MethodGet..MethodTrace; it is upper-case ASCII |
| `TaskMethodCodec.StringInjective` | internal/task/entity/task_method.go:84-109 | two different named methods have different names, as text and as bytes |
| `TaskMethodCodec.MarshalJSON` | internal/task/entity/task_method.go:70-82 | ErrInvalidMethod exactly for values below MethodGet or above MethodTrace; otherwise a text that starts and ends with a quote and holds String() between them |
| `TaskMethodCodec.FromToken` | internal/task/entity/task_method.go:42-63 | a found method is named and its name's bytes are exactly the looked-up bytes |
| `TaskMethodCodec.FromTokenOfString` | internal/task/entity/task_method.go:42-63 | the lookup finds every named method from its own name |
| `TaskMethodCodec.UnmarshalJSON` | internal/task/entity/task_method.go:29-68 | ErrPrefixNotFound exactly when the first byte is not a quote; ErrSuffixNotFound exactly when it is but no second, trailing quote follows; on every error the receiver keeps its value; on success the receiver is a named method whose marshalled text is the input |
| `TaskMethodCodec.RoundTrip` | internal/task/entity/task_method.go:29-82 | for every named method and any receiver, unmarshalling the marshalled text succeeds and yields the method |
| `TaskMethodCodec.UnmarshalAcceptsExactlyMarshalled` | internal/task/entity/task_method.go:29-82 | unmarshalling succeeds if and only if the input is the marshalled text of some named method |
| `TaskMethodCodec.UnmarshalRejectsUnknownToken` | internal/task/entity/entity_test/task_method_test.go:246-253 | quoted text that is none of the nine names gives ErrInvalidMethod and leaves the receiver unchanged |
| `TaskMethodCodec.LowerCaseRejected` | internal/task/entity/task_method.go:42-63 | the lookup is case-sensitive: the lower-case spelling of each of the nine tokens (`"get"`, `"head"`, ...) gives ErrInvalidMethod and leaves the receiver unchanged |
| `TaskStatusCodec.ZeroIsInvalid` | internal/task/entity/task_result_status.go:10-15 | the zero value is not a status; the valid values are exactly New, InProcess, Error and Done |
| `TaskStatusCodec.String` | internal/task/entity/task_result_status.go:64-79 | the name is empty exactly for values outside 1..4; it is lower-case ASCII letters and underscores |
| `TaskStatusCodec.StringInjective` | internal/task/entity/task_result_status.go:64-79 | two different statuses have different names, as text and as bytes |
| `TaskStatusCodec.MarshalJSON` | internal/task/entity/task_result_status.go:50-62 | ErrInvalidStatus exactly for values outside 1..4, zero included; otherwise String() between two quotes |
| `TaskStatusCodec.FromName` | internal/task/entity/task_result_status.go:32-43 | a found status is valid and its name's bytes are exactly the looked-up bytes |
| `TaskStatusCodec.FromNameOfString` | internal/task/entity/task_result_status.go:32-43 | the lookup finds every status from its own name |
| `TaskStatusCodec.UnmarshalJSON` | internal/task/entity/task_result_status.go:19-48 | ErrPrefixNotFound exactly when the first byte is not a quote; ErrSuffixNotFound exactly when it is but no trailing quote follows; the receiver is unchanged on every error; on success it is a valid status whose marshalled text is the input |
| `TaskStatusCodec.RoundTrip` | internal/task/entity/task_result_status.go:19-62 | for every valid status and any receiver, unmarshalling the marshalled text yields the status |
| `TaskStatusCodec.UnmarshalAcceptsExactlyMarshalled` | internal/task/entity/task_result_status.go:19-62 | unmarshalling succeeds if and only if the input is the marshalled text of a valid status |
| `TaskStatusCodec.UnmarshalRejectsUnknownName` | internal/task/entity/task_result_status.go:41-45 | quoted text that is none of the four names gives ErrInvalidStatus and leaves the receiver unchanged |
| `TaskStatusCodec.NilInputHasNoPrefix` | internal/task/entity/entity_test/task_result_status_test.go:156-163 | a nil input gives ErrPrefixNotFound and leaves the receiver unchanged |
| `InMemoryRepository.Created` | internal/task/repository/task_inmemory_repository.go:23-38 | the key set gains exactly the new id, and the map grows by one when the id was fresh; the record under it has that id, status New and every other field zero; every earlier entry is unchanged; records stay under their own ids |
| `InMemoryRepository.Lookup` | internal/task/repository/task_inmemory_repository.go:40-50 | the stored record when the id is a key, ErrNotFound otherwise |
| `InMemoryRepository.Replaced` | internal/task/repository/task_inmemory_repository.go:52-64 | ErrNotFound and an unchanged map exactly when the id is absent; otherwise the whole record under the id becomes the given one; the key set and every other entry are unchanged |
| `InMemoryRepository.KeysNeverShrink` | internal/task/repository/task_inmemory_repository.go:23-64 | after any sequence of creates and updates, every earlier key is still present, and every new key is an id some create drew |
| `InMemoryRepository.ConsistencyPreserved` | internal/task/repository/task_inmemory_repository.go:23-64 | any sequence of creates and updates keeps every record stored under its own id |
| `InMemoryRepository.OtherKeysUntouched` | internal/task/repository/task_inmemory_repository.go:23-64 | operations about other ids leave an id's presence and record as they were |
| `InMemoryRepository.UpdatesOnDistinctIdsCommute` | internal/task/repository/task_inmemory_repository.go:52-64 | updates of two different ids give the same map in either order |
| `InMemoryRepository.TaskInMemoryRepository.constructor` | internal/task/repository/task_inmemory_repository.go:19-21 | a new repository holds the empty map and has stored no record yet |
| `InMemoryRepository.TaskInMemoryRepository.Create` | internal/task/repository/task_inmemory_repository.go:23-38 | never fails; returns the drawn id; the map becomes `Created` of the old one, so it gains exactly that key; no `Update` write is recorded |
| `InMemoryRepository.TaskInMemoryRepository.GetByID` | internal/task/repository/task_inmemory_repository.go:40-50 | reads only; returns what `Lookup` gives for the map (the stored record, whose id is the key, or ErrNotFound) |
| `InMemoryRepository.TaskInMemoryRepository.Update` | internal/task/repository/task_inmemory_repository.go:52-64 | succeeds exactly when the id was a key; the new map and the error are those of `Replaced`; the key set is unchanged; a successful write appends the record to the log of stored records, a failed one appends nothing |
| `TaskService.TerminalIsFinal` | internal/task/service/service.go:41-99 | no transition leaves Error or Done, none enters New, and none stays in place |
| `TaskService.TerminalRecord` | internal/task/service/service.go:73-94 | the last record a run writes has the task's id and a terminal status, Done exactly for a received response |
| `TaskService.ExecuteRun` | internal/task/service/service.go:41-99 | a run writes two records when the id is a key and none otherwise, every one about the run's id; the key set is unchanged and records stay under their own ids |
| `TaskService.ExitAsWritten` | internal/task/service/service.go:54-73 | the goroutine as written panics only after storing InProcess and then Error, so the record left for a poll is Error |
| `TaskService.ExecuteIsItsUpdates` | internal/task/service/service.go:41-99 | a run's store is its listed records applied one by one as updates, and every listed record has the run's id |
| `TaskService.ExecuteTouchesOnlyItsId` | internal/task/service/service.go:41-99 | a run keeps the key set and every other task's record |
| `TaskService.ExecuteStore` | internal/task/service/service.go:41-99 | after a run the terminal record replaces the task's entry if there is one, and the map is otherwise the same |
| `TaskService.ExecuteFinalRecord` | internal/task/service/service.go:45-94 | an absent id gets no writes; a present id gets InProcess (other fields zero) then the terminal record, which stays: {id, Error} with zero fields after a failure, {id, Done, code, headers, length} after a response |
| `TaskService.ExecuteMovesForward` | internal/task/service/service.go:41-99 | started on a New record, the statuses go New, InProcess, then Error or Done, each step a transition, ending terminal |
| `TaskService.SubmitThenExecute` | internal/task/service/service.go:30-99 | after a submit a fetch of the new id sees New; after its run the fetch sees the terminal record; statuses form the lifecycle; every other task is unchanged; records stay under their own ids |
| `TaskService.DistinctRunsCommute` | internal/task/service/service.go:41-99 | runs for two different tasks give the same map in either order, and each task keeps its own run's terminal record |
| `TaskService.ConstructFailureStoresErrorThenPanics` | internal/task/service/service.go:54-73 | as written, after a failed request construction Error is stored and the goroutine then panics |
| `TaskService.Service.constructor` | internal/task/service/service.go:17-19 | the service uses the given store |
| `TaskService.Service.GetTaskResult` | internal/task/service/service.go:21-28 | returns what `Lookup` gives for the store's map: the record when the id is a key, ErrNotFound otherwise |
| `TaskService.Service.AddTask` | internal/task/service/service.go:30-38 | returns the id the store's Create drew and no error; the map gains exactly the New record for it; no `Update` write is logged |
| `TaskService.Service.Execute` | internal/task/service/service.go:41-99 | the records stored, in order, are exactly `ExecuteRun`'s list (InProcess, then the terminal record; nothing after a failed first write) and the map ends as `ExecuteRun` says; the goroutine panics exactly when the id was present and the request could not be built |
| `TaskService.Service.ExecuteCorrected` | internal/task/service/service.go:41-99 | the same records stored in the same order and the same final map as `Execute`, and it always returns |

## Left out

- The `sync.RWMutex` of the store and the `go s.Execute(taskID, task)` spawn: the store is sequential. `AddTask` stops after `Create`; its goroutine is the separate `Execute`. Interleavings are covered only at the level of whole operations (`OtherKeysUntouched`, `DistinctRunsCommute`).
- `uuid.New()`: a random generator. Its value is the parameter `uuid`, which must not already be a key.
- `http.NewRequestWithContext`, `req.Header.Add`, `http.Client.Do`, `context.WithTimeout` and `res.Body.Close`: network I/O. Their combined result is the `CallOutcome` input, so the task's method, URL and headers and the service's timeout do not influence the model.
- `log.Println`: no effect on the store.
- The `ctx` parameters of the store methods: the in-memory store ignores them.
- Go integer widths: `HTTPStatusCode` (`int`) and `Length` (`int64`) are only copied, never computed, so they are unbounded integers here.
- The HTTP ingress (handler.go, router.go: JSON decoding of `Task`, encoding of `TaskResult` with `omitempty`, the `uuid.Parse` check, status codes) and cmd/main.go (configuration, start, shutdown).
- TaskService.ExecuteMovesForward: assumes the run starts on a `New` record. `AddTask` starts one run per id, right after `Create`; a second run on the same id, which the source never starts, would write InProcess over a terminal record.
- The `Repository` interface that `Service.repo` has in Go: the model fixes it to `TaskInMemoryRepository`, whose `Create` never fails and whose `Update` fails only on an absent id. So `AddTask`'s `return "", err` branch never runs in the model, and once the first `Update` of `Execute` succeeded the later ones succeed too, so their log-only failure branches never run either.
- What happens after the panic: an unrecovered panic in a goroutine ends the whole process, and with it the in-memory store. The model stops at `Panicked`.

## Findings

| source | as written | input that shows it | evidently intended | confidence | as-written member | corrected member |
|---|---|---|---|---|---|---|
| internal/task/service/service.go:54-73 | when `http.NewRequestWithContext` fails, `Execute` stores Error and, if that write succeeds, does not return: it goes on to `req.Header.Add` and `client.Do` with a nil request and panics | submit `{"method": "GET", "url": "::", "headers": {}}`: the URL does not parse, Error is stored, then `client.Do(nil)` dereferences nil | store Error and return, as the update-failure branch right above does | high, not executed | `TaskService.Service.Execute` | `TaskService.Service.ExecuteCorrected` |
