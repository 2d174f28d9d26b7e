# TaskHelper task core in Dafny

A model of the data and presentation core of TaskHelper, a small Android to-do app. The model covers these parts:

- **Outcome envelope.** `Result` is either `Success(data)` or `Failure(CoreError)`. It comes with its `map`, and the model proves the functor laws for it. `CoreError` is the closed set of error kinds together with their `toString()` texts.
- **The `tasks` table behind Room.** The model gives the SQL meaning of the DAO's operations:
  - `observeAll` is `ORDER BY id DESC`;
  - `upsert` is `INSERT OR REPLACE`, and an `id` of 0 gets a fresh AUTOINCREMENT key;
  - `setDone`/`setCompleted` is `UPDATE ... WHERE id`;
  - `delete` removes a row by its primary key.

  `RoomTable` holds the part shared by both DAOs. Each DAO is a class whose write methods change the table in place.
- **Older stack.** Its `TaskEntity`/`TaskDao` (`DataLocal`), its domain `Task` (`DomainModel`) and its `TaskRepositoryImpl` (`DataRepository`). The repository's writes hand any failure straight to the caller.
- **Newer stack.** Its `TaskEntity`/`TaskDao` (`DataTaskLocal`), its domain `Task` (`DomainTaskModel`) and its `TaskRepositoryImpl` (`DataTaskRepository`). Here every failure becomes `Failure(toCoreError(t))`: an I/O failure gives `Network`, anything else gives `Database`.
- **Mappers between shapes.** They convert between the row shape, the network shape (`TaskDto`) and the domain shape (`TaskMappers`).
- **The screen's state.** This is `TaskUiState`, its `from` and the view model's held state (`TaskUi`).

A few choices about how the platform is represented:

- Failures from the storage engine are an input to each DAO write: `fault: Option<Throwable>`. A statement that fails changes nothing.
- A `Flow` is represented by what its collector sees: a finite run of values, possibly ending in an exception (`Platform.FlowRun`).
- `Instant.parse` is a parameter, of type `InstantParser`.

## Model

| member | source | states |
|---|---|---|
| CoreCommon.ResultIsOneVariant | app/src/main/java/com/example/taskhelper/core/common/Result.kt:4-10 | every result is exactly one of `Success` and `Failure`, and a failure carries nothing but its error |
| CoreCommon.Map | app/src/main/java/com/example/taskhelper/core/common/Result.kt:20-29 | `map` keeps the variant, applies `transform` to a success's data, and keeps a failure's error unchanged |
| CoreCommon.MapIdentity | app/src/main/java/com/example/taskhelper/core/common/Result.kt:20-29 | mapping the identity gives back the same result |
| CoreCommon.MapComposition | app/src/main/java/com/example/taskhelper/core/common/Result.kt:20-29 | mapping `f` then `g` equals mapping `g ∘ f` once |
| CoreCommon.ErrorText | app/src/main/java/com/example/taskhelper/core/common/CoreError.kt:8-28 | the generated `toString()` of each kind: a data object prints its name, `Validation` prints `Validation(message=…)`, `Unknown` prints `Unknown(throwable=…)` with `null` when there is none |
| CoreCommon.ErrorTextDistinguishes | app/src/main/java/com/example/taskhelper/core/common/CoreError.kt:8-28 | two different error kinds (other than two `Unknown`) have different `toString()` texts |
| RoomTable.AssignedKey | app/src/main/java/com/example/taskhelper/data/local/TaskEntity.kt:27 | an explicit key is kept; key 0 gets one more than the largest key the table ever held, a key no current row has |
| RoomTable.Put | app/src/main/java/com/example/taskhelper/data/local/TaskDao.kt:45-46 | insert-or-replace stores the row under its key, keeps every other row, and raises the AUTOINCREMENT sequence to the key |
| RoomTable.PutRowCount | app/src/main/java/com/example/taskhelper/data/local/TaskDao.kt:45-46 | the row count grows by one for a free key and stays the same for a replaced one |
| RoomTable.DescendingKeys | app/src/main/java/com/example/taskhelper/data/local/TaskDao.kt:32 | the table's keys, each exactly once, in strictly decreasing order |
| RoomTable.RowsDescending | app/src/main/java/com/example/taskhelper/data/local/TaskDao.kt:32-33 | every row exactly once, in the order of its key descending |
| RoomTable.KeyedRowsDescending | app/src/main/java/com/example/taskhelper/data/local/TaskDao.kt:32-33 | when each row carries its key, the rows come out with strictly decreasing keys, each the row stored under its key |
| DataLocal.ObserveAll | app/src/main/java/com/example/taskhelper/data/local/TaskDao.kt:32-33 | returns every row of the table once, each the stored row, sorted by `id` strictly descending |
| DataLocal.NewEntity | app/src/main/java/com/example/taskhelper/data/local/TaskEntity.kt:27-32 | `TaskEntity(title = title)` takes the declared defaults: `id` 0 and `done = false` |
| DataLocal.Upserted | app/src/main/java/com/example/taskhelper/data/local/TaskDao.kt:45-46 | an upsert keeps the table well formed: rows stored under their own `id`, no key above the sequence |
| DataLocal.DoneSet | app/src/main/java/com/example/taskhelper/data/local/TaskDao.kt:56-57 | the update keeps the table well formed |
| DataLocal.Deleted | app/src/main/java/com/example/taskhelper/data/local/TaskDao.kt:67-68 | the delete keeps the table well formed |
| DataLocal.UpsertReplaces | app/src/main/java/com/example/taskhelper/data/local/TaskDao.kt:45-46 | upserting a non-zero `id` stores exactly that entity under it, leaves every other row alone, and adds a row only if the `id` was absent |
| DataLocal.UpsertInsertsFresh | app/src/main/java/com/example/taskhelper/data/local/TaskEntity.kt:27 | upserting `id` 0 inserts the row under a key above every key held so far, with all other rows unchanged and one more row |
| DataLocal.SetDoneChangesOnlyDone | app/src/main/java/com/example/taskhelper/data/local/TaskDao.kt:56-57 | only the `done` field of the row with that `id` changes; an absent `id` leaves the table as it was |
| DataLocal.SetDoneIdempotent | app/src/main/java/com/example/taskhelper/data/local/TaskDao.kt:56-57 | setting `done` twice equals setting it once |
| DataLocal.DeleteByKeyOnly | app/src/main/java/com/example/taskhelper/data/local/TaskDao.kt:67-68 | delete removes exactly the row keyed `e.id`, whatever `e`'s other fields are; an absent key is a no-op |
| DataLocal.TaskDao.constructor | app/src/main/java/com/example/taskhelper/data/local/TaskDao.kt:20-21 | a fresh DAO has an empty table that has never held a key |
| DataLocal.TaskDao.Upsert | app/src/main/java/com/example/taskhelper/data/local/TaskDao.kt:45-46 | a failing statement or an exhausted key space throws (in that order) and changes nothing; otherwise the table becomes `Upserted`, and an `id` 0 row gets a key never used before |
| DataLocal.TaskDao.SetDone | app/src/main/java/com/example/taskhelper/data/local/TaskDao.kt:56-57 | the table becomes `DoneSet` unless the statement fails, in which case it is unchanged |
| DataLocal.TaskDao.Delete | app/src/main/java/com/example/taskhelper/data/local/TaskDao.kt:67-68 | the table becomes `Deleted` unless the statement fails, in which case it is unchanged |
| DataRepository.Observe | app/src/main/java/com/example/taskhelper/data/TaskRepositoryImpl.kt:34-37 | each emitted row becomes `Task(id, title, done)`, with the same length and order; every row of the table appears |
| DataRepository.ObserveRun | app/src/main/java/com/example/taskhelper/data/TaskRepositoryImpl.kt:34-37 | over a whole run of `observeAll`, each emitted list is mapped row by row to `Task(id, title, done)`, and an exception from the table reaches the collector unchanged (no `catch`) |
| DataRepository.ObserveRunOfTable | app/src/main/java/com/example/taskhelper/data/TaskRepositoryImpl.kt:34-37 | a run that emits one table's rows gives exactly `Observe` of that table, followed by the same exception, if any |
| DataRepository.AddToEmptyThenObserve | app/src/main/java/com/example/taskhelper/data/TaskRepositoryImpl.kt:34-47 | after `add(title)` on an empty table, `observe` yields exactly one task: that title, not done, under the next unused key |
| DataRepository.TaskRepositoryImpl.constructor | app/src/main/java/com/example/taskhelper/data/TaskRepositoryImpl.kt:22-23 | the repository works on the DAO it is given |
| DataRepository.TaskRepositoryImpl.Add | app/src/main/java/com/example/taskhelper/data/TaskRepositoryImpl.kt:46-47 | upserts `TaskEntity(title)` with `id` 0 and `done = false`, so on success a new row is always added under a key never used before, which joins the history of used keys; a failure reaches the caller and changes nothing |
| DataRepository.TaskRepositoryImpl.SetDone | app/src/main/java/com/example/taskhelper/data/TaskRepositoryImpl.kt:53-54 | forwards `id` and `done` unchanged to the DAO's update; the history of used keys is unchanged |
| DataRepository.TaskRepositoryImpl.Remove | app/src/main/java/com/example/taskhelper/data/TaskRepositoryImpl.kt:65-66 | deletes exactly the row keyed `id`, through a placeholder entity; the history of used keys is unchanged |
| DataTaskLocal.ObserveAll | app/src/main/java/com/example/taskhelper/data/task/TaskRepositoryImpl.kt:35 | returns every row of the table once, each the stored row, sorted by `id` strictly descending |
| DataTaskLocal.NewEntity | app/src/main/java/com/example/taskhelper/data/task/local/TaskEntity.kt:25-28 | `TaskEntity(title = title)` takes the declared defaults: `id` 0, `completed = false` and no creation time |
| DataTaskLocal.Upserted | app/src/main/java/com/example/taskhelper/data/task/TaskRepositoryImpl.kt:52 | an upsert keeps the table well formed |
| DataTaskLocal.CompletedSet | app/src/main/java/com/example/taskhelper/data/task/TaskRepositoryImpl.kt:68 | the update keeps the table well formed |
| DataTaskLocal.Deleted | app/src/main/java/com/example/taskhelper/data/task/TaskRepositoryImpl.kt:84 | the delete keeps the table well formed |
| DataTaskLocal.UpsertInsertsFresh | app/src/main/java/com/example/taskhelper/data/task/local/TaskEntity.kt:25 | upserting `id` 0 inserts the row under a key above every key held so far, with all other rows unchanged and one more row |
| DataTaskLocal.SetCompletedChangesOnlyCompleted | app/src/main/java/com/example/taskhelper/data/task/TaskRepositoryImpl.kt:68 | only the `completed` field of the row with that `id` changes; an absent `id` leaves the table as it was |
| DataTaskLocal.SetCompletedIdempotent | app/src/main/java/com/example/taskhelper/data/task/TaskRepositoryImpl.kt:68 | setting `completed` twice equals setting it once |
| DataTaskLocal.DeleteByKeyOnly | app/src/main/java/com/example/taskhelper/data/task/TaskRepositoryImpl.kt:84 | delete removes exactly the row keyed `e.id`, whatever `e`'s other fields are, keeps every other row and the sequence; an absent key is a no-op |
| DataTaskLocal.TaskDao.constructor | app/src/main/java/com/example/taskhelper/data/task/TaskRepositoryImpl.kt:24 | a fresh DAO has an empty table that has never held a key |
| DataTaskLocal.TaskDao.Upsert | app/src/main/java/com/example/taskhelper/data/task/TaskRepositoryImpl.kt:52 | a failing statement or an exhausted key space throws and changes nothing; otherwise the table becomes `Upserted`, and an `id` 0 row gets a key never used before |
| DataTaskLocal.TaskDao.SetCompleted | app/src/main/java/com/example/taskhelper/data/task/TaskRepositoryImpl.kt:68 | the table becomes `CompletedSet` unless the statement fails, in which case it is unchanged |
| DataTaskLocal.TaskDao.Delete | app/src/main/java/com/example/taskhelper/data/task/TaskRepositoryImpl.kt:84 | the table becomes `Deleted` unless the statement fails, in which case it is unchanged |
| DataTaskRepository.ToDomain | app/src/main/java/com/example/taskhelper/data/task/TaskRepositoryImpl.kt:96-102 | `id`, `title` and `completed` are copied exactly; no creation time is set |
| DataTaskRepository.ToCoreError | app/src/main/java/com/example/taskhelper/data/task/TaskRepositoryImpl.kt:109-114 | `Network` exactly for an I/O failure, `Database` exactly for every other failure |
| DataTaskRepository.ToCoreErrorIsCoarse | app/src/main/java/com/example/taskhelper/data/task/TaskRepositoryImpl.kt:109-114 | `NotFound`, `Validation` and `Unknown` are never produced |
| DataTaskRepository.TasksOf | app/src/main/java/com/example/taskhelper/data/task/TaskRepositoryImpl.kt:36-37 | an emission is a `Success` of the entity list mapped element by element, with the same length and order |
| DataTaskRepository.GetTasks | app/src/main/java/com/example/taskhelper/data/task/TaskRepositoryImpl.kt:34-43 | one `Success` per upstream list, in order; an upstream exception adds exactly one final `Failure(toCoreError(t))`; no failure appears anywhere else |
| DataTaskRepository.AddToEmptyThenGetTasks | app/src/main/java/com/example/taskhelper/data/task/TaskRepositoryImpl.kt:34-56 | after `addTask(title)` on an empty table, the next emission is `Success` of exactly one task: that title, not completed, under the next unused key |
| DataTaskRepository.Completion | app/src/main/java/com/example/taskhelper/data/task/TaskRepositoryImpl.kt:53-56 | `Success(Unit)` exactly when the DAO call returned, else `Failure` of the classified error |
| DataTaskRepository.TaskRepositoryImpl.constructor | app/src/main/java/com/example/taskhelper/data/task/TaskRepositoryImpl.kt:23-26 | the repository works on the DAO it is given |
| DataTaskRepository.TaskRepositoryImpl.AddTask | app/src/main/java/com/example/taskhelper/data/task/TaskRepositoryImpl.kt:49-57 | upserts `TaskEntity(title)` with `id` 0, not completed and no time; `Success(Unit)` exactly when the upsert succeeded, which then adds one row, else `Failure(toCoreError(t))` with the table unchanged; on success the new key was never used before and joins the history of used keys |
| DataTaskRepository.TaskRepositoryImpl.SetTaskCompleted | app/src/main/java/com/example/taskhelper/data/task/TaskRepositoryImpl.kt:64-73 | forwards `id` and `completed` unchanged, under the same success/failure rule; the DAO's history of used keys is unchanged |
| DataTaskRepository.TaskRepositoryImpl.RemoveTask | app/src/main/java/com/example/taskhelper/data/task/TaskRepositoryImpl.kt:80-89 | deletes exactly the row keyed `id` (placeholder title `""`, not completed), under the same success/failure rule; the DAO's history of used keys is unchanged |
| TaskMappers.EntityToDomain | app/src/main/java/com/example/taskhelper/data/task/mapper/TaskMappers.kt:12-20 | copies `id`, `title` and `completed`; no stored time gives no `createdAt`, a stored time gives the instant at those whole seconds; it throws exactly when the seconds lie outside `Instant`'s range |
| TaskMappers.DtoToEntity | app/src/main/java/com/example/taskhelper/data/task/mapper/TaskMappers.kt:24-36 | copies `id`, `title` and `completed`; the stored time is present exactly when the text is present and parses, and then it is the parsed instant's epoch seconds; it never fails |
| TaskMappers.DtoToDomain | app/src/main/java/com/example/taskhelper/data/task/mapper/TaskMappers.kt:40-52 | copies `id`, `title` and `completed`; `createdAt` is present exactly when the text is present and parses, and then it is the parsed instant |
| TaskMappers.WholeSeconds | app/src/main/java/com/example/taskhelper/data/task/mapper/TaskMappers.kt:17-19 | an instant truncated to its epoch seconds; it equals the instant exactly when that has no fraction of a second |
| TaskMappers.DtoThroughEntityMatchesDirect | app/src/main/java/com/example/taskhelper/data/task/mapper/TaskMappers.kt:12-52 | `dto.toEntity().toDomain()` never throws, and agrees with `dto.toDomain()` on `id`, `title`, `completed` and on whether there is a time; the time is the direct one truncated to whole seconds |
| TaskMappers.DtoRoutesAgreeIffWholeSeconds | app/src/main/java/com/example/taskhelper/data/task/mapper/TaskMappers.kt:12-52 | the two routes give the same task exactly when the parsed time, if any, has no fraction of a second |
| TaskMappers.RepositoryProjectionDropsCreatedAt | app/src/main/java/com/example/taskhelper/data/task/TaskRepositoryImpl.kt:96-102 | the repository's private projection equals the mapper's result with `createdAt` cleared, and so differs from it exactly when the row stores a time |
| TaskUi.From | app/src/main/java/com/example/taskhelper/ui/task/TaskViewModel.kt:27-37 | never loading; `error` is absent exactly for a success; a success shows its list, a failure shows no tasks and the error's `toString()` |
| TaskUi.FromSeparatesEnvelopes | app/src/main/java/com/example/taskhelper/ui/task/TaskViewModel.kt:34-37 | two envelopes give the same snapshot exactly when they are equal (unless both are `Unknown` failures) |
| TaskUi.ReplayKeepsOnlyLatest | app/src/main/java/com/example/taskhelper/ui/task/TaskViewModel.kt:48-49 | after at least one envelope, the held snapshot is `from` of the latest envelope alone |
| TaskUi.TaskViewModel.constructor | app/src/main/java/com/example/taskhelper/ui/task/TaskViewModel.kt:50-54 | before any envelope the state is the loading sentinel `{isLoading = true, tasks = [], error = null}` |
| TaskUi.TaskViewModel.Deliver | app/src/main/java/com/example/taskhelper/ui/task/TaskViewModel.kt:48-49 | each delivered envelope replaces the state with `from` of it, keeping the state the replay of all envelopes so far |
| TaskUi.ReadIOFailureShowsNetwork | app/src/main/java/com/example/taskhelper/ui/task/TaskViewModel.kt:34-49 | when reading the table throws an I/O failure, the screen ends at `{isLoading = false, tasks = [], error = "Network"}` |
| TaskUi.LatestRowsReachTheScreen | app/src/main/java/com/example/taskhelper/ui/task/TaskViewModel.kt:34-49 | while the stream has not failed, the screen shows the latest row list with each row's `id`, `title` and `completed`, in table order |

## Left out

- Dependency-injection modules, the application class, the Compose screens, navigation and `MainActivity`: configuration and rendering, with no behaviour of the core.
- The network clients (`TaskApi`, `ApiService`, Retrofit/OkHttp/Moshi), `UserPrefs` and `AppDatabase`: library I/O. Only `TaskDto`'s shape is used, as the mappers' input.
- `GetTasksUseCase` forwards `repository.getTasks()` unchanged. The view-model lemmas consume `DataTaskRepository.GetTasks` directly.
- Dispatchers and `withContext(dispatchers.iO)`: each write is one sequential method.
- The `stateIn(WhileSubscribed(5_000))` sharing, the 5-second teardown and resubscription, and `StateFlow` conflation: timing and concurrency. `TaskUi` models only the held state.
- `Instant.parse` is a parameter; its ISO-8601 grammar is not modelled. `Instant` is a pair of epoch seconds and nanoseconds, kept within `Instant.MIN`/`Instant.MAX`.
- The storage engine's own failures (disk, I/O, constraint errors) are the `fault` input of each DAO write, not something derived from the table.
- The one failure derived from the table is SQLITE_FULL, when a fresh key is asked for after key `Long.MAX_VALUE` was used. The exception's message text is representative only.
- The newer stack's `data.task.local.TaskDao` and `domain.task.model.Task` are not part of this model's sources. Their operations and fields are inferred from the repository's and the mappers' calls. The DAO is given the same SQL meaning as the older DAO, with `completed` in place of `done`.
- A `Flow` is a finite run seen by one collector (`FlowRun`): `DataRepository.ObserveRun` and `DataTaskRepository.GetTasks` work on such runs. Which lists the table emits as it changes over time is not derived from the writes; `DataRepository.Observe` and `DataTaskLocal.ObserveAll` give one emission for one table state.
- `ErrorText` renders an `Unknown` error's throwable only by its description, so two `Unknown` errors may print alike. `TaskUi.FromSeparatesEnvelopes` excludes that case.
