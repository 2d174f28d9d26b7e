/** The tasks screen's state: the immutable `TaskUiState` snapshot, its
    construction from an outcome envelope, and the view model that holds the
    latest snapshot for the screen. */
module TaskUi {
  import opened Platform
  import opened CoreCommon
  import opened DomainTaskModel
  import opened DataTaskLocal
  import DataTaskRepository

  /** One snapshot of the screen: whether data is awaited, the tasks to show
      and the error text to show, if any. */
  datatype TaskUiState = TaskUiState(isLoading: bool, tasks: seq<Task>, error: Option<string>)

  /** `TaskUiState()` with every property at its declared default. */
  const DefaultState := TaskUiState(false, [], None)

  /** `TaskUiState(isLoading = true)`: what the screen shows before the first
      envelope arrives. */
  const LoadingState := DefaultState.(isLoading := true)

  /** `TaskUiState.from(result)`: a success shows its tasks, a failure shows
      the error's text and no tasks; neither is loading. */
  function From(r: Result<seq<Task>>): (s: TaskUiState)
    ensures !s.isLoading
    ensures s.error.None? <==> r.Success?
    ensures r.Success? ==> s.tasks == r.data
    ensures r.Failure? ==> s.tasks == [] && s.error == Some(ErrorText(r.error))
  {
    match r
    case Success(tasks) => DefaultState.(tasks := tasks)
    case Failure(e) => DefaultState.(error := Some(ErrorText(e)))
  }

  /** A snapshot tells the envelopes apart: two envelopes give the same
      snapshot exactly when they are equal, unless both are `Unknown`
      failures, whose texts depend on how their throwables print. */
  lemma FromSeparatesEnvelopes(r1: Result<seq<Task>>, r2: Result<seq<Task>>)
    requires !(r1.Failure? && r1.error.Unknown? && r2.Failure? && r2.error.Unknown?)
    ensures From(r1) == From(r2) <==> r1 == r2
  {
    if r1.Failure? && r2.Failure? && r1.error != r2.error {
      ErrorTextDistinguishes(r1.error, r2.error);
    }
  }

  /** The snapshot held after the envelopes `rs` arrived, starting from `s`:
      each arrival replaces the held snapshot. */
  function Replay(s: TaskUiState, rs: seq<Result<seq<Task>>>): TaskUiState
    decreases |rs|
  {
    if rs == [] then s else Replay(From(rs[0]), rs[1..])
  }

  /** Once an envelope has arrived, the held snapshot depends only on the
      latest envelope: neither the start nor any earlier envelope shows. */
  lemma {:induction false} ReplayKeepsOnlyLatest(s: TaskUiState, rs: seq<Result<seq<Task>>>)
    requires rs != []
    ensures Replay(s, rs) == From(rs[|rs| - 1])
    decreases |rs|
  {
    if |rs| > 1 {
      ReplayKeepsOnlyLatest(From(rs[0]), rs[1..]);
      assert rs[1..][|rs[1..]| - 1] == rs[|rs| - 1];
    }
  }

  /** The view model: `state` starts at the loading snapshot and is replaced
      by `TaskUiState.from` of each envelope the stream of tasks delivers. */
  class TaskViewModel {
    var state: TaskUiState
    /** Every envelope delivered so far, oldest first. */
    ghost var received: seq<Result<seq<Task>>>

    ghost predicate Valid()
      reads this
    {
      state == Replay(LoadingState, received)
    }

    constructor ()
      ensures Valid() && received == [] && state == LoadingState
    {
      state := LoadingState;
      received := [];
    }

    /** The stream delivers envelope `r`. */
    method Deliver(r: Result<seq<Task>>)
      requires Valid()
      modifies this
      ensures Valid() && received == old(received) + [r]
      ensures state == From(r)
    {
      ReplayKeepsOnlyLatest(LoadingState, received + [r]);
      state := From(r);
      received := received + [r];
    }
  }

  /** When reading the table fails with an I/O error, the screen ends up
      showing no tasks and the text "Network", whatever was shown before. */
  lemma ReadIOFailureShowsNetwork(upstream: FlowRun<seq<TaskEntity>>, message: string)
    requires upstream.thrown == Some(IOFailure(message))
    ensures Replay(LoadingState, DataTaskRepository.GetTasks(upstream)) == TaskUiState(false, [], Some("Network"))
  {
    var rs := DataTaskRepository.GetTasks(upstream);
    ReplayKeepsOnlyLatest(LoadingState, rs);
  }

  /** When the stream has delivered row lists and not failed, the screen shows
      the latest list, each row with its `id`, `title` and `completed` flag,
      in the order the table gave them. */
  lemma LatestRowsReachTheScreen(upstream: FlowRun<seq<TaskEntity>>)
    requires upstream.thrown.None? && upstream.values != []
    ensures var s := Replay(LoadingState, DataTaskRepository.GetTasks(upstream));
      var rows := upstream.values[|upstream.values| - 1];
      && !s.isLoading && s.error.None?
      && |s.tasks| == |rows|
      && forall i | 0 <= i < |rows| ::
           s.tasks[i].id == rows[i].id && s.tasks[i].title == rows[i].title
           && s.tasks[i].completed == rows[i].completed
  {
    var rs := DataTaskRepository.GetTasks(upstream);
    ReplayKeepsOnlyLatest(LoadingState, rs);
  }
}
