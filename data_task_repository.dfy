/** The newer stack's domain record, `domain.task.model.Task`. Its
    declaration is not part of this model: the fields are those its
    constructors are called with, and `createdAt` defaults to `null`
    because the repository builds a `Task` without it. */
module DomainTaskModel {
  import opened Platform

  datatype Task = Task(id: Long, title: string, completed: bool, createdAt: Option<Instant>)
}

/** The newer stack's repository: reads and writes the table through the DAO
    and turns every exception into a `Failure` carrying a `CoreError`, so no
    raw exception reaches its callers. */
module DataTaskRepository {
  import opened Platform
  import opened CoreCommon
  import opened RoomTable
  import opened DataTaskLocal
  import opened DomainTaskModel

  /** The private `toDomain`: `id`, `title` and `completed` are copied;
      `createdAt` is left at its default. */
  function ToDomain(e: TaskEntity): (t: Task)
    ensures t.id == e.id && t.title == e.title && t.completed == e.completed
    ensures t.createdAt == None
  {
    Task(e.id, e.title, e.completed, None)
  }

  /** The private `toCoreError`: an `IOException` is a network error,
      everything else a database error. */
  function ToCoreError(t: Throwable): (e: CoreError)
    ensures e == Network <==> t.IOFailure?
    ensures e == Database <==> !t.IOFailure?
  {
    match t
    case IOFailure(_) => Network
    case OtherFailure(_) => Database
  }

  /** The finer kinds `NotFound`, `Validation` and `Unknown` are never
      produced here. */
  lemma ToCoreErrorIsCoarse(t: Throwable)
    ensures !ToCoreError(t).NotFound? && !ToCoreError(t).Validation? && !ToCoreError(t).Unknown?
  {
  }

  /** One emission of the DAO, as `getTasks` delivers it: the entity list
      mapped element by element, wrapped in `Success`. */
  function TasksOf(entities: seq<TaskEntity>): (r: Result<seq<Task>>)
    ensures r.Success? && |r.data| == |entities|
    ensures forall i | 0 <= i < |entities| :: r.data[i] == ToDomain(entities[i])
  {
    Success(MapList(entities, ToDomain))
  }

  /** `getTasks()` over a run of `observeAll()`: one `Success` per emitted
      entity list, in order, and, if the upstream threw, one final `Failure`
      carrying the classified error. */
  function GetTasks(upstream: FlowRun<seq<TaskEntity>>): (r: seq<Result<seq<Task>>>)
    ensures |r| == |upstream.values| + (if upstream.thrown.Some? then 1 else 0)
    ensures forall i | 0 <= i < |upstream.values| :: r[i] == TasksOf(upstream.values[i])
    ensures upstream.thrown.Some? ==> r[|r| - 1] == Failure(ToCoreError(upstream.thrown.value))
    ensures forall i | 0 <= i < |r| :: r[i].Failure? ==> i == |r| - 1 && upstream.thrown.Some?
  {
    var emitted := MapList(upstream.values, TasksOf);
    match upstream.thrown
    case None => emitted
    case Some(t) => emitted + [Failure(ToCoreError(t))]
  }

  /** After `addTask(title)` on a table with no rows, the next emission of
      `getTasks` is a success holding exactly one task: that title, not
      completed, under the first key the table has not used. */
  lemma AddToEmptyThenGetTasks(t: TaskTable, title: string)
    requires WellFormed(t) && t.rows == map[] && t.sequence < MaxLong
    ensures !UpsertExhausts(t, NewEntity(title))
    ensures TasksOf(ObserveAll(Upserted(t, NewEntity(title))))
         == Success([Task(t.sequence + 1, title, false, None)])
  {
    var u := Upserted(t, NewEntity(title));
    UpsertInsertsFresh(t, NewEntity(title));
    assert u.rows.Keys == {t.sequence + 1};
    var es := ObserveAll(u);
    assert |es| == 1 && es[0] == u.rows[t.sequence + 1];
    assert TasksOf(es).data == [ToDomain(es[0])];
  }

  /** The rule every write shares: `Success(Unit)` when the DAO call returned,
      `Failure(toCoreError(t))` when it threw `t`. */
  function Completion(thrown: Option<Throwable>): (r: Result<()>)
    ensures r.Success? <==> thrown.None?
    ensures thrown.Some? ==> r.error == ToCoreError(thrown.value)
  {
    match thrown
    case None => Success(())
    case Some(t) => Failure(ToCoreError(t))
  }

  class TaskRepositoryImpl {
    const dao: TaskDao

    constructor (dao: TaskDao)
      ensures this.dao == dao
    {
      this.dao := dao;
    }

    /** `addTask(title)`: upserts `TaskEntity(title = title)`. */
    method AddTask(title: string, fault: Option<Throwable>) returns (r: Result<()>)
      requires dao.Valid()
      modifies dao
      ensures dao.Valid()
      ensures r == Completion(if fault.Some? then fault
                              else if UpsertExhausts(old(dao.Snapshot()), NewEntity(title)) then Some(SqliteFull)
                              else None)
      ensures r.Failure? ==> dao.Snapshot() == old(dao.Snapshot()) && dao.Used == old(dao.Used)
      ensures r.Success? ==>
        var k := AssignedKey(old(dao.Snapshot()), 0);
        && dao.Snapshot() == Upserted(old(dao.Snapshot()), NewEntity(title))
        && |dao.rows| == |old(dao.rows)| + 1
        && k !in old(dao.Used) && dao.Used == old(dao.Used) + {k}
    {
      ghost var before := dao.Snapshot();
      var thrown := dao.Upsert(NewEntity(title), fault);
      if thrown.None? {
        UpsertInsertsFresh(before, NewEntity(title));
      }
      r := Completion(thrown);
    }

    /** `setTaskCompleted(id, completed)`: forwards both arguments unchanged
        to `setCompleted`. */
    method SetTaskCompleted(id: Long, completed: bool, fault: Option<Throwable>) returns (r: Result<()>)
      requires dao.Valid()
      modifies dao
      ensures dao.Valid()
      ensures r == Completion(fault) && dao.Used == old(dao.Used)
      ensures dao.Snapshot() == if fault.Some? then old(dao.Snapshot()) else CompletedSet(old(dao.Snapshot()), id, completed)
    {
      var thrown := dao.SetCompleted(id, completed, fault);
      r := Completion(thrown);
    }

    /** `removeTask(id)`: deletes through a placeholder entity carrying only
        the key (`title = ""`, `completed = false`). */
    method RemoveTask(id: Long, fault: Option<Throwable>) returns (r: Result<()>)
      requires dao.Valid()
      modifies dao
      ensures dao.Valid()
      ensures r == Completion(fault) && dao.Used == old(dao.Used)
      ensures r.Success? ==> dao.rows.Keys == old(dao.rows.Keys) - {id}
      ensures dao.Snapshot() == if fault.Some? then old(dao.Snapshot())
                                else Deleted(old(dao.Snapshot()), TaskEntity(id, "", false, None))
    {
      var thrown := dao.Delete(TaskEntity(id, "", false, None), fault);
      r := Completion(thrown);
    }
  }
}
