/** The older stack's domain record, `domain.model.Task`. */
module DomainModel {
  import opened Platform

  datatype Task = Task(id: Long, title: string, done: bool)
}

/** The older stack's repository: a reactive list of domain tasks read from
    the DAO, and three writes that go straight through to it. Failures are
    not caught here: whatever the DAO throws reaches the caller. */
module DataRepository {
  import opened Platform
  import opened RoomTable
  import opened DataLocal
  import opened DomainModel

  /** The per-row projection inside `observe`: `Task(it.id, it.title, it.done)`. */
  function EntityToTask(e: TaskEntity): Task {
    Task(e.id, e.title, e.done)
  }

  /** One emission of `observe()` for the table in state `t`: the rows of
      `observeAll`, each as a domain task, in the same order. */
  function Observe(t: TaskTable): (tasks: seq<Task>)
    requires WellFormed(t)
    ensures |tasks| == |t.rows|
    ensures forall i | 0 <= i < |tasks| ::
      var e := ObserveAll(t)[i]; tasks[i] == Task(e.id, e.title, e.done)
    ensures forall i, j | 0 <= i < j < |tasks| :: tasks[i].id > tasks[j].id
    ensures forall k | k in t.rows :: EntityToTask(t.rows[k]) in tasks
  {
    var es := ObserveAll(t);
    var tasks := MapList(es, EntityToTask);
    MapListKeepsMembers(es, EntityToTask);
    tasks
  }

  /** `observe()` over a run of `observeAll()`: every emitted entity list
      becomes a list of domain tasks, row by row, and an exception from the
      table reaches the collector as it is, since nothing here catches it. */
  function ObserveRun(upstream: FlowRun<seq<TaskEntity>>): (r: FlowRun<seq<Task>>)
    ensures |r.values| == |upstream.values|
    ensures forall i | 0 <= i < |r.values| ::
      |r.values[i]| == |upstream.values[i]|
      && forall j | 0 <= j < |r.values[i]| ::
           var e := upstream.values[i][j]; r.values[i][j] == Task(e.id, e.title, e.done)
    ensures r.thrown == upstream.thrown
  {
    FlowRun(MapList(upstream.values, (es: seq<TaskEntity>) => MapList(es, EntityToTask)), upstream.thrown)
  }

  /** A run in which `observeAll` emitted the table's rows once and then
      possibly threw: `observe` emits exactly `Observe` of that table, and
      the same exception, if any, unconverted. */
  lemma ObserveRunOfTable(t: TaskTable, thrown: Option<Throwable>)
    requires WellFormed(t)
    ensures ObserveRun(FlowRun([ObserveAll(t)], thrown)) == FlowRun([Observe(t)], thrown)
  {
    var r := ObserveRun(FlowRun([ObserveAll(t)], thrown));
    assert r.values[0] == Observe(t);
  }

  /** After `add(title)` on a table with no rows, `observe` emits exactly one
      task: that title, not done, under the first key the table has not used. */
  lemma AddToEmptyThenObserve(t: TaskTable, title: string)
    requires WellFormed(t) && t.rows == map[] && t.sequence < MaxLong
    ensures !UpsertExhausts(t, NewEntity(title))
    ensures Observe(Upserted(t, NewEntity(title))) == [Task(t.sequence + 1, title, false)]
  {
  }

  class TaskRepositoryImpl {
    const dao: TaskDao

    constructor (dao: TaskDao)
      ensures this.dao == dao
    {
      this.dao := dao;
    }

    /** `add(title)`: upserts `TaskEntity(title = title)`, so on success a new
        row is always inserted. */
    method Add(title: string, fault: Option<Throwable>) returns (thrown: Option<Throwable>)
      requires dao.Valid()
      modifies dao
      ensures dao.Valid()
      ensures thrown == if fault.Some? then fault
                        else if UpsertExhausts(old(dao.Snapshot()), NewEntity(title)) then Some(SqliteFull)
                        else None
      ensures thrown.Some? ==> dao.Snapshot() == old(dao.Snapshot()) && dao.Used == old(dao.Used)
      ensures thrown.None? ==>
        var k := AssignedKey(old(dao.Snapshot()), 0);
        && dao.Snapshot() == Upserted(old(dao.Snapshot()), NewEntity(title))
        && |dao.rows| == |old(dao.rows)| + 1
        && k !in old(dao.Used) && dao.Used == old(dao.Used) + {k}
    {
      ghost var before := dao.Snapshot();
      thrown := dao.Upsert(NewEntity(title), fault);
      if thrown.None? {
        UpsertInsertsFresh(before, NewEntity(title));
      }
    }

    /** `setDone(id, done)`: forwards both arguments unchanged to the DAO's
        update. */
    method SetDone(id: Long, done: bool, fault: Option<Throwable>) returns (thrown: Option<Throwable>)
      requires dao.Valid()
      modifies dao
      ensures dao.Valid()
      ensures thrown == fault && dao.Used == old(dao.Used)
      ensures dao.Snapshot() == if fault.Some? then old(dao.Snapshot()) else DoneSet(old(dao.Snapshot()), id, done)
    {
      thrown := dao.SetDone(id, done, fault);
    }

    /** `remove(id)`: deletes through a placeholder entity carrying only the
        key; its `title = ""` and `done = false` do not matter. */
    method Remove(id: Long, fault: Option<Throwable>) returns (thrown: Option<Throwable>)
      requires dao.Valid()
      modifies dao
      ensures dao.Valid()
      ensures thrown == fault && dao.Used == old(dao.Used)
      ensures thrown.None? ==> dao.rows.Keys == old(dao.rows.Keys) - {id}
      ensures dao.Snapshot() == if fault.Some? then old(dao.Snapshot()) else Deleted(old(dao.Snapshot()), TaskEntity(id, "", false))
    {
      thrown := dao.Delete(TaskEntity(id, "", false), fault);
    }
  }
}
