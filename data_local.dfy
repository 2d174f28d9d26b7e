/** The older stack's Room layer: the `tasks` row type `TaskEntity` and the
    DAO over that table (`observeAll`, `upsert`, `setDone`, `delete`). */
module DataLocal {
  import opened Platform
  import opened RoomTable

  /** One row of `tasks`. */
  datatype TaskEntity = TaskEntity(id: Long, title: string, done: bool)

  /** `TaskEntity(title = title)`: the declared defaults are `id = 0`
      (let the database choose the key) and `done = false`. */
  function NewEntity(title: string): (e: TaskEntity)
    ensures e.id == 0 && e.title == title && !e.done
  {
    TaskEntity(0, title, false)
  }

  type TaskTable = Table<TaskEntity>

  /** Every row is stored under its own `id`, and no `id` exceeds the
      AUTOINCREMENT sequence. */
  predicate WellFormed(t: TaskTable) {
    Sequenced(t) && forall k | k in t.rows :: t.rows[k].id == k
  }

  /** `SELECT * FROM tasks ORDER BY id DESC`: every row once, by strictly
      descending `id`. */
  function ObserveAll(t: TaskTable): (r: seq<TaskEntity>)
    requires WellFormed(t)
    ensures |r| == |t.rows|
    ensures forall i | 0 <= i < |r| :: r[i].id in t.rows && t.rows[r[i].id] == r[i]
    ensures forall k | k in t.rows :: t.rows[k] in r
    ensures forall i, j | 0 <= i < j < |r| :: r[i].id > r[j].id
  {
    KeyedRowsDescending(t.rows, (e: TaskEntity) => e.id);
    RowsDescending(t.rows)
  }

  /** Whether `upsert(e)` fails for want of a fresh key. */
  predicate UpsertExhausts(t: TaskTable, e: TaskEntity) {
    KeysExhausted(t, e.id)
  }

  /** `@Insert(onConflict = REPLACE)`: the row is stored under its own `id`,
      replacing any row with that key, or under a fresh key when `id` is 0. */
  function Upserted(t: TaskTable, e: TaskEntity): (u: TaskTable)
    requires WellFormed(t) && !UpsertExhausts(t, e)
    ensures WellFormed(u)
  {
    var k := AssignedKey(t, e.id);
    Put(t, k, e.(id := k))
  }

  /** `UPDATE tasks SET done = :done WHERE id = :id`. */
  function DoneSet(t: TaskTable, id: Long, done: bool): (u: TaskTable)
    requires WellFormed(t)
    ensures WellFormed(u)
  {
    if id in t.rows then t.(rows := t.rows[id := t.rows[id].(done := done)]) else t
  }

  /** `@Delete`: removes the row whose primary key is `e.id`. */
  function Deleted(t: TaskTable, e: TaskEntity): (u: TaskTable)
    requires WellFormed(t)
    ensures WellFormed(u)
  {
    t.(rows := t.rows - {e.id})
  }

  /** Upserting a row whose `id` is present replaces that row; every other row
      stays as it was. */
  lemma UpsertReplaces(t: TaskTable, e: TaskEntity)
    requires WellFormed(t) && e.id != 0
    ensures !UpsertExhausts(t, e)
    ensures var u := Upserted(t, e);
      && u.rows.Keys == t.rows.Keys + {e.id}
      && u.rows[e.id] == e
      && (forall k | k in t.rows && k != e.id :: u.rows[k] == t.rows[k])
      && |u.rows| == if e.id in t.rows then |t.rows| else |t.rows| + 1
  {
  }

  /** Upserting a row with `id` 0 inserts it under a key larger than every key
      the table has held; every other row stays as it was. */
  lemma UpsertInsertsFresh(t: TaskTable, e: TaskEntity)
    requires WellFormed(t) && e.id == 0 && !UpsertExhausts(t, e)
    ensures var u := Upserted(t, e); var k := t.sequence + 1;
      && k !in t.rows
      && u.rows.Keys == t.rows.Keys + {k}
      && u.rows[k] == e.(id := k)
      && (forall j | j in t.rows :: u.rows[j] == t.rows[j] && j < k)
      && |u.rows| == |t.rows| + 1
      && u.sequence == k
  {
  }

  /** `setDone(id, d)` changes only the `done` field of the row with that
      `id`; an absent `id` leaves the table as it was. */
  lemma SetDoneChangesOnlyDone(t: TaskTable, id: Long, done: bool)
    requires WellFormed(t)
    ensures var u := DoneSet(t, id, done);
      && u.sequence == t.sequence
      && u.rows.Keys == t.rows.Keys
      && (id in t.rows ==> u.rows[id] == TaskEntity(id, t.rows[id].title, done))
      && (forall k | k in t.rows && k != id :: u.rows[k] == t.rows[k])
      && (id !in t.rows ==> u == t)
  {
  }

  /** Setting `done` twice is setting it once. */
  lemma SetDoneIdempotent(t: TaskTable, id: Long, done: bool)
    requires WellFormed(t)
    ensures DoneSet(DoneSet(t, id, done), id, done) == DoneSet(t, id, done)
  {
  }

  /** `delete(e)` removes exactly the row keyed `e.id` (nothing when there is
      none), whatever `e`'s other fields hold. */
  lemma DeleteByKeyOnly(t: TaskTable, e: TaskEntity, other: TaskEntity)
    requires WellFormed(t) && other.id == e.id
    ensures Deleted(t, e) == Deleted(t, other)
    ensures Deleted(t, e).rows.Keys == t.rows.Keys - {e.id}
    ensures forall k | k in Deleted(t, e).rows :: Deleted(t, e).rows[k] == t.rows[k]
    ensures Deleted(t, e).sequence == t.sequence
    ensures e.id !in t.rows ==> Deleted(t, e) == t
  {
  }

  /** The DAO: the `tasks` table, changed in place by its write operations.
      Each write takes `fault`, the failure the storage engine reports for
      that statement, if any; a statement that fails changes nothing. */
  class TaskDao {
    var rows: map<Long, TaskEntity>
    var sequence: Long
    /** Every key the table has ever held. */
    ghost var Used: set<Long>

    function Snapshot(): TaskTable
      reads this
    {
      Table(rows, sequence)
    }

    ghost predicate Valid()
      reads this
    {
      WellFormed(Snapshot()) && rows.Keys <= Used && forall u | u in Used :: u <= sequence
    }

    /** An empty, freshly created table. */
    constructor ()
      ensures Valid() && rows == map[] && sequence == 0 && Used == {}
    {
      rows, sequence := map[], 0;
      Used := {};
    }

    method Upsert(e: TaskEntity, fault: Option<Throwable>) returns (thrown: Option<Throwable>)
      requires Valid()
      modifies this
      ensures Valid()
      ensures thrown == if fault.Some? then fault
                        else if UpsertExhausts(old(Snapshot()), e) then Some(SqliteFull)
                        else None
      ensures thrown.Some? ==> Snapshot() == old(Snapshot()) && Used == old(Used)
      ensures thrown.None? ==>
        var k := AssignedKey(old(Snapshot()), e.id);
        && Snapshot() == Upserted(old(Snapshot()), e)
        && Used == old(Used) + {k}
        && (e.id == 0 ==> k !in old(Used))
    {
      if fault.Some? {
        return fault;
      }
      if UpsertExhausts(Snapshot(), e) {
        return Some(SqliteFull);
      }
      var k := AssignedKey(Snapshot(), e.id);
      var u := Upserted(Snapshot(), e);
      rows, sequence := u.rows, u.sequence;
      Used := Used + {k};
      thrown := None;
    }

    method SetDone(id: Long, done: bool, fault: Option<Throwable>) returns (thrown: Option<Throwable>)
      requires Valid()
      modifies this
      ensures Valid() && Used == old(Used)
      ensures thrown == fault
      ensures Snapshot() == if fault.Some? then old(Snapshot()) else DoneSet(old(Snapshot()), id, done)
    {
      if fault.Some? {
        return fault;
      }
      var u := DoneSet(Snapshot(), id, done);
      rows := u.rows;
      thrown := None;
    }

    method Delete(e: TaskEntity, fault: Option<Throwable>) returns (thrown: Option<Throwable>)
      requires Valid()
      modifies this
      ensures Valid() && Used == old(Used)
      ensures thrown == fault
      ensures Snapshot() == if fault.Some? then old(Snapshot()) else Deleted(old(Snapshot()), e)
    {
      if fault.Some? {
        return fault;
      }
      rows := Deleted(Snapshot(), e).rows;
      thrown := None;
    }
  }
}
