/** The newer stack's Room layer: the `tasks` row type `TaskEntity` (with a
    `completed` flag and an optional creation time in epoch seconds) and its
    DAO. The DAO's declaration is not part of this model: its operations
    (`observeAll`, `upsert`, `setCompleted`, `delete`) are inferred from the
    repository's calls and given the same SQL meaning as the older DAO's. */
module DataTaskLocal {
  import opened Platform
  import opened RoomTable

  /** One row of `tasks`. */
  datatype TaskEntity = TaskEntity(id: Long, title: string, completed: bool, createdAtEpochSeconds: Option<Long>)

  /** `TaskEntity(title = title)`: the declared defaults are `id = 0`
      (let the database choose the key), `completed = false` and no
      creation time. */
  function NewEntity(title: string): (e: TaskEntity)
    ensures e.id == 0 && e.title == title && !e.completed && e.createdAtEpochSeconds.None?
  {
    TaskEntity(0, title, false, None)
  }

  type TaskTable = Table<TaskEntity>

  /** Every row is stored under its own `id`, and no `id` exceeds the
      AUTOINCREMENT sequence. */
  predicate WellFormed(t: TaskTable) {
    Sequenced(t) && forall k | k in t.rows :: t.rows[k].id == k
  }

  /** `observeAll()`, ordered by `id` descending: every row once, by strictly
      descending `id`. */
  function ObserveAll(t: TaskTable): (r: seq<TaskEntity>)
    requires WellFormed(t)
    ensures |r| == |t.rows|
    ensures forall i | 0 <= i < |r| :: r[i].id in t.rows && t.rows[r[i].id] == r[i]
    ensures forall k | k in t.rows :: t.rows[k] in r
    ensures forall i, j | 0 <= i < j < |r| :: r[i].id > r[j].id
  {
    KeyedRowsDescending(t.rows, (e: TaskEntity) => e.id);
    RowsDescending(t.rows)
  }

  /** Whether `upsert(e)` fails for want of a fresh key. */
  predicate UpsertExhausts(t: TaskTable, e: TaskEntity) {
    KeysExhausted(t, e.id)
  }

  /** `upsert(e)` with REPLACE on conflict: the row is stored under its own
      `id`, replacing any row with that key, or under a fresh key when `id`
      is 0. */
  function Upserted(t: TaskTable, e: TaskEntity): (u: TaskTable)
    requires WellFormed(t) && !UpsertExhausts(t, e)
    ensures WellFormed(u)
  {
    var k := AssignedKey(t, e.id);
    Put(t, k, e.(id := k))
  }

  /** `setCompleted(id, completed)`: `UPDATE tasks SET completed = :completed
      WHERE id = :id`. */
  function CompletedSet(t: TaskTable, id: Long, completed: bool): (u: TaskTable)
    requires WellFormed(t)
    ensures WellFormed(u)
  {
    if id in t.rows then t.(rows := t.rows[id := t.rows[id].(completed := completed)]) else t
  }

  /** `delete(e)`: removes the row whose primary key is `e.id`. */
  function Deleted(t: TaskTable, e: TaskEntity): (u: TaskTable)
    requires WellFormed(t)
    ensures WellFormed(u)
  {
    t.(rows := t.rows - {e.id})
  }

  /** Upserting a row with `id` 0 inserts it under a key larger than every key
      the table has held; every other row stays as it was. */
  lemma UpsertInsertsFresh(t: TaskTable, e: TaskEntity)
    requires WellFormed(t) && e.id == 0 && !UpsertExhausts(t, e)
    ensures var u := Upserted(t, e); var k := t.sequence + 1;
      && k !in t.rows
      && u.rows.Keys == t.rows.Keys + {k}
      && u.rows[k] == e.(id := k)
      && (forall j | j in t.rows :: u.rows[j] == t.rows[j] && j < k)
      && |u.rows| == |t.rows| + 1
      && u.sequence == k
  {
  }

  /** `setCompleted(id, c)` changes only the `completed` field of the row with
      that `id`; an absent `id` leaves the table as it was. */
  lemma SetCompletedChangesOnlyCompleted(t: TaskTable, id: Long, completed: bool)
    requires WellFormed(t)
    ensures var u := CompletedSet(t, id, completed);
      && u.sequence == t.sequence
      && u.rows.Keys == t.rows.Keys
      && (id in t.rows ==> u.rows[id] == t.rows[id].(completed := completed) && u.rows[id].completed == completed)
      && (forall k | k in t.rows && k != id :: u.rows[k] == t.rows[k])
      && (id !in t.rows ==> u == t)
  {
  }

  /** Setting `completed` twice is setting it once. */
  lemma SetCompletedIdempotent(t: TaskTable, id: Long, completed: bool)
    requires WellFormed(t)
    ensures CompletedSet(CompletedSet(t, id, completed), id, completed) == CompletedSet(t, id, completed)
  {
  }

  /** `delete(e)` removes exactly the row keyed `e.id` (nothing when there is
      none), whatever `e`'s other fields hold. */
  lemma DeleteByKeyOnly(t: TaskTable, e: TaskEntity, other: TaskEntity)
    requires WellFormed(t) && other.id == e.id
    ensures Deleted(t, e) == Deleted(t, other)
    ensures Deleted(t, e).rows.Keys == t.rows.Keys - {e.id}
    ensures forall k | k in Deleted(t, e).rows :: Deleted(t, e).rows[k] == t.rows[k]
    ensures Deleted(t, e).sequence == t.sequence
    ensures e.id !in t.rows ==> Deleted(t, e) == t
  {
  }

  /** The DAO: the `tasks` table, changed in place by its write operations.
      Each write takes `fault`, the failure the storage engine reports for
      that statement, if any; a statement that fails changes nothing. */
  class TaskDao {
    var rows: map<Long, TaskEntity>
    var sequence: Long
    /** Every key the table has ever held. */
    ghost var Used: set<Long>

    function Snapshot(): TaskTable
      reads this
    {
      Table(rows, sequence)
    }

    ghost predicate Valid()
      reads this
    {
      WellFormed(Snapshot()) && rows.Keys <= Used && forall u | u in Used :: u <= sequence
    }

    /** An empty, freshly created table. */
    constructor ()
      ensures Valid() && rows == map[] && sequence == 0 && Used == {}
    {
      rows, sequence := map[], 0;
      Used := {};
    }

    method Upsert(e: TaskEntity, fault: Option<Throwable>) returns (thrown: Option<Throwable>)
      requires Valid()
      modifies this
      ensures Valid()
      ensures thrown == if fault.Some? then fault
                        else if UpsertExhausts(old(Snapshot()), e) then Some(SqliteFull)
                        else None
      ensures thrown.Some? ==> Snapshot() == old(Snapshot()) && Used == old(Used)
      ensures thrown.None? ==>
        var k := AssignedKey(old(Snapshot()), e.id);
        && Snapshot() == Upserted(old(Snapshot()), e)
        && Used == old(Used) + {k}
        && (e.id == 0 ==> k !in old(Used))
    {
      if fault.Some? {
        return fault;
      }
      if UpsertExhausts(Snapshot(), e) {
        return Some(SqliteFull);
      }
      var k := AssignedKey(Snapshot(), e.id);
      var u := Upserted(Snapshot(), e);
      rows, sequence := u.rows, u.sequence;
      Used := Used + {k};
      thrown := None;
    }

    method SetCompleted(id: Long, completed: bool, fault: Option<Throwable>) returns (thrown: Option<Throwable>)
      requires Valid()
      modifies this
      ensures Valid() && Used == old(Used)
      ensures thrown == fault
      ensures Snapshot() == if fault.Some? then old(Snapshot()) else CompletedSet(old(Snapshot()), id, completed)
    {
      if fault.Some? {
        return fault;
      }
      var u := CompletedSet(Snapshot(), id, completed);
      rows := u.rows;
      thrown := None;
    }

    method Delete(e: TaskEntity, fault: Option<Throwable>) returns (thrown: Option<Throwable>)
      requires Valid()
      modifies this
      ensures Valid() && Used == old(Used)
      ensures thrown == fault
      ensures Snapshot() == if fault.Some? then old(Snapshot()) else Deleted(old(Snapshot()), e)
    {
      if fault.Some? {
        return fault;
      }
      rows := Deleted(Snapshot(), e).rows;
      thrown := None;
    }
  }
}
