/** What SQLite does with the `tasks` table behind both DAOs, independent of
    the row type: the primary key is declared `@PrimaryKey(autoGenerate =
    true)`, which Room turns into `INTEGER PRIMARY KEY AUTOINCREMENT` and
    binds a key of 0 as NULL, asking SQLite for a fresh key. */
module RoomTable {
  import opened Platform

  /** A table: the rows by primary key, and the AUTOINCREMENT sequence, the
      largest key the table has ever held (0 when none has). */
  datatype Table<R> = Table(rows: map<Long, R>, sequence: Long)

  /** The sequence is never negative and no key exceeds it. */
  predicate Sequenced<R>(t: Table<R>) {
    0 <= t.sequence && forall k | k in t.rows :: k <= t.sequence
  }

  /** An insert that asks for a fresh key when the largest possible key has
      already been used fails with SQLITE_FULL. */
  predicate KeysExhausted<R>(t: Table<R>, requested: Long) {
    requested == 0 && t.sequence == MaxLong
  }

  /** The error SQLite raises then. */
  const SqliteFull: Throwable :=
    OtherFailure("android.database.sqlite.SQLiteFullException: database or disk is full")

  /** The key an inserted row is stored under: the requested one, or for 0
      one more than any key the table has ever held. */
  function AssignedKey<R>(t: Table<R>, requested: Long): (k: Long)
    requires Sequenced(t) && !KeysExhausted(t, requested)
    ensures requested != 0 ==> k == requested
    ensures requested == 0 ==> k == t.sequence + 1 && k !in t.rows && k > 0
  {
    if requested == 0 then t.sequence + 1 else requested
  }

  /** INSERT OR REPLACE of `row` under key `k`: any row with that key is
      replaced, and the sequence moves up to `k` if it was lower. */
  function Put<R>(t: Table<R>, k: Long, row: R): (u: Table<R>)
    requires Sequenced(t)
    ensures Sequenced(u)
    ensures u.rows.Keys == t.rows.Keys + {k} && u.rows[k] == row
    ensures forall j | j in t.rows && j != k :: u.rows[j] == t.rows[j]
    ensures u.sequence == if k > t.sequence then k else t.sequence
  {
    Table(t.rows[k := row], if k > t.sequence then k else t.sequence)
  }

  /** A `Put` adds one row when the key was free and none when it replaced one. */
  lemma PutRowCount<R>(t: Table<R>, k: Long, row: R)
    requires Sequenced(t)
    ensures |Put(t, k, row).rows| == if k in t.rows then |t.rows| else |t.rows| + 1
  {
  }

  /** The largest of a non-empty set of keys. */
  function Largest(ks: set<Long>): (m: Long)
    requires ks != {}
    ensures m in ks && forall k | k in ks :: k <= m
  {
    LargestExists(ks);
    var m :| m in ks && forall k | k in ks :: k <= m;
    m
  }

  /** The keys in the order of `ORDER BY id DESC`: each key once, strictly
      decreasing. */
  function DescendingKeys(ks: set<Long>): (r: seq<Long>)
    ensures |r| == |ks|
    ensures forall i | 0 <= i < |r| :: r[i] in ks
    ensures forall k | k in ks :: k in r
    ensures forall i, j | 0 <= i < j < |r| :: r[i] > r[j]
    decreases ks
  {
    if ks == {} then []
    else
      var m := Largest(ks);
      [m] + DescendingKeys(ks - {m})
  }

  /** The rows stored under the given keys, in the keys' order. */
  function RowsAt<R>(rows: map<Long, R>, ks: seq<Long>): (r: seq<R>)
    requires forall i | 0 <= i < |ks| :: ks[i] in rows
    ensures |r| == |ks|
    ensures forall i | 0 <= i < |ks| :: r[i] == rows[ks[i]]
  {
    if ks == [] then [] else [rows[ks[0]]] + RowsAt(rows, ks[1..])
  }

  /** Reading the row at each key of a list that covers the table gives every
      row of the table. */
  lemma RowsAtKeysCover<R>(rows: map<Long, R>, ks: seq<Long>, r: seq<R>)
    requires forall k | k in rows :: k in ks
    requires forall i | 0 <= i < |ks| :: ks[i] in rows
    requires |r| == |ks| && forall i | 0 <= i < |ks| :: r[i] == rows[ks[i]]
    ensures forall k | k in rows :: rows[k] in r
  {
  }

  /** The rows in the order of `ORDER BY id DESC`: the row under each key of
      `DescendingKeys`, so every row exactly once. */
  function RowsDescending<R>(rows: map<Long, R>): (r: seq<R>)
    ensures |r| == |rows|
    ensures forall i | 0 <= i < |r| :: r[i] == rows[DescendingKeys(rows.Keys)[i]]
    ensures forall k | k in rows :: rows[k] in r
  {
    var ks := DescendingKeys(rows.Keys);
    var r := RowsAt(rows, ks);
    RowsAtKeysCover(rows, ks, r);
    r
  }

  /** When every row carries its own key, reading `RowsDescending` gives rows
      whose keys strictly decrease, each row the one stored under its key. */
  lemma KeyedRowsDescending<R>(rows: map<Long, R>, key: R -> Long)
    requires forall k | k in rows :: key(rows[k]) == k
    ensures var r := RowsDescending(rows);
      && (forall i | 0 <= i < |r| :: key(r[i]) in rows && rows[key(r[i])] == r[i])
      && (forall i, j | 0 <= i < j < |r| :: key(r[i]) > key(r[j]))
  {
  }
}
