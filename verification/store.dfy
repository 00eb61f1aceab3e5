/** The prediction record store: the `predicoes` table, SQLite's id rule, and the
    database sessions the handlers open, fill, commit, roll back and close. */
module Store {
  import opened Wrappers
  import opened Values
  import opened Schema

  /** A prediction as the handler builds it before writing it: the six feature columns and
      the label, without the id the database assigns on insert. */
  datatype Predicao = Predicao(
    number: Json,
    sex: Json,
    hb: Json,
    bluePixel: Json,
    greenPixel: Json,
    redPixel: Json,
    resultado: int)

  /** The value a record holds in the column of feature `f`. */
  function Column(p: Predicao, f: Feature): Json
  {
    match f
    case Number => p.number
    case Sex => p.sex
    case Hb => p.hb
    case BluePixel => p.bluePixel
    case GreenPixel => p.greenPixel
    case RedPixel => p.redPixel
  }

  /** A row of the table: a record and its primary key. */
  datatype StoredRow = StoredRow(id: nat, record: Predicao)

  /** The row under the table's column names: `id`, one column per feature named by
      `StorageName`, and `resultado`. */
  function Columns(r: StoredRow): (cols: map<string, Json>)
    ensures cols.Keys == {"id", "Number", "Sex", "Hb", "blue_pixel", "green_pixel", "red_pixel", "resultado"}
    ensures forall f :: StorageName(f) in cols && cols[StorageName(f)] == Column(r.record, f)
    ensures cols["id"] == JInt(r.id) && cols["resultado"] == JInt(r.record.resultado)
  {
    map[
      "id" := JInt(r.id),
      StorageName(Number) := r.record.number,
      StorageName(Sex) := r.record.sex,
      StorageName(Hb) := r.record.hb,
      StorageName(BluePixel) := r.record.bluePixel,
      StorageName(GreenPixel) := r.record.greenPixel,
      StorageName(RedPixel) := r.record.redPixel,
      "resultado" := JInt(r.record.resultado)
    ]
  }

  /** Ids are positive and strictly increase along the table. */
  predicate IdsAscending(rows: seq<StoredRow>)
  {
    (forall i :: 0 <= i < |rows| ==> rows[i].id > 0) &&
    (forall i, j :: 0 <= i < j < |rows| ==> rows[i].id < rows[j].id)
  }

  /** The largest id in the table, 0 when it is empty. */
  function MaxId(rows: seq<StoredRow>): (m: nat)
    ensures forall i :: 0 <= i < |rows| ==> rows[i].id <= m
    ensures rows == [] ==> m == 0
    ensures rows != [] ==> exists i :: 0 <= i < |rows| && rows[i].id == m
  {
    if rows == [] then 0
    else
      var rest := MaxId(rows[..|rows| - 1]);
      assert forall i :: 0 <= i < |rows| - 1 ==> rows[i] == rows[..|rows| - 1][i];
      if rows[|rows| - 1].id > rest then rows[|rows| - 1].id else rest
  }

  /** The id SQLite gives the next row inserted without one (an INTEGER PRIMARY KEY is the
      rowid): one more than the largest id, 1 on an empty table. */
  function NextId(rows: seq<StoredRow>): (id: nat)
    ensures id > 0
    ensures forall i :: 0 <= i < |rows| ==> rows[i].id < id
    ensures IdsAscending(rows) && rows != [] ==> id == rows[|rows| - 1].id + 1
  {
    MaxId(rows) + 1
  }

  /** The table after one record has been inserted and committed. */
  function Insert(rows: seq<StoredRow>, p: Predicao): (r: seq<StoredRow>)
    ensures |r| == |rows| + 1 && r[..|rows|] == rows
    ensures r[|rows|].record == p
    ensures forall i :: 0 <= i < |rows| ==> rows[i].id != r[|rows|].id
    ensures IdsAscending(rows) ==> IdsAscending(r)
  {
    rows + [StoredRow(NextId(rows), p)]
  }

  /** The table after the records `ps` have been inserted, in order, in one commit. */
  function InsertAll(rows: seq<StoredRow>, ps: seq<Predicao>): (r: seq<StoredRow>)
    ensures |r| == |rows| + |ps| && r[..|rows|] == rows
    ensures forall i :: 0 <= i < |ps| ==> r[|rows| + i].record == ps[i]
    ensures IdsAscending(rows) ==> IdsAscending(r)
    decreases |ps|
  {
    if ps == [] then rows
    else
      var once := Insert(rows, ps[0]);
      var r := InsertAll(once, ps[1..]);
      assert r[..|rows|] == r[..|once|][..|rows|];
      assert forall i :: 1 <= i < |ps| ==> r[|rows| + i] == r[|once| + (i - 1)] && ps[i] == ps[1..][i - 1];
      assert r[|rows|] == r[..|once|][|rows|];
      r
  }

  /** The database: the `predicoes` table and the count of sessions handed out and closed. */
  class Database {
    var table: seq<StoredRow>
    var sessionsOpened: nat
    var sessionsClosed: nat

    ghost predicate Valid()
      reads this
    {
      IdsAscending(table)
    }

    /** The freshly created, empty table. */
    constructor ()
      ensures Valid() && table == [] && sessionsOpened == 0 && sessionsClosed == 0
    {
      table := [];
      sessionsOpened := 0;
      sessionsClosed := 0;
    }
  }

  /** A unit of work on the database: records added but not committed are `pending`. */
  class Session {
    const db: Database
    var pending: seq<Predicao>
    var isOpen: bool

    /** `Session()`: a new session on the database. */
    constructor (db: Database)
      requires db.Valid()
      modifies db
      ensures this.db == db && db.Valid() && pending == [] && isOpen
      ensures db.table == old(db.table) && db.sessionsOpened == old(db.sessionsOpened) + 1 && db.sessionsClosed == old(db.sessionsClosed)
    {
      this.db := db;
      pending := [];
      isOpen := true;
      new;
      db.sessionsOpened := db.sessionsOpened + 1;
    }

    /** `sessao.add(p)`: stages the record; nothing reaches the table yet. */
    method Add(p: Predicao)
      modifies this
      ensures pending == old(pending) + [p] && isOpen == old(isOpen)
    {
      pending := pending + [p];
    }

    /** `sessao.commit()`: writes every pending record, or, when the database refuses
        (`fault`), raises and writes none of them. */
    method Commit(fault: Option<Exc>) returns (raised: Option<Exc>)
      requires db.Valid()
      modifies this, db`table
      ensures db.Valid() && raised == fault && isOpen == old(isOpen)
      ensures fault.None? ==> db.table == InsertAll(old(db.table), old(pending)) && pending == []
      ensures fault.Some? ==> db.table == old(db.table) && pending == old(pending)
    {
      raised := fault;
      if fault.None? {
        db.table := InsertAll(db.table, pending);
        pending := [];
      }
    }

    /** `sessao.rollback()`: discards every pending record. */
    method Rollback()
      modifies this
      ensures pending == [] && isOpen == old(isOpen)
    {
      pending := [];
    }

    /** `sessao.query(Predicao).all()`: every row of the table, or the exception the read
        raised. */
    method All(fault: Option<Exc>) returns (r: Result<seq<StoredRow>, Exc>)
      ensures fault.None? ==> r == Success(db.table)
      ensures fault.Some? ==> r == Failure(fault.value)
    {
      if fault.None? {
        r := Success(db.table);
      } else {
        r := Failure(fault.value);
      }
    }

    /** `sessao.close()`: discards pending work and returns the session; a second close is
        a no-op. */
    method Close()
      modifies this, db`sessionsClosed
      ensures pending == [] && !isOpen
      ensures db.sessionsClosed == old(db.sessionsClosed) + (if old(isOpen) then 1 else 0)
    {
      pending := [];
      if isOpen {
        db.sessionsClosed := db.sessionsClosed + 1;
        isOpen := false;
      }
    }
  }
}
