/**
 * db/sqlite_db.py: the dashboard's SQLite copy of the chat sessions, one row
 * per session id with the name, phone and product read out of its summary.
 */
module SessionStore {
  import opened Wrappers
  import opened InfoExtractor

  /** A session as fetched from the chat log store: `session_id`, `log`, `summary`. */
  datatype Session = Session(sessionId: string, log: string, summary: string)

  /** A `chat_sessions` row (the `last_updated` timestamp is not modelled). */
  datatype SessionRow = SessionRow(log: string, summary: string, name: string, phone: string, product: string)

  /** The row INSERT OR REPLACE writes for a session, given what the extractor read from its summary. */
  function RowFor(session: Session, info: UserInfo): (r: SessionRow)
    ensures r.log == session.log && r.summary == session.summary
    ensures (r.name, r.phone, r.product) == (info.name, info.phone, info.product)
  {
    SessionRow(session.log, session.summary, info.name, info.phone, info.product)
  }

  /** The table after writing each session in turn, replacing any row with the same id. */
  function Upserted(rows: map<string, SessionRow>, sessions: seq<Session>, extract: string -> UserInfo)
    : (r: map<string, SessionRow>)
    ensures r.Keys == rows.Keys + set s | s in sessions :: s.sessionId
  {
    if sessions == [] then rows
    else
      var init, last := sessions[..|sessions| - 1], sessions[|sessions| - 1];
      assert sessions == init + [last];
      Upserted(rows, init, extract)[last.sessionId := RowFor(last, extract(last.summary))]
  }

  /** Reference definition: the last session in the list with the given id. */
  function LastWithId(sessions: seq<Session>, id: string): Option<Session> {
    if sessions == [] then None
    else if sessions[|sessions| - 1].sessionId == id then Some(sessions[|sessions| - 1])
    else LastWithId(sessions[..|sessions| - 1], id)
  }

  /**
   * After the loop each id holds the row of the last session with that id,
   * built from that session's own summary; ids not in the input keep their row.
   */
  lemma {:induction false} UpsertedRow(rows: map<string, SessionRow>, sessions: seq<Session>,
                                       extract: string -> UserInfo, id: string)
    ensures var r := Upserted(rows, sessions, extract);
            match LastWithId(sessions, id)
            case Some(s) => id in r && r[id] == RowFor(s, extract(s.summary))
            case None => (id in r <==> id in rows) && (id in rows ==> r[id] == rows[id])
  {
    if sessions != [] {
      UpsertedRow(rows, sessions[..|sessions| - 1], extract, id);
    }
  }

  /** Writing sessions in two batches is the same as writing them in one. */
  lemma {:induction false} UpsertedAppend(rows: map<string, SessionRow>, a: seq<Session>, b: seq<Session>,
                                          extract: string -> UserInfo)
    ensures Upserted(rows, a + b, extract) == Upserted(Upserted(rows, a, extract), b, extract)
    decreases |b|
  {
    if b == [] {
      assert a + b == a;
    } else {
      assert (a + b)[..|a + b| - 1] == a + b[..|b| - 1];
      UpsertedAppend(rows, a, b[..|b| - 1], extract);
    }
  }

  /** The SQLite file: whether `chat_sessions` exists yet, and its rows. */
  class SqliteDb {
    var hasTable: bool
    var rows: map<string, SessionRow>

    /** Without the table there are no rows. */
    predicate Valid()
      reads this
    {
      !hasTable ==> rows == map[]
    }

    /** A fresh database file. */
    constructor()
      ensures Valid() && !hasTable && rows == map[]
    {
      hasTable := false;
      rows := map[];
    }

    /** `init_sqlite_db`: CREATE TABLE IF NOT EXISTS, so existing rows are kept. */
    method InitSqliteDb()
      requires Valid()
      modifies this
      ensures Valid() && hasTable && rows == old(rows)
    {
      if !hasTable {
        hasTable := true;
      }
    }

    /** `get_existing_session_ids`: each stored id once, since session_id is the primary key. */
    method GetExistingSessionIds() returns (ids: seq<string>)
      requires hasTable
      ensures forall id :: id in ids <==> id in rows
      ensures forall i, j :: 0 <= i < j < |ids| ==> ids[i] != ids[j]
    {
      ids := [];
      var remaining := rows.Keys;
      while remaining != {}
        invariant remaining <= rows.Keys
        invariant forall id :: id in ids <==> id in rows && id !in remaining
        invariant forall i, j :: 0 <= i < j < |ids| ==> ids[i] != ids[j]
        decreases remaining
      {
        var id :| id in remaining;
        ids := ids + [id];
        remaining := remaining - {id};
      }
    }

    /** `update_sqlite_with_sessions`: one INSERT OR REPLACE per session, in order. */
    method UpdateSqliteWithSessions(sessions: seq<Session>, extract: string -> UserInfo)
      requires Valid() && hasTable
      modifies this
      ensures Valid() && hasTable
      ensures rows == Upserted(old(rows), sessions, extract)
    {
      for i := 0 to |sessions|
        invariant hasTable
        invariant rows == Upserted(old(rows), sessions[..i], extract)
      {
        var session := sessions[i];
        var info := extract(session.summary);
        rows := rows[session.sessionId := RowFor(session, info)];
        assert sessions[..i + 1][..i] == sessions[..i];
      }
      assert sessions[..|sessions|] == sessions;
    }
  }
}
