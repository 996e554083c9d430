/**
 * db/app.py, `sync_data`: copy into the dashboard's SQLite table the chat
 * sessions it does not hold yet, reading each one's details from its summary.
 */
module App {
  import Text
  import opened Llm
  import opened InfoExtractor
  import opened SessionStore

  /** `[s for s in sessions if s['session_id'] not in existing]`. */
  function NewSessions(fetched: seq<Session>, existing: set<string>): (r: seq<Session>)
    ensures forall s :: s in r ==> s in fetched && s.sessionId !in existing
    ensures forall s :: s in fetched && s.sessionId !in existing ==> s in r
    ensures |r| <= |fetched|
  {
    if fetched == [] then []
    else
      var rest := NewSessions(fetched[1..], existing);
      if fetched[0].sessionId in existing then rest else [fetched[0]] + rest
  }

  /** The filter keeps the fetched order: it distributes over concatenation. */
  lemma {:induction false} NewSessionsAppend(a: seq<Session>, b: seq<Session>, existing: set<string>)
    ensures NewSessions(a + b, existing) == NewSessions(a, existing) + NewSessions(b, existing)
  {
    if a != [] {
      assert (a + b)[1..] == a[1..] + b;
      NewSessionsAppend(a[1..], b, existing);
    } else {
      assert a + b == b;
    }
  }

  /**
   * The rows a sync leaves: sessions the table already held keep their row,
   * and every fetched session id is present afterwards.
   */
  lemma SyncedRows(rows: map<string, SessionRow>, fetched: seq<Session>, extract: string -> UserInfo)
    ensures var r := Upserted(rows, NewSessions(fetched, rows.Keys), extract);
            && (forall id :: id in rows ==> id in r && r[id] == rows[id])
            && (forall s :: s in fetched ==> s.sessionId in r)
  {
    var news := NewSessions(fetched, rows.Keys);
    forall id | id in rows
      ensures Upserted(rows, news, extract)[id] == rows[id]
    {
      UpsertedRow(rows, news, extract, id);
      NoLastWithId(news, id);
    }
  }

  /** No filtered session carries an id the table held. */
  lemma {:induction false} NoLastWithId(sessions: seq<Session>, id: string)
    requires forall s :: s in sessions ==> s.sessionId != id
    ensures LastWithId(sessions, id).None?
  {
    if sessions != [] {
      NoLastWithId(sessions[..|sessions| - 1], id);
    }
  }

  /**
   * The extractor `sync_data` hands over: `extract_user_info_llm` with its
   * model and JSON reader. On a summary whose model call raises, or whose
   * completion holds no `{...}` block, it reads the summary with the regular
   * expressions.
   */
  function LlmExtractor(llm: string -> Completion, parseJson: string -> JsonOutcome): (r: string -> UserInfo)
    ensures forall summary :: llm(ExtractPrompt(summary)).Raised? ==> r(summary) == ExtractUserInfoRegex(summary)
    ensures forall summary :: llm(ExtractPrompt(summary)).Completed? && BraceBlock(Text.Strip(llm(ExtractPrompt(summary)).text)).None?
              ==> r(summary) == ExtractUserInfoRegex(summary)
    ensures forall summary :: r(summary) == ExtractUserInfoLlm(summary, llm, parseJson)
  {
    summary => ExtractUserInfoLlm(summary, llm, parseJson)
  }

  /**
   * `sync_data`: create the table if needed, list its ids, filter the fetched
   * sessions, upsert the new ones with `extract_user_info_llm` (only when
   * there are any) and return how many there were.
   */
  method SyncData(db: SqliteDb, fetched: seq<Session>, llm: string -> Completion, parseJson: string -> JsonOutcome)
    returns (count: nat)
    requires db.Valid()
    modifies db
    ensures db.Valid() && db.hasTable
    ensures count == |NewSessions(fetched, old(db.rows).Keys)|
    ensures db.rows == Upserted(old(db.rows), NewSessions(fetched, old(db.rows).Keys), LlmExtractor(llm, parseJson))
  {
    db.InitSqliteDb();
    var existingIds := db.GetExistingSessionIds();
    var stored := set id | id in existingIds;
    assert stored == old(db.rows).Keys;
    var newSessions := NewSessions(fetched, stored);
    if newSessions != [] {
      db.UpdateSqliteWithSessions(newSessions, LlmExtractor(llm, parseJson));
    }
    count := |newSessions|;
  }
}
