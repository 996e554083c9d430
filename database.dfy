/**
 * backend/database.py: the `chat_logs` table (one row per session id holding
 * the running log and its summary) and the lookups into the SQLite content
 * table `extracted_data`.
 */
module ChatStore {
  import opened Wrappers
  import opened Text
  import PyDict

  /** A `chat_logs` row. */
  datatype ChatRow = ChatRow(log: string, summary: string)

  const Separator := " | "

  /** The table after `log_chat(id, entry)`: append to the session's log, or start a row. */
  function WithLogEntry(rows: map<string, ChatRow>, id: string, entry: string): (r: map<string, ChatRow>)
    ensures r.Keys == rows.Keys + {id}
    ensures forall k :: k in rows && k != id ==> r[k] == rows[k]
  {
    if id in rows then rows[id := ChatRow(rows[id].log + Separator + entry, rows[id].summary)]
    else rows[id := ChatRow(entry, "")]
  }

  /** The table after `update_summary(id, summary)`: an UPDATE, so an unknown id changes nothing. */
  function WithSummary(rows: map<string, ChatRow>, id: string, summary: string): (r: map<string, ChatRow>)
    ensures r.Keys == rows.Keys
    ensures forall k :: k in rows ==> r[k].log == rows[k].log
    ensures forall k :: k in rows && k != id ==> r[k] == rows[k]
  {
    if id in rows then rows[id := ChatRow(rows[id].log, summary)] else rows
  }

  /** Logging keeps the earlier log as a prefix and leaves the summary alone. */
  lemma LogIsAppendOnly(rows: map<string, ChatRow>, id: string, entry: string)
    ensures var r := WithLogEntry(rows, id, entry);
            && (id in rows ==> r[id].log == rows[id].log + " | " + entry && r[id].summary == rows[id].summary)
            && (id !in rows ==> r[id] == ChatRow(entry, ""))
            && (id in rows ==> rows[id].log <= r[id].log)
  {
  }

  /** Updating the summary of a session replaces exactly that summary. */
  lemma SummaryReplaced(rows: map<string, ChatRow>, id: string, summary: string)
    ensures id in rows ==> WithSummary(rows, id, summary)[id] == ChatRow(rows[id].log, summary)
    ensures id !in rows ==> WithSummary(rows, id, summary) == rows
  {
  }

  /** The table after logging each entry in turn for one session. */
  function LogAll(rows: map<string, ChatRow>, id: string, entries: seq<string>): (r: map<string, ChatRow>)
    ensures entries != [] ==> id in r
  {
    if entries == [] then rows
    else WithLogEntry(LogAll(rows, id, entries[..|entries| - 1]), id, entries[|entries| - 1])
  }

  /**
   * Starting from no row, the session's log after several turns is the turns'
   * entries joined by " | ", and its summary is still "".
   */
  lemma {:induction false} LogAllJoins(rows: map<string, ChatRow>, id: string, entries: seq<string>)
    requires id !in rows && entries != []
    ensures LogAll(rows, id, entries)[id] == ChatRow(Join(Separator, entries), "")
  {
    if |entries| > 1 {
      LogAllJoins(rows, id, entries[..|entries| - 1]);
    }
  }

  /** The `chat_logs` table, keyed by session id. */
  class ChatLogs {
    var rows: map<string, ChatRow>

    constructor(initial: map<string, ChatRow>)
      ensures rows == initial
    {
      rows := initial;
    }

    /** `log_chat`: read the session's log, then UPDATE it with the entry appended, or INSERT a row. */
    method LogChat(id: string, entry: string)
      modifies this
      ensures rows == WithLogEntry(old(rows), id, entry)
    {
      if id in rows {
        var existing := rows[id];
        rows := rows[id := ChatRow(existing.log + Separator + entry, existing.summary)];
      } else {
        rows := rows[id := ChatRow(entry, "")];
      }
    }

    /** `update_summary`. */
    method UpdateSummary(id: string, summary: string)
      modifies this
      ensures rows == WithSummary(old(rows), id, summary)
    {
      if id in rows {
        rows := rows[id := ChatRow(rows[id].log, summary)];
      }
    }

    /** `get_chat_data`: the session's row, or None; the table is not changed. */
    method GetChatData(id: string) returns (r: Option<ChatRow>)
      ensures r.Some? <==> id in rows
      ensures r.Some? ==> r.value == rows[id]
    {
      if id in rows {
        r := Some(rows[id]);
      } else {
        r := None;
      }
    }
  }

  /** A row of the SQLite `extracted_data` table: `(id, keywords, content)`. */
  datatype ExtractedRecord = ExtractedRecord(id: int, keyword: string, content: string)

  /** The value `fetch_keywords_data` keeps per id. */
  datatype ContentEntry = ContentEntry(keyword: string, content: string)

  function RecordPairs(records: seq<ExtractedRecord>): (r: seq<(int, ContentEntry)>)
    ensures |r| == |records|
    ensures forall i :: 0 <= i < |records| ==> r[i] == (records[i].id, ContentEntry(records[i].keyword, records[i].content))
  {
    seq(|records|, i requires 0 <= i < |records| => (records[i].id, ContentEntry(records[i].keyword, records[i].content)))
  }

  /** `fetch_keywords_data`: `{record[0]: {...} for record in records}`. */
  function FetchKeywordsData(records: seq<ExtractedRecord>): (d: PyDict.Dict<int, ContentEntry>)
    ensures PyDict.KeysUnique(d)
    ensures PyDict.Keys(d) == set i | 0 <= i < |records| :: records[i].id
  {
    var pairs := RecordPairs(records);
    var d := PyDict.FromPairs(pairs);
    assert PyDict.Keys(pairs) == set i | 0 <= i < |records| :: records[i].id;
    d
  }

  /** Reference definition: the last record with the given id. */
  function LastRecord(records: seq<ExtractedRecord>, id: int): Option<ExtractedRecord> {
    if records == [] then None
    else if records[|records| - 1].id == id then Some(records[|records| - 1])
    else LastRecord(records[..|records| - 1], id)
  }

  /** On a repeated id the later record wins. */
  lemma {:induction false} FetchKeywordsDataLastWins(records: seq<ExtractedRecord>, id: int)
    ensures var e := PyDict.Get(FetchKeywordsData(records), id);
            var last := LastRecord(records, id);
            && (e.Some? <==> last.Some?)
            && (e.Some? ==> e.value == ContentEntry(last.value.keyword, last.value.content))
  {
    PyDict.FromPairsLastWins(RecordPairs(records), id);
    LastValueOfPairs(records, id);
  }

  lemma {:induction false} LastValueOfPairs(records: seq<ExtractedRecord>, id: int)
    ensures var v := PyDict.LastValue(RecordPairs(records), id);
            var last := LastRecord(records, id);
            && (v.Some? <==> last.Some?)
            && (v.Some? ==> v.value == ContentEntry(last.value.keyword, last.value.content))
  {
    if records != [] {
      var init := records[..|records| - 1];
      assert RecordPairs(records)[..|records| - 1] == RecordPairs(init);
      LastValueOfPairs(init, id);
    }
  }

  /** `get_content_by_id`: the content stored under the id, or "" if there is none. */
  function GetContentById(records: seq<ExtractedRecord>, id: int): (r: string)
    ensures LastRecord(records, id).None? ==> r == ""
    ensures LastRecord(records, id).Some? ==> r == LastRecord(records, id).value.content
  {
    FetchKeywordsDataLastWins(records, id);
    match PyDict.Get(FetchKeywordsData(records), id)
    case Some(entry) => entry.content
    case None => ""
  }
}
