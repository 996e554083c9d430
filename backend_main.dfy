/**
 * backend/main.py: the `/submit_query` handler. It checks the request, then
 * `process_query` asks the helpers for a name, a content id and a reply, logs
 * the turn, regenerates the session summary and appends a request for the
 * details the summary still marks as unknown.
 */
module BackendMain {
  import opened Wrappers
  import opened Text
  import opened ChatStore

  /** The JSON body's "Query" and "SessionId" values (absent keys are None). */
  datatype Request = Request(query: Option<string>, sessionId: Option<string>)

  /** The JSON reply: the answer with the echoed session id, or a 400 error. */
  datatype Reply = Answer(response: string, sessionId: string) | BadRequest(error: string) | ServerError

  /** The request after validation: both values present and non-empty, or the error to send. */
  datatype Checked = Valid(query: string, sessionId: string) | Invalid(error: string)

  const MissingQuery := "Missing Query!"
  const MissingSessionId := "Missing SessionId!"

  /** `if not user_query: … if not session_id: …`: the query is checked first. */
  function Validate(req: Request): (r: Checked)
    ensures r == Invalid(MissingQuery) <==> !Truthy(req.query)
    ensures r == Invalid(MissingSessionId) <==> Truthy(req.query) && !Truthy(req.sessionId)
    ensures r.Valid? <==> Truthy(req.query) && Truthy(req.sessionId)
    ensures r.Valid? ==> r.query == req.query.value && r.sessionId == req.sessionId.value
  {
    if !Truthy(req.query) then Invalid(MissingQuery)
    else if !Truthy(req.sessionId) then Invalid(MissingSessionId)
    else Valid(req.query.value, req.sessionId.value)
  }

  /** `get_content_by_id(matched_id) if matched_id else ""`: None and id 0 are both falsy. */
  function ContentFor(records: seq<ExtractedRecord>, matchedId: Option<int>): (r: string)
    ensures matchedId.None? || matchedId.value == 0 ==> r == ""
    ensures matchedId.Some? && matchedId.value != 0 && LastRecord(records, matchedId.value).Some? ==>
              r == LastRecord(records, matchedId.value).value.content
    ensures matchedId.Some? && LastRecord(records, matchedId.value).None? ==> r == ""
  {
    if matchedId.Some? && matchedId.value != 0 then GetContentById(records, matchedId.value) else ""
  }

  /** The turn as it is logged: "User: <query> | Bot: <answer>". */
  function LogEntry(query: string, answer: string): (r: string)
    ensures "User: " + query <= r
    ensures |r| == |query| + |answer| + 14
    ensures r[|r| - |answer|..] == answer
    ensures OccursAt(r, " | Bot: ", |query| + 6)
  {
    var r := "User: " + query + " | Bot: " + answer;
    assert r[|query| + 6..|query| + 14] == " | Bot: ";
    r
  }

  /** The three requests share their wording around what they ask for. */
  const AskLead := "\n\nCan you share "
  const AskTail := " to help us better?"
  const NameAndNumberRequest := AskLead + "your name and number" + AskTail
  const NameRequest := AskLead + "your name" + AskTail
  const NumberRequest := AskLead + "your number" + AskTail

  /** The request appended to the answer for what the summary still marks as unknown. */
  function MissingInfoSuffix(summary: string): (r: string)
    ensures Contains(summary, "User: Unknown") && Contains(summary, "Phone: Unknown") ==> r == NameAndNumberRequest
    ensures Contains(summary, "User: Unknown") && !Contains(summary, "Phone: Unknown") ==> r == NameRequest
    ensures !Contains(summary, "User: Unknown") && Contains(summary, "Phone: Unknown") ==> r == NumberRequest
    ensures !Contains(summary, "User: Unknown") && !Contains(summary, "Phone: Unknown") ==> r == ""
  {
    if Contains(summary, "User: Unknown") && Contains(summary, "Phone: Unknown") then NameAndNumberRequest
    else if Contains(summary, "User: Unknown") then NameRequest
    else if Contains(summary, "Phone: Unknown") then NumberRequest
    else ""
  }

  /**
   * Read as what it asks for: the suffix asks for the name whenever the summary
   * lacks it, for the number whenever the summary lacks the phone, and is
   * empty exactly when the summary lacks neither.
   */
  lemma SuffixAsksForWhatIsMissing(summary: string)
    ensures Contains(summary, "User: Unknown") ==> Contains(MissingInfoSuffix(summary), "your name")
    ensures Contains(summary, "Phone: Unknown") ==> Contains(MissingInfoSuffix(summary), "number")
    ensures MissingInfoSuffix(summary) == "" <==>
              !Contains(summary, "User: Unknown") && !Contains(summary, "Phone: Unknown")
  {
    var u, p := Contains(summary, "User: Unknown"), Contains(summary, "Phone: Unknown");
    if u && p {
      AsksFor("your name and number", "your name", 0);
      AsksFor("your name and number", "number", 14);
    } else if u {
      AsksFor("your name", "your name", 0);
    } else if p {
      AsksFor("your number", "number", 5);
    }
  }

  /** A request whose wanted words include `p` at `i` asks for `p`. */
  lemma AsksFor(wanted: string, p: string, i: nat)
    requires OccursAt(wanted, p, i)
    ensures Contains(AskLead + wanted + AskTail, p)
  {
    ContainsWithin(AskLead, wanted, AskTail, p);
  }

  /** The summary `process_query` hands to `generate_summary`: the row just written by `log_chat`. */
  function SummaryBeforeUpdate(rows: map<string, ChatRow>, sessionId: string, entry: string): (r: Option<string>)
    ensures sessionId !in rows ==> r == Some("")
    ensures sessionId in rows ==> r == Some(rows[sessionId].summary)
  {
    var logged := WithLogEntry(rows, sessionId, entry);
    Some(logged[sessionId].summary)
  }

  /**
   * `process_query`: the helpers backend/main.py imports are parameters.
   * The turn is logged before the summary is read back, so a first turn hands
   * `generate_summary` the empty summary of the new row, never None.
   */
  method ProcessQuery(db: ChatLogs, records: seq<ExtractedRecord>, sessionId: string, query: string,
                      extractName: string -> Option<string>,
                      matchKeyword: string -> Option<int>,
                      generateResponse: (string, string, Option<string>) -> string,
                      generateSummary: (Option<string>, string) -> string)
    returns (reply: Reply)
    modifies db
    ensures var answer := generateResponse(query, ContentFor(records, matchKeyword(query)), extractName(query));
            var entry := LogEntry(query, answer);
            var summary := generateSummary(SummaryBeforeUpdate(old(db.rows), sessionId, entry), entry);
            && db.rows == WithSummary(WithLogEntry(old(db.rows), sessionId, entry), sessionId, summary)
            && reply == Answer(answer + MissingInfoSuffix(summary), sessionId)
  {
    var name := extractName(query);
    var matchedId := matchKeyword(query);
    var content := ContentFor(records, matchedId);
    var initialAnswer := generateResponse(query, content, name);
    var entry := LogEntry(query, initialAnswer);
    db.LogChat(sessionId, entry);
    var chatData := db.GetChatData(sessionId);
    var existingSummary := if chatData.Some? then Some(chatData.value.summary) else None;
    var summary := generateSummary(existingSummary, entry);
    db.UpdateSummary(sessionId, summary);
    reply := Answer(initialAnswer + MissingInfoSuffix(summary), sessionId);
  }

  /** `submit_query`: a request that fails validation gets a 400 and leaves the table alone. */
  method SubmitQuery(db: ChatLogs, records: seq<ExtractedRecord>, req: Request,
                     extractName: string -> Option<string>,
                     matchKeyword: string -> Option<int>,
                     generateResponse: (string, string, Option<string>) -> string,
                     generateSummary: (Option<string>, string) -> string)
    returns (reply: Reply)
    modifies db
    ensures Validate(req).Invalid? ==> reply == BadRequest(Validate(req).error) && db.rows == old(db.rows)
    ensures Validate(req).Valid? ==>
              var query, sessionId := req.query.value, req.sessionId.value;
              var answer := generateResponse(query, ContentFor(records, matchKeyword(query)), extractName(query));
              var entry := LogEntry(query, answer);
              var summary := generateSummary(SummaryBeforeUpdate(old(db.rows), sessionId, entry), entry);
              && db.rows == WithSummary(WithLogEntry(old(db.rows), sessionId, entry), sessionId, summary)
              && reply == Answer(answer + MissingInfoSuffix(summary), sessionId)
  {
    match Validate(req)
    case Invalid(error) =>
      reply := BadRequest(error);
    case Valid(query, sessionId) =>
      reply := ProcessQuery(db, records, sessionId, query, extractName, matchKeyword, generateResponse, generateSummary);
  }
}
