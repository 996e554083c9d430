/**
 * backend-rk-main/main.py: the single-file server. Three model calls
 * (name, content id, reply) produce the answer; the turn is then logged and the
 * session summary regenerated in one step, and the answer gets the same
 * missing-details request as backend/main.py. An exception from the name, id
 * or summary call escapes the handler; the reply call catches its own.
 */
module RkMain {
  import opened Wrappers
  import opened Text
  import opened Patterns
  import opened Llm
  import PyDict
  import opened ChatStore
  import opened BackendMain
  import LlmService

  /* extract_name_from_query */

  const NameLead := "Extract the user's name from this query if provided: '"
  const NameWording := "'. "
    + "Return the name as a single word or phrase (e.g., 'John') or 'Unknown' if no name is found."

  function NamePrompt(query: string): string {
    NameLead + query + NameWording
  }

  /** The stripped completion is the name, unless it is the sentinel "Unknown". */
  function NameFromCompletion(c: Completion): (r: Outcome<Option<string>>)
    ensures r.Failed? <==> c.Raised?
    ensures c.Completed? ==> (r.value.None? <==> Strip(c.text) == "Unknown")
    ensures c.Completed? && r.value.Some? ==> r.value.value == Strip(c.text) && Trimmed(r.value.value)
  {
    match c
    case Raised => Failed
    case Completed(text) => Ok(LlmService.FromSentinel(Strip(text)))
  }

  /** `extract_name_from_query`: one model call; an exception from it propagates. */
  function ExtractNameFromQuery(query: string, llm: string -> Completion): (r: Outcome<Option<string>>)
    ensures r.Failed? <==> llm(NamePrompt(query)).Raised?
    ensures var c := llm(NamePrompt(query));
            c.Completed? ==> (r.value.None? <==> Strip(c.text) == "Unknown")
                             && (r.value.Some? ==> r.value.value == Strip(c.text))
    ensures r.Ok? && r.value.Some? ==> r.value.value != "Unknown" && Trimmed(r.value.value)
  {
    NameFromCompletion(llm(NamePrompt(query)))
  }

  /* match_query_to_keyword */

  /** One entry of the list offered to the model: "ID: <id> - Keyword: <keyword>". */
  function KeywordOption(id: int, entry: ContentEntry): string {
    "ID: " + IntToDecimal(id) + " - Keyword: " + entry.keyword
  }

  function KeywordOptions(data: PyDict.Dict<int, ContentEntry>): (r: seq<string>)
    ensures |r| == |data|
    ensures forall k :: 0 <= k < |data| ==> r[k] == KeywordOption(data[k].0, data[k].1)
  {
    seq(|data|, k requires 0 <= k < |data| => KeywordOption(data[k].0, data[k].1))
  }

  const KeywordLead := "Based on the following user query, choose the most suitable keyword ID from this list: "

  function KeywordPrompt(query: string, data: PyDict.Dict<int, ContentEntry>): string {
    KeywordLead + Join(", ", KeywordOptions(data)) + ". User query: " + query
  }

  /** Every stored keyword is offered to the model under its id. */
  lemma KeywordPromptOffers(query: string, data: PyDict.Dict<int, ContentEntry>, k: nat)
    requires k < |data|
    ensures Contains(KeywordPrompt(query, data), KeywordOption(data[k].0, data[k].1))
  {
    var options := KeywordOptions(data);
    JoinContainsPart(", ", options, k);
    ContainsWithin(KeywordLead, Join(", ", options), ". User query: " + query, options[k]);
    assert KeywordPrompt(query, data) == KeywordLead + Join(", ", options) + (". User query: " + query);
  }

  /**
   * `int(m.group(1)) if m and int(m.group(1)) in data_dict else None` for
   * `m = re.search(r'ID: (\d+)', response)`: the first id mentioned, kept only
   * when it is a stored id.
   */
  function KeywordId(response: string, data: PyDict.Dict<int, ContentEntry>): (r: Option<int>)
    ensures r.Some? ==> r.value >= 0 && r.value in PyDict.Keys(data)
    ensures NoField(response, "ID: ", DecimalDigit) ==> r.None?
    ensures forall i: nat :: IsFirstField(response, "ID: ", DecimalDigit, i) ==>
              var digits := TakeWhile(response[i + 4..], DecimalDigit);
              && AllDigits(digits)
              && (r.Some? <==> ParseDecimal(digits) in PyDict.Keys(data))
              && (r.Some? ==> r.value == ParseDecimal(digits))
  {
    match GreedyCapture(response, "ID: ", DecimalDigit)
    case None => None
    case Some(digits) =>
      assert AllDigits(digits);
      var id := ParseDecimal(digits);
      if id in PyDict.Keys(data) then Some(id) else None
  }

  /** A reply naming a stored id, followed by anything but another digit, yields that id. */
  lemma {:induction false} KeywordIdRoundTrip(data: PyDict.Dict<int, ContentEntry>, id: nat, rest: string)
    requires id in PyDict.Keys(data)
    requires rest == [] || !IsDigit(rest[0])
    ensures KeywordId("ID: " + NatToDecimal(id) + rest, data) == Some(id)
  {
    var digits := NatToDecimal(id);
    var s := "ID: " + digits + rest;
    assert OccursAt(s, "ID: ", 0);
    assert s[4] == digits[0];
    assert IsFirstField(s, "ID: ", DecimalDigit, 0);
    assert s[4..] == digits + rest;
    TakeWhileStops(digits, rest, DecimalDigit);
    ParseNatToDecimal(id);
  }

  /** The keyword step once the model has answered: the stripped reply is searched. */
  function KeywordFromCompletion(c: Completion, data: PyDict.Dict<int, ContentEntry>): (r: Outcome<Option<int>>)
    ensures r.Failed? <==> c.Raised?
    ensures r.Ok? && r.value.Some? ==> r.value.value >= 0 && r.value.value in PyDict.Keys(data)
    ensures c.Completed? && NoField(Strip(c.text), "ID: ", DecimalDigit) ==> r == Ok(None)
    ensures c.Completed? ==> r == Ok(KeywordId(Strip(c.text), data))
  {
    match c
    case Raised => Failed
    case Completed(text) => Ok(KeywordId(Strip(text), data))
  }

  /** `match_query_to_keyword`: `fetch_data` reads the content table, which is given as records. */
  function MatchQueryToKeyword(query: string, records: seq<ExtractedRecord>, llm: string -> Completion)
    : (r: Outcome<Option<int>>)
    ensures r.Failed? <==> llm(KeywordPrompt(query, FetchKeywordsData(records))).Raised?
    ensures r.Ok? && r.value.Some? ==> r.value.value >= 0 && LastRecord(records, r.value.value).Some?
    ensures var c := llm(KeywordPrompt(query, FetchKeywordsData(records)));
            c.Completed? && NoField(Strip(c.text), "ID: ", DecimalDigit) ==> r == Ok(None)
    ensures var data := FetchKeywordsData(records);
            var c := llm(KeywordPrompt(query, data));
            c.Completed? ==> r == Ok(KeywordId(Strip(c.text), data))
  {
    var data := FetchKeywordsData(records);
    assert forall id :: id in PyDict.Keys(data) ==> LastRecord(records, id).Some? by {
      forall id | id in PyDict.Keys(data) ensures LastRecord(records, id).Some? {
        FetchKeywordsDataLastWins(records, id);
      }
    }
    KeywordFromCompletion(llm(KeywordPrompt(query, data)), data)
  }

  /* generate_representative_response */

  /** "Hi <name>!" for a truthy name other than "Unknown", else "Hello!". */
  function Greeting(name: Option<string>): (r: string)
    ensures r == "Hello!" <==> !Truthy(name) || name.value == "Unknown"
    ensures r != "Hello!" ==> r == "Hi " + name.value + "!"
  {
    if Truthy(name) && name.value != "Unknown" then
      var r := "Hi " + name.value + "!";
      assert r[1] != "Hello!"[1];
      r
    else "Hello!"
  }

  const Apology := " Oops, something went wrong! Please call R K Nature Cure Home for help."

  const ResponseLead := "You are a friendly receptionist at R K Nature Cure Home, a naturopathy hospital. "
    + "We are asking user to provide name and number through other function, incase they reply with name or number, just say thank you and ask how can we help you"
    + "Answer the user's question in a warm, concise tone (max 2 lines total, including greeting), using this info: '"
  const ResponseMiddle := "'. "
    + "Keep it extremely concise and avoid technical terms. If the info isn't enough, briefly suggest contacting us. User query: '"

  function ResponsePrompt(query: string, content: string): string {
    ResponseLead + content + ResponseMiddle + query + "'"
  }

  /** The reply is the stripped completion; if the call raised, the greeting and an apology. */
  function ReplyFromCompletion(name: Option<string>, c: Completion): (r: string)
    ensures c.Completed? ==> r == Strip(c.text)
    ensures c.Raised? ==> r == Greeting(name) + Apology
    ensures c.Raised? && Truthy(name) && name.value != "Unknown" ==> "Hi " + name.value + "!" <= r
  {
    match c
    case Completed(text) => Strip(text)
    case Raised => Greeting(name) + Apology
  }

  /** `generate_representative_response`: never raises; a raised call gives the greeting and an apology. */
  function GenerateRepresentativeResponse(query: string, content: string, name: Option<string>,
                                          llm: string -> Completion): (r: string)
    ensures var c := llm(ResponsePrompt(query, content));
            && (c.Completed? ==> r == Strip(c.text))
            && (c.Raised? ==> r == Greeting(name) + Apology)
  {
    ReplyFromCompletion(name, llm(ResponsePrompt(query, content)))
  }

  /* log_chat_and_update_summary */

  const PreviousLead := "Previous summary: '"
  const EntryLead := "'. New chat entry: "
  const FirstLead := "Based on this chat log: "

  const UpdateWording := ". "
    + "Update the previous summary to include any new information about the user. "
    + "If new information conflicts with old information, use the new information. "
    + "Provide a concise two-line summary of what has happened so far. "
    + "Include a second line in this format: 'User: [name], Phone: [phone], Interested in: [product]' "
    + "where [name], [phone], and [product] are extracted from both the previous summary and new chat. "
    + "Use 'Unknown' only if the information is still not available."

  const FirstWording := ", provide a concise two-line summary of what has happened so far. "
    + "Include a second line in this format: 'User: [name], Phone: [phone], Interested in: [product]' "
    + "where [name], [phone], and [product] are extracted from the log or 'Unknown' if not found."

  /** The summary prompt: the update wording when there is a non-empty stored summary. */
  function SummaryPrompt(existing: Option<string>, entry: string): (r: string)
    ensures PreviousLead <= r <==> Truthy(existing)
    ensures Contains(r, "'" + entry + "'")
  {
    if Truthy(existing) then
      ContainsInfix(PreviousLead + existing.value + EntryLead, "'" + entry + "'", UpdateWording);
      PreviousLead + existing.value + EntryLead + ("'" + entry + "'") + UpdateWording
    else
      var r := FirstLead + ("'" + entry + "'") + FirstWording;
      assert r[0] == FirstLead[0];
      ContainsInfix(FirstLead, "'" + entry + "'", FirstWording);
      r
  }

  /** The summary read before the turn is logged: None for a session without a row. */
  function StoredSummary(rows: map<string, ChatRow>, sessionId: string): (r: Option<string>)
    ensures r.Some? <==> sessionId in rows
    ensures r.Some? ==> r.value == rows[sessionId].summary
  {
    if sessionId in rows then Some(rows[sessionId].summary) else None
  }

  /** The update wording is chosen exactly when the session has a non-empty summary. */
  lemma UpdateWordingChosen(rows: map<string, ChatRow>, sessionId: string, entry: string)
    ensures PreviousLead <= SummaryPrompt(StoredSummary(rows, sessionId), entry)
            <==> sessionId in rows && rows[sessionId].summary != ""
  {
  }

  /**
   * `log_chat_and_update_summary`: read the row, append or insert the entry,
   * ask for a new summary and store it stripped. If the model raises, the log
   * has already been written but the summary is not.
   */
  method LogChatAndUpdateSummary(db: ChatLogs, sessionId: string, entry: string, llm: string -> Completion)
    returns (r: Outcome<string>)
    modifies db
    ensures var c := llm(SummaryPrompt(StoredSummary(old(db.rows), sessionId), entry));
            && (c.Raised? ==> r.Failed? && db.rows == WithLogEntry(old(db.rows), sessionId, entry))
            && (c.Completed? ==>
                  && r == Ok(Strip(c.text))
                  && db.rows == WithSummary(WithLogEntry(old(db.rows), sessionId, entry), sessionId, Strip(c.text)))
  {
    var existingSummary: Option<string> := None;
    var existingRow := db.GetChatData(sessionId);
    if existingRow.Some? {
      existingSummary := Some(existingRow.value.summary);
    }
    db.LogChat(sessionId, entry);
    var prompt := SummaryPrompt(existingSummary, entry);
    match llm(prompt)
    case Raised =>
      r := Failed;
    case Completed(text) =>
      var summary := Strip(text);
      db.UpdateSummary(sessionId, summary);
      r := Ok(summary);
  }

  /* submit_query */

  /** `data.get(...) if data else None`: a missing or empty body reads as both values absent. */
  function RequestOf(data: Option<Request>): (r: Request)
    ensures data.None? ==> r.query.None? && r.sessionId.None?
  {
    if data.Some? then data.value else Request(None, None)
  }

  /** The answer before any summary work: name, content id and reply, in that order. */
  function InitialAnswer(query: string, records: seq<ExtractedRecord>, llm: string -> Completion): (r: Outcome<string>)
    ensures var nameCall := llm(NamePrompt(query));
            var keywordCall := llm(KeywordPrompt(query, FetchKeywordsData(records)));
            r.Failed? <==> nameCall.Raised? || (nameCall.Completed? && keywordCall.Raised?)
    ensures r.Ok? ==>
              var name := NameFromCompletion(llm(NamePrompt(query))).value;
              var data := FetchKeywordsData(records);
              var matchedId := KeywordFromCompletion(llm(KeywordPrompt(query, data)), data).value;
              var replyCall := llm(ResponsePrompt(query, ContentFor(records, matchedId)));
              && (replyCall.Completed? ==> r.value == Strip(replyCall.text))
              && (replyCall.Raised? ==> r.value == Greeting(name) + Apology)
  {
    match ExtractNameFromQuery(query, llm)
    case Failed => Failed
    case Ok(name) =>
      match MatchQueryToKeyword(query, records, llm)
      case Failed => Failed
      case Ok(matchedId) => Ok(GenerateRepresentativeResponse(query, ContentFor(records, matchedId), name, llm))
  }

  /**
   * A valid request once the answer step has run, as a function of the table
   * before it: the reply and the table after it. A raised name or id call
   * ends the request before anything is stored; a raised summary call ends it
   * after the turn is logged.
   */
  function Turn(rows: map<string, ChatRow>, query: string, sessionId: string, answer: Outcome<string>,
                llm: string -> Completion): (r: (Reply, map<string, ChatRow>))
    ensures answer.Failed? ==> r == (ServerError, rows)
    ensures r.0.Answer? ==> answer.Ok? && r.0.sessionId == sessionId && answer.value <= r.0.response
    ensures r.0.Answer? || r.0.ServerError?
    ensures answer.Ok? ==>
              var entry := LogEntry(query, answer.value);
              match llm(SummaryPrompt(StoredSummary(rows, sessionId), entry))
              case Raised => r == (ServerError, WithLogEntry(rows, sessionId, entry))
              case Completed(text) => r.0 == Answer(answer.value + MissingInfoSuffix(Strip(text)), sessionId)
  {
    match answer
    case Failed => (ServerError, rows)
    case Ok(initialAnswer) =>
      var entry := LogEntry(query, initialAnswer);
      var logged := WithLogEntry(rows, sessionId, entry);
      match llm(SummaryPrompt(StoredSummary(rows, sessionId), entry))
      case Raised => (ServerError, logged)
      case Completed(text) =>
        var summary := Strip(text);
        (Answer(initialAnswer + MissingInfoSuffix(summary), sessionId), WithSummary(logged, sessionId, summary))
  }

  /**
   * What a request with an answer leaves in the table: the turn appended to the
   * session's log (or a new row holding just the turn), the summary replaced
   * only if the summary call returned, and every other session untouched.
   */
  lemma TurnStoresTurn(rows: map<string, ChatRow>, query: string, sessionId: string, answer: Outcome<string>,
                       llm: string -> Completion)
    requires answer.Ok?
    ensures var after := Turn(rows, query, sessionId, answer, llm).1;
            var entry := LogEntry(query, answer.value);
            var c := llm(SummaryPrompt(StoredSummary(rows, sessionId), entry));
            && sessionId in after
            && after[sessionId].log == (if sessionId in rows then rows[sessionId].log + " | " + entry else entry)
            && after[sessionId].summary == (if c.Completed? then Strip(c.text)
                                            else if sessionId in rows then rows[sessionId].summary else "")
            && (forall id :: id != sessionId ==> (id in after <==> id in rows))
            && (forall id :: id != sessionId && id in rows ==> after[id] == rows[id])
  {
  }

  /**
   * The reply of a request whose summary call returned asks for the name when
   * the new summary marks the user unknown, for the number when it marks the
   * phone unknown, and is the bare answer exactly when it marks neither.
   */
  lemma TurnAsksForMissingDetails(rows: map<string, ChatRow>, query: string, sessionId: string,
                                  answer: Outcome<string>, llm: string -> Completion)
    requires answer.Ok?
    requires llm(SummaryPrompt(StoredSummary(rows, sessionId), LogEntry(query, answer.value))).Completed?
    ensures var summary := Strip(llm(SummaryPrompt(StoredSummary(rows, sessionId), LogEntry(query, answer.value))).text);
            var reply := Turn(rows, query, sessionId, answer, llm).0;
            && reply.Answer?
            && (Contains(summary, "User: Unknown") ==> Contains(reply.response, "your name"))
            && (Contains(summary, "Phone: Unknown") ==> Contains(reply.response, "number"))
            && (reply.response == answer.value <==>
                  !Contains(summary, "User: Unknown") && !Contains(summary, "Phone: Unknown"))
  {
    var summary := Strip(llm(SummaryPrompt(StoredSummary(rows, sessionId), LogEntry(query, answer.value))).text);
    var suffix := MissingInfoSuffix(summary);
    assert Turn(rows, query, sessionId, answer, llm).0.response == answer.value + suffix;
    SuffixAsksForWhatIsMissing(summary);
    if Contains(summary, "User: Unknown") {
      ContainsWithin(answer.value, suffix, "", "your name");
      assert answer.value + suffix + "" == answer.value + suffix;
    }
    if Contains(summary, "Phone: Unknown") {
      ContainsWithin(answer.value, suffix, "", "number");
      assert answer.value + suffix + "" == answer.value + suffix;
    }
    assert answer.value + suffix == answer.value <==> suffix == "" by {
      if answer.value + suffix == answer.value {
        assert |suffix| == 0;
      }
    }
  }

  /** The answer step of `submit_query`: name, content id, then the reply. */
  method ComposeAnswer(query: string, records: seq<ExtractedRecord>, llm: string -> Completion)
    returns (answer: Outcome<string>)
    ensures answer == InitialAnswer(query, records, llm)
  {
    var name := ExtractNameFromQuery(query, llm);
    if name.Failed? {
      return Failed;
    }
    var matchedId := MatchQueryToKeyword(query, records, llm);
    if matchedId.Failed? {
      return Failed;
    }
    var content := ContentFor(records, matchedId.value);
    answer := Ok(GenerateRepresentativeResponse(query, content, name.value, llm));
  }

  /** The rest of `submit_query`: log the turn, update the summary and append the request for missing details. */
  method LogAndReply(db: ChatLogs, query: string, sessionId: string, answer: Outcome<string>, llm: string -> Completion)
    returns (reply: Reply)
    modifies db
    ensures (reply, db.rows) == Turn(old(db.rows), query, sessionId, answer, llm)
  {
    if answer.Failed? {
      return ServerError;
    }
    var entry := "User: " + query;
    entry := entry + " | Bot: " + answer.value;
    assert entry == LogEntry(query, answer.value);
    var summary := LogChatAndUpdateSummary(db, sessionId, entry, llm);
    if summary.Failed? {
      return ServerError;
    }
    reply := Answer(answer.value + MissingInfoSuffix(summary.value), sessionId);
  }

  /** `submit_query`: a request without Query or SessionId gets a 400 and the table is untouched. */
  method SubmitQuery(db: ChatLogs, records: seq<ExtractedRecord>, data: Option<Request>, llm: string -> Completion)
    returns (reply: Reply)
    modifies db
    ensures Validate(RequestOf(data)).Invalid? ==>
              reply == BadRequest(Validate(RequestOf(data)).error) && db.rows == old(db.rows)
    ensures Validate(RequestOf(data)).Valid? ==>
              var query := RequestOf(data).query.value;
              (reply, db.rows) == Turn(old(db.rows), query, RequestOf(data).sessionId.value,
                                       InitialAnswer(query, records, llm), llm)
  {
    match Validate(RequestOf(data))
    case Invalid(error) =>
      reply := BadRequest(error);
    case Valid(query, sessionId) =>
      var answer := ComposeAnswer(query, records, llm);
      reply := LogAndReply(db, query, sessionId, answer, llm);
  }
}
