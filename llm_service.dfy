/**
 * backend/llm_service.py, `ai_clubbed`: one prompt asks the model for the
 * user's name and phone, a template, a summary and the reply; the completion
 * is then read back field by field with regular-expression searches.
 */
module LlmService {
  import opened Wrappers
  import opened Text
  import opened Patterns
  import opened Llm
  import PyDict
  import PromptBuilder

  const GeneralGuidance := "Provide a general helpful response and ask how else we can assist."
  const DefaultTemplate := "General"
  const DefaultResponse :=
    "I'm here to help you with information about RK Nature Cure Home. How can I assist you today?"

  /**
   * The guidance table written out inside `ai_clubbed`: the same templates in
   * the same order as `get_template_guidance`, with another text for "General".
   */
  function ClubbedGuidance(): (g: PyDict.Dict<string, string>)
    ensures |g| == 40
  {
    PromptBuilder.TemplateGuidance()[38 := ("General", GeneralGuidance)]
  }

  /** The two tables have the same keys and differ only in the guidance for "General". */
  lemma ClubbedGuidanceShape()
    ensures PyDict.KeysUnique(ClubbedGuidance())
    ensures PyDict.Keys(ClubbedGuidance()) == PyDict.Keys(PromptBuilder.TemplateGuidance())
    ensures PyDict.Get(ClubbedGuidance(), "General") == Some(GeneralGuidance)
    ensures forall k :: 0 <= k < 40 && k != 38 ==> ClubbedGuidance()[k] == PromptBuilder.TemplateGuidance()[k]
  {
    var g, t := ClubbedGuidance(), PromptBuilder.TemplateGuidance();
    PromptBuilder.TemplateGuidanceKeysUnique();
    PromptBuilder.TemplateGeneralRow();
    assert forall k :: 0 <= k < 40 ==> g[k].0 == t[k].0;
    assert PyDict.Keys(g) == PyDict.Keys(t);
    PyDict.GetAt(g, 38);
  }

  /**
   * The prompt `ai_clubbed` sends: `build_prompt`'s layout with the clubbed
   * guidance table (the backend's wording is `PromptBuilder.SourceWording()`).
   */
  function ClubbedPrompt(w: PromptBuilder.Wording, query: string, bulk: PyDict.Dict<int, string>, choices: seq<string>,
                         summary: Option<string>, name: Option<string>, phone: Option<string>): (r: string)
    ensures PromptBuilder.ContextLead <= r <==> Truthy(summary)
    ensures Contains(r, PromptBuilder.QueryLead + query + "'")
    ensures Contains(r, w.templateLead + Join(", ", choices) + w.templateTrailer)
    ensures |w.formatTrailer| <= |r| && r[|r| - |w.formatTrailer|..] == w.formatTrailer
  {
    var g := ClubbedGuidance();
    PromptBuilder.AssembleOpening(w, query, bulk, choices, summary, name, phone, g);
    PromptBuilder.AssembleQuotesQuery(w, query, bulk, choices, summary, name, phone, g);
    PromptBuilder.AssembleChoicesBlock(w, query, bulk, choices, summary, name, phone, g);
    PromptBuilder.AssembleClosing(w, query, bulk, choices, summary, name, phone, g);
    PromptBuilder.Assemble(w, query, bulk, choices, summary, name, phone, g)
  }

  /** The clubbed prompt opens with the chat summary exactly when it is truthy. */
  lemma ClubbedPromptOpening(w: PromptBuilder.Wording, query: string, bulk: PyDict.Dict<int, string>, choices: seq<string>,
                             summary: Option<string>, name: Option<string>, phone: Option<string>)
    ensures PromptBuilder.ContextLead <= ClubbedPrompt(w, query, bulk, choices, summary, name, phone)
            <==> Truthy(summary)
    ensures !Truthy(summary) ==>
              PromptBuilder.QueryLine(query) <= ClubbedPrompt(w, query, bulk, choices, summary, name, phone)
  {
    PromptBuilder.AssembleOpening(w, query, bulk, choices, summary, name, phone, ClubbedGuidance());
  }

  /** The sentinel "Unknown" stands for an absent value; anything else is kept as it is. */
  function FromSentinel(s: string): (r: Option<string>)
    ensures r.None? <==> s == "Unknown"
    ensures r.Some? ==> r.value == s
  {
    if s != "Unknown" then Some(s) else None
  }

  /**
   * The name or phone: `re.search(prefix + "(.+)")`, the capture stripped,
   * "Unknown" when there is no match, and "Unknown" read as absent.
   */
  function ParseDetail(text: string, prefix: string): (r: Option<string>)
    ensures NoField(text, prefix, LineChar) ==> r.None?
    ensures forall i: nat :: IsFirstField(text, prefix, LineChar, i) ==>
              r == FromSentinel(Strip(TakeWhile(text[i + |prefix|..], LineChar)))
    ensures r.Some? ==> r.value != "Unknown" && Trimmed(r.value) && '\n' !in r.value
  {
    var detail := match GreedyCapture(text, prefix, LineChar)
                  case Some(c) => Strip(c)
                  case None => "Unknown";
    FromSentinel(detail)
  }

  /** The template: the stripped capture of `Template: (.+)`, "General" when absent. */
  function ParseTemplate(text: string): (r: string)
    ensures NoField(text, "Template: ", LineChar) ==> r == DefaultTemplate
    ensures forall i: nat :: IsFirstField(text, "Template: ", LineChar, i) ==>
              r == Strip(TakeWhile(text[i + 10..], LineChar))
  {
    match GreedyCapture(text, "Template: ", LineChar)
    case Some(c) => Strip(c)
    case None => DefaultTemplate
  }

  /**
   * Where the lookahead `(?=Response:|$)` succeeds: before "Response:", at the
   * end of the text, or (since `$` also matches there) before a final line feed.
   */
  predicate SummaryStop(t: string, j: nat) {
    OccursAt(t, "Response:", j) || j == |t| || (j + 1 == |t| && t[j] == '\n')
  }

  /** The first position at or after `from` where the lazy summary capture may stop. */
  function NextStop(t: string, from: nat): (r: nat)
    requires from <= |t|
    ensures from <= r <= |t| && SummaryStop(t, r)
    ensures forall k :: from <= k < r ==> !SummaryStop(t, k)
    decreases |t| - from
  {
    if SummaryStop(t, from) then from else NextStop(t, from + 1)
  }

  /**
   * The summary: `re.search(r'Summary: (.+?)(?=Response:|$)', text, re.DOTALL)`,
   * whose lazy capture takes at least one character and stops at the first
   * position where the lookahead holds; stripped, and "" without a match.
   */
  function ParseSummary(text: string): (r: string)
    ensures NoField(text, "Summary: ", AnyChar) ==> r == ""
    ensures Trimmed(r)
  {
    match FindField(text, "Summary: ", AnyChar, 0)
    case None => ""
    case Some(i) => Strip(text[i + 9..NextStop(text, i + 10)])
  }

  /** The summary runs up to the first later "Response:". */
  lemma SummaryUpToResponse(text: string, i: nat, j: nat)
    requires IsFirstField(text, "Summary: ", AnyChar, i)
    requires i + 10 <= j && OccursAt(text, "Response:", j)
    requires forall k :: i + 10 <= k < j ==> !OccursAt(text, "Response:", k)
    ensures ParseSummary(text) == Strip(text[i + 9..j])
  {
    FindFirstField(text, "Summary: ", AnyChar, i);
    assert SummaryStop(text, j);
    assert forall k :: i + 10 <= k < j ==> !SummaryStop(text, k);
    assert NextStop(text, i + 10) == j;
  }

  /** Without a later "Response:", the summary runs to the end of the text. */
  lemma SummaryToEnd(text: string, i: nat)
    requires IsFirstField(text, "Summary: ", AnyChar, i)
    requires forall k :: i + 10 <= k ==> !OccursAt(text, "Response:", k)
    ensures ParseSummary(text) == Strip(text[i + 9..])
  {
    SummaryAtFirstField(text, i);
    StopAtEnd(text, i + 10);
    StripToLineEnd(text, i + 9, NextStop(text, i + 10));
  }

  /** The summary is the stripped text from the first field to the next stop. */
  lemma SummaryAtFirstField(text: string, i: nat)
    requires IsFirstField(text, "Summary: ", AnyChar, i)
    ensures ParseSummary(text) == Strip(text[i + 9..NextStop(text, i + 10)])
  {
    FindFirstField(text, "Summary: ", AnyChar, i);
  }

  /** Stopping before a final line feed strips to the same text as running to the end. */
  lemma StripToLineEnd(text: string, c: nat, j: nat)
    requires c <= j <= |text|
    requires j == |text| || (j + 1 == |text| && text[j] == '\n')
    ensures Strip(text[c..j]) == Strip(text[c..])
  {
    if j < |text| {
      var body := text[c..j];
      assert text[c..] == body + ['\n'];
      StripDropsTrailingSpace(body, '\n');
    } else {
      assert text[c..j] == text[c..];
    }
  }

  /** With no "Response:" ahead, the lookahead holds only at the end or before a final line feed. */
  lemma StopAtEnd(text: string, from: nat)
    requires from <= |text|
    requires forall k :: from <= k ==> !OccursAt(text, "Response:", k)
    ensures var j := NextStop(text, from);
            j == |text| || (j + 1 == |text| && text[j] == '\n')
  {
  }

  /** The reply: all the text after the first "Response: ", stripped; a fixed reply without one. */
  function ParseResponse(text: string): (r: string)
    ensures NoField(text, "Response: ", AnyChar) ==> r == DefaultResponse
    ensures forall i: nat :: IsFirstField(text, "Response: ", AnyChar, i) ==> r == Strip(text[i + 10..])
  {
    match GreedyCapture(text, "Response: ", AnyChar)
    case Some(c) =>
      assert forall i: nat :: IsFirstField(text, "Response: ", AnyChar, i) ==> c == text[i + 10..] by {
        forall i: nat | IsFirstField(text, "Response: ", AnyChar, i) ensures c == text[i + 10..] {
          TakeWhileAny(text[i + 10..]);
        }
      }
      Strip(c)
    case None => DefaultResponse
  }

  /** What `ai_clubbed` returns: the template is parsed but only logged. */
  datatype ClubbedReply = ClubbedReply(name: Option<string>, phone: Option<string>, summary: string, response: string)

  /** The second half of `ai_clubbed`: the completion text read back into its fields. */
  function ParseCompletion(text: string): (r: ClubbedReply)
    ensures r.name.Some? ==> r.name.value != "Unknown" && '\n' !in r.name.value
    ensures r.phone.Some? ==> r.phone.value != "Unknown" && '\n' !in r.phone.value
    ensures Trimmed(r.summary)
    ensures r.name == ParseDetail(text, "Name: ") && r.phone == ParseDetail(text, "Phone: ")
    ensures r.summary == ParseSummary(text) && r.response == ParseResponse(text)
  {
    ClubbedReply(ParseDetail(text, "Name: "), ParseDetail(text, "Phone: "), ParseSummary(text), ParseResponse(text))
  }

  /** `ai_clubbed`: prompt the model once; an exception from the call propagates. */
  function AiClubbed(w: PromptBuilder.Wording, query: string, bulk: PyDict.Dict<int, string>, choices: seq<string>,
                     summary: Option<string>, name: Option<string>, phone: Option<string>,
                     llm: string -> Completion): (r: Option<ClubbedReply>)
    ensures r.None? <==> llm(ClubbedPrompt(w, query, bulk, choices, summary, name, phone)).Raised?
    ensures var c := llm(ClubbedPrompt(w, query, bulk, choices, summary, name, phone));
            c.Completed? ==> r == Some(ParseCompletion(c.text))
  {
    match llm(ClubbedPrompt(w, query, bulk, choices, summary, name, phone))
    case Completed(text) => Some(ParseCompletion(text))
    case Raised => None
  }
}
