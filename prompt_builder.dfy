/**
 * backend/prompt_builder.py: the single prompt sent to the language model,
 * built by string concatenation from the user query, the content corpus, the
 * template names, an optional chat summary, the known name and phone, and a
 * table of per-template guidance.
 */
module PromptBuilder {
  import opened Wrappers
  import opened Text
  import PyDict

  /** How an f-string renders an optional string: `None` prints as "None". */
  function Show(s: Option<string>): string {
    match s
    case Some(v) => v
    case None => "None"
  }

  const ContextLead := "Chat history summary: "
  const QueryLead := "Analyze this user query carefully: '"
  const ContentLead := "AVAILABLE CONTENT:\n"

  /**
   * The fixed wording of the prompt between the values spliced into it. The
   * layout functions below take it as a parameter, so what is proved about the
   * layout holds whatever the wording; `SourceWording` is the text the backend
   * sends.
   */
  datatype Wording = Wording(
    nameIntro: string,       // Task 1 up to the first rendering of the name
    nameAgain: string,       // between the first and second rendering
    nameReturn: string,      // after the second rendering, up to the hint
    nameClosing: string,     // after the hint
    phoneIntro: string,      // Task 2 up to the hint
    templateLead: string,    // Task 3 up to the list of template names
    templateTrailer: string, // after the list
    summaryTask: string,     // Task 4
    personaLead: string,     // the receptionist instructions up to the query
    personaTrailer: string,  // after the query
    guidanceLead: string,    // before the guidance lines
    formatTrailer: string)   // the reply format the parser relies on

  function SourceWording(): Wording {
    Wording(
      "Task 1: The user's name is already known to be '",
      "' if not None. If the user asks about their name, tell them their name is '",
      "'. Only look for a new name in the query if it appears to be different from the existing known name.\n\nReturn the name as a single word or phrase (e.g., 'John') or 'Unknown' if no name is found. ",
      " If the user asks his name, tell it to him if you have the information.\n\n",
      "Task 2: Extract the user's phone number from this query if provided. Return just the digits of the phone number or 'Unknown' if no phone number is found. ",
      "Task 3: Choose the most suitable template out of the following options: ",
      ". If no template is appropriate, use 'Unknown'. Just follow the template's specific instructions & write the name of the template here ( write Unknown if no template exists)\n\n",
      "Task 4: Provide a concise two-line summary of any important details, and the conversation history. ",
      "You are a friendly receptionist at R K Nature Cure Home, a naturopathy hospital. We are asking user to provide name and number through other function, incase they reply with name or number, just say thank you and ask how can we help you. Answer the user's question in a warm, concise tone (max 2 lines total, including greeting). Keep it extremely concise and avoid technical terms. If the info isn't enough, briefly suggest contacting us. User query: '",
      "' Proactively list the therapies offered if the user query is about a specific health issue, and be sympathetic & conscious of the other person's pain. ",
      "Use the template guidance to shape your response:\n\n",
      "Format your response exactly like this:\nName: [Name or Unknown]\nPhone: [Phone or Unknown]\nTemplate: [Template or General]\nSummary: [Summary]\nResponse: [Your actual response to the user]")
  }

  /** The optional context prefix. */
  function Context(summary: Option<string>): string {
    if Truthy(summary) then ContextLead + summary.value + "\n\n" else ""
  }

  function QueryLine(query: string): string {
    QueryLead + query + "'\n\n"
  }

  /** `base_prompt`: the instructions given to the receptionist persona. */
  function BasePrompt(w: Wording, query: string): string {
    w.personaLead + query + w.personaTrailer
  }

  function GuidanceLine(entry: (string, string)): string {
    "- " + entry.0 + ": " + entry.1
  }

  function GuidanceLines(guidance: PyDict.Dict<string, string>): seq<string> {
    seq(|guidance|, i requires 0 <= i < |guidance| => GuidanceLine(guidance[i]))
  }

  /** One "- <template>: <guidance>" line per table entry, in table order. */
  function GuidanceBlock(guidance: PyDict.Dict<string, string>): string {
    Join("\n", GuidanceLines(guidance))
  }

  function ContentEntry(entry: (int, string)): string {
    "Content ID " + IntToDecimal(entry.0) + ":\n" + entry.1
  }

  function ContentEntries(bulk: PyDict.Dict<int, string>): (r: seq<string>)
    ensures |r| == |bulk|
    ensures forall j :: 0 <= j < |bulk| ==> r[j] == "Content ID " + IntToDecimal(bulk[j].0) + ":\n" + bulk[j].1
  {
    seq(|bulk|, i requires 0 <= i < |bulk| => ContentEntry(bulk[i]))
  }

  /** One "Content ID <id>:\n<content>" per corpus entry, in corpus order. */
  function ContentSection(bulk: PyDict.Dict<int, string>): string {
    Join("\n", ContentEntries(bulk))
  }

  function ContentBlock(bulk: PyDict.Dict<int, string>): string {
    ContentLead + ContentSection(bulk) + "\n\n"
  }

  /** Task 1 hands the model the known name, rendered three times. */
  function NameTask(w: Wording, name: Option<string>): string {
    w.nameIntro + Show(name) + w.nameAgain + Show(name) + w.nameReturn + NameHint(name) + w.nameClosing
  }

  function NameHint(name: Option<string>): string {
    "The name might be " + Show(name) + "."
  }

  /** Task 2 hands the model the known phone. */
  function PhoneTask(w: Wording, phone: Option<string>): string {
    w.phoneIntro + PhoneHint(phone) + "\n\n"
  }

  function PhoneHint(phone: Option<string>): string {
    "The number might be " + Show(phone)
  }

  /** Task 3 lists the template names, comma-separated. */
  function TemplateTask(w: Wording, choices: seq<string>): string {
    w.templateLead + Join(", ", choices) + w.templateTrailer
  }

  /** Task 5: the persona's instructions, then the guidance table. */
  function ResponseTask(w: Wording, query: string, guidance: PyDict.Dict<string, string>): string {
    "Task 5: " + BasePrompt(w, query) + w.guidanceLead + GuidanceBlock(guidance) + "\n\n"
  }

  /** The prompt's sections, in order. */
  function Sections(w: Wording, query: string, bulk: PyDict.Dict<int, string>, choices: seq<string>,
                    summary: Option<string>, name: Option<string>, phone: Option<string>,
                    guidance: PyDict.Dict<string, string>): seq<string>
  {
    [ Context(summary), QueryLine(query), ContentBlock(bulk), NameTask(w, name), PhoneTask(w, phone),
      TemplateTask(w, choices), w.summaryTask, ResponseTask(w, query, guidance), w.formatTrailer ]
  }

  /** The prompt both prompt builders produce, for a given wording and guidance table. */
  function Assemble(w: Wording, query: string, bulk: PyDict.Dict<int, string>, choices: seq<string>,
                    summary: Option<string>, name: Option<string>, phone: Option<string>,
                    guidance: PyDict.Dict<string, string>): string
  {
    Concat(Sections(w, query, bulk, choices, summary, name, phone, guidance))
  }

  /**
   * `build_prompt` with the guidance table of `get_template_guidance`; the
   * backend's wording is `SourceWording()`. The prompt opens with the summary
   * context exactly when the summary is truthy, quotes the query, offers the
   * template names as one comma-separated list and ends with the reply format.
   */
  function BuildPrompt(w: Wording, query: string, bulk: PyDict.Dict<int, string>, choices: seq<string>,
                       summary: Option<string>, name: Option<string>, phone: Option<string>): (r: string)
    ensures ContextLead <= r <==> Truthy(summary)
    ensures Contains(r, QueryLead + query + "'")
    ensures Contains(r, w.templateLead + Join(", ", choices) + w.templateTrailer)
    ensures |w.formatTrailer| <= |r| && r[|r| - |w.formatTrailer|..] == w.formatTrailer
  {
    var g := TemplateGuidance();
    AssembleOpening(w, query, bulk, choices, summary, name, phone, g);
    AssembleQuotesQuery(w, query, bulk, choices, summary, name, phone, g);
    AssembleChoicesBlock(w, query, bulk, choices, summary, name, phone, g);
    AssembleClosing(w, query, bulk, choices, summary, name, phone, g);
    Assemble(w, query, bulk, choices, summary, name, phone, g)
  }

  /**
   * The prompt `build_prompt` sends: its layout with the backend's own wording.
   * What holds of it is what `BuildPrompt` states for every wording.
   */
  function BackendPrompt(query: string, bulk: PyDict.Dict<int, string>, choices: seq<string>,
                         summary: Option<string>, name: Option<string>, phone: Option<string>): string
  {
    BuildPrompt(SourceWording(), query, bulk, choices, summary, name, phone)
  }

  /**
   * The prompt opens with the context line exactly when the summary is truthy;
   * otherwise it opens with the query line.
   */
  lemma AssembleOpening(w: Wording, query: string, bulk: PyDict.Dict<int, string>, choices: seq<string>,
                        summary: Option<string>, name: Option<string>, phone: Option<string>,
                        guidance: PyDict.Dict<string, string>)
    ensures ContextLead <= Assemble(w, query, bulk, choices, summary, name, phone, guidance) <==> Truthy(summary)
    ensures Truthy(summary) ==>
              ContextLead + summary.value + "\n\n" + QueryLine(query) <= Assemble(w, query, bulk, choices, summary, name, phone, guidance)
    ensures !Truthy(summary) ==> QueryLine(query) <= Assemble(w, query, bulk, choices, summary, name, phone, guidance)
  {
    var parts := Sections(w, query, bulk, choices, summary, name, phone, guidance);
    ConcatOpening(parts);
    if !Truthy(summary) {
      assert parts[0] + parts[1] == QueryLine(query);
      assert QueryLine(query)[0] == 'A' != ContextLead[0];
    }
  }

  /** The prompt always ends with the reply format the parser expects. */
  lemma AssembleClosing(w: Wording, query: string, bulk: PyDict.Dict<int, string>, choices: seq<string>,
                        summary: Option<string>, name: Option<string>, phone: Option<string>,
                        guidance: PyDict.Dict<string, string>)
    ensures var p := Assemble(w, query, bulk, choices, summary, name, phone, guidance);
            |w.formatTrailer| <= |p| && p[|p| - |w.formatTrailer|..] == w.formatTrailer
  {
    ConcatClosing(Sections(w, query, bulk, choices, summary, name, phone, guidance));
  }

  /** The prompt opens with the optional context, the query line and the content block. */
  lemma AssembleContentPrefix(w: Wording, query: string, bulk: PyDict.Dict<int, string>, choices: seq<string>,
                             summary: Option<string>, name: Option<string>, phone: Option<string>,
                             guidance: PyDict.Dict<string, string>)
    ensures Context(summary) + QueryLine(query) + ContentBlock(bulk)
            <= Assemble(w, query, bulk, choices, summary, name, phone, guidance)
  {
    var parts := Sections(w, query, bulk, choices, summary, name, phone, guidance);
    ConcatOpening3(parts);
  }

  /** Task 3, with its list of choices, is part of the prompt. */
  lemma AssembleChoicesBlock(w: Wording, query: string, bulk: PyDict.Dict<int, string>, choices: seq<string>,
                             summary: Option<string>, name: Option<string>, phone: Option<string>,
                             guidance: PyDict.Dict<string, string>)
    ensures Contains(Assemble(w, query, bulk, choices, summary, name, phone, guidance), TemplateTask(w, choices))
  {
    var parts := Sections(w, query, bulk, choices, summary, name, phone, guidance);
    ConcatHasPart(parts, 5);
  }

  /**
   * Right after the opening, the prompt lists the corpus under
   * "AVAILABLE CONTENT:\n": the entries in corpus order, one per line, then a
   * blank line. Every entry therefore appears as "Content ID <id>:\n<content>".
   */
  lemma AssembleListsContent(w: Wording, query: string, bulk: PyDict.Dict<int, string>, choices: seq<string>,
                             summary: Option<string>, name: Option<string>, phone: Option<string>,
                             guidance: PyDict.Dict<string, string>, k: nat)
    requires k < |bulk|
    ensures Context(summary) + QueryLine(query) + ContentLead + Join("\n", ContentEntries(bulk)) + "\n\n"
            <= Assemble(w, query, bulk, choices, summary, name, phone, guidance)
    ensures Contains(Assemble(w, query, bulk, choices, summary, name, phone, guidance),
                     "Content ID " + IntToDecimal(bulk[k].0) + ":\n" + bulk[k].1)
  {
    AssembleContentPrefix(w, query, bulk, choices, summary, name, phone, guidance);
    assert Context(summary) + QueryLine(query) + ContentBlock(bulk)
        == Context(summary) + QueryLine(query) + ContentLead + Join("\n", ContentEntries(bulk)) + "\n\n";
    ContentBlockHasEntry(bulk, k);
    ConcatContains(Sections(w, query, bulk, choices, summary, name, phone, guidance), 2, ContentEntry(bulk[k]));
  }

  /** Every corpus entry is in the content block. */
  lemma ContentBlockHasEntry(bulk: PyDict.Dict<int, string>, k: nat)
    requires k < |bulk|
    ensures Contains(ContentBlock(bulk), ContentEntry(bulk[k]))
  {
    JoinContainsPart("\n", ContentEntries(bulk), k);
    ContainsWithin(ContentLead, ContentSection(bulk), "\n\n", ContentEntry(bulk[k]));
  }

  /**
   * Task 3 offers the template choices joined by ", " between its two pieces
   * of wording; every choice is therefore in the prompt.
   */
  lemma AssembleOffersChoices(w: Wording, query: string, bulk: PyDict.Dict<int, string>, choices: seq<string>,
                              summary: Option<string>, name: Option<string>, phone: Option<string>,
                              guidance: PyDict.Dict<string, string>, k: nat)
    requires k < |choices|
    ensures Contains(Assemble(w, query, bulk, choices, summary, name, phone, guidance),
                     w.templateLead + Join(", ", choices) + w.templateTrailer)
    ensures Contains(Assemble(w, query, bulk, choices, summary, name, phone, guidance), choices[k])
  {
    AssembleChoicesBlock(w, query, bulk, choices, summary, name, phone, guidance);
    JoinContainsPart(", ", choices, k);
    ContainsWithin(w.templateLead, Join(", ", choices), w.templateTrailer, choices[k]);
    ContainsTrans(Assemble(w, query, bulk, choices, summary, name, phone, guidance), TemplateTask(w, choices), choices[k]);
  }

  /** Task 5 hands over the whole guidance block, after its lead and before a blank line. */
  lemma AssembleGuidanceBlock(w: Wording, query: string, bulk: PyDict.Dict<int, string>, choices: seq<string>,
                              summary: Option<string>, name: Option<string>, phone: Option<string>,
                              guidance: PyDict.Dict<string, string>)
    ensures Contains(Assemble(w, query, bulk, choices, summary, name, phone, guidance),
                     w.guidanceLead + GuidanceBlock(guidance) + "\n\n")
  {
    var lead, block := "Task 5: " + BasePrompt(w, query), w.guidanceLead + GuidanceBlock(guidance) + "\n\n";
    ContainsInfix(lead, block, "");
    assert lead + block + "" == ResponseTask(w, query, guidance);
    ConcatContains(Sections(w, query, bulk, choices, summary, name, phone, guidance), 7, block);
  }

  /**
   * The guidance block, one "- <template>: <guidance>" line per entry in table
   * order, sits in the prompt between its lead and a blank line; every entry
   * therefore appears in the prompt.
   */
  lemma AssembleShowsGuidance(w: Wording, query: string, bulk: PyDict.Dict<int, string>, choices: seq<string>,
                              summary: Option<string>, name: Option<string>, phone: Option<string>,
                              guidance: PyDict.Dict<string, string>, k: nat)
    requires k < |guidance|
    ensures Contains(Assemble(w, query, bulk, choices, summary, name, phone, guidance),
                     w.guidanceLead + GuidanceBlock(guidance) + "\n\n")
    ensures Contains(Assemble(w, query, bulk, choices, summary, name, phone, guidance),
                     "- " + guidance[k].0 + ": " + guidance[k].1)
  {
    AssembleGuidanceBlock(w, query, bulk, choices, summary, name, phone, guidance);
    JoinContainsPart("\n", GuidanceLines(guidance), k);
    ContainsWithin("Task 5: " + BasePrompt(w, query) + w.guidanceLead, GuidanceBlock(guidance), "\n\n",
                   GuidanceLine(guidance[k]));
    ConcatContains(Sections(w, query, bulk, choices, summary, name, phone, guidance), 7, GuidanceLine(guidance[k]));
  }

  /** The known name and phone are handed to the model; an unknown one is written as "None". */
  lemma AssembleShowsKnownDetails(w: Wording, query: string, bulk: PyDict.Dict<int, string>, choices: seq<string>,
                                  summary: Option<string>, name: Option<string>, phone: Option<string>,
                                  guidance: PyDict.Dict<string, string>)
    ensures Contains(Assemble(w, query, bulk, choices, summary, name, phone, guidance),
                     "The name might be " + Show(name) + ".")
    ensures Contains(Assemble(w, query, bulk, choices, summary, name, phone, guidance),
                     "The number might be " + Show(phone))
    ensures name.None? ==> Contains(Assemble(w, query, bulk, choices, summary, name, phone, guidance),
                                    "The name might be None.")
  {
    var parts := Sections(w, query, bulk, choices, summary, name, phone, guidance);
    ContainsInfix(w.nameIntro + Show(name) + w.nameAgain + Show(name) + w.nameReturn, NameHint(name), w.nameClosing);
    ConcatContains(parts, 3, NameHint(name));
    ContainsInfix(w.phoneIntro, PhoneHint(phone), "\n\n");
    ConcatContains(parts, 4, PhoneHint(phone));
    if name.None? {
      assert NameHint(name) == "The name might be None.";
    }
  }

  /** The query is quoted twice: in the opening line and in the persona's instructions. */
  lemma AssembleQuotesQuery(w: Wording, query: string, bulk: PyDict.Dict<int, string>, choices: seq<string>,
                            summary: Option<string>, name: Option<string>, phone: Option<string>,
                            guidance: PyDict.Dict<string, string>)
    ensures Contains(Assemble(w, query, bulk, choices, summary, name, phone, guidance), QueryLead + query + "'")
    ensures Contains(Assemble(w, query, bulk, choices, summary, name, phone, guidance), BasePrompt(w, query))
  {
    var parts := Sections(w, query, bulk, choices, summary, name, phone, guidance);
    ContainsInfix("", QueryLead + query + "'", "\n\n");
    assert "" + (QueryLead + query + "'") + "\n\n" == parts[1];
    ConcatContains(parts, 1, QueryLead + query + "'");
    ContainsInfix("Task 5: ", BasePrompt(w, query), w.guidanceLead + GuidanceBlock(guidance) + "\n\n");
    assert "Task 5: " + BasePrompt(w, query) + (w.guidanceLead + GuidanceBlock(guidance) + "\n\n") == parts[7];
    ConcatContains(parts, 7, BasePrompt(w, query));
  }

  /**
   * When no template name or guidance holds a line break, the guidance block
   * splits back into its lines, one per table entry.
   */
  lemma GuidanceBlockLines(guidance: PyDict.Dict<string, string>)
    requires |guidance| >= 1
    requires forall k :: 0 <= k < |guidance| ==> '\n' !in guidance[k].0 && '\n' !in guidance[k].1
    ensures Split(GuidanceBlock(guidance), '\n') == GuidanceLines(guidance)
  {
    var lines := GuidanceLines(guidance);
    forall k | 0 <= k < |lines| ensures '\n' !in lines[k] {
      assert lines[k] == "- " + guidance[k].0 + ": " + guidance[k].1;
    }
    assert "\n" == ['\n'];
    SplitJoin(lines, '\n');
  }

  /** `get_template_guidance`, in the dict's insertion order. */
  function TemplateGuidance(): (g: PyDict.Dict<string, string>)
    ensures |g| == 40
  {
    seq(40, i requires 0 <= i < 40 => (TemplateName(i), TemplateText(i)))
  }

  /** The template name at position `i` of the guidance table. */
  function TemplateName(i: nat): string
    requires i < 40
  {
    match i
    case 0 => "Hello"
    case 1 => "Introduction"
    case 2 => "AboutUs"
    case 3 => "HealthIssueGeneral"
    case 4 => "BackPain"
    case 5 => "JointPain"
    case 6 => "Stress"
    case 7 => "Diabetes"
    case 8 => "Location"
    case 9 => "OurContactDetails"
    case 10 => "Directions"
    case 11 => "TherapyOptions"
    case 12 => "OnlineServices"
    case 13 => "Accommodation"
    case 14 => "Appointment"
    case 15 => "BookingProcess"
    case 16 => "FirstVisitInfo"
    case 17 => "Pricing"
    case 18 => "Insurance"
    case 19 => "Packages"
    case 20 => "TreatmentDuration"
    case 21 => "ShortStay"
    case 22 => "Follow-up"
    case 23 => "HomeRemedies"
    case 24 => "YogaPrograms"
    case 25 => "Diet"
    case 26 => "DietaryGuidance"
    case 27 => "DetoxPrograms"
    case 28 => "SafetyProtocols"
    case 29 => "Covid"
    case 30 => "Hours"
    case 31 => "Doctors"
    case 32 => "Consultation"
    case 33 => "FirstVisit"
    case 34 => "Wellness"
    case 35 => "Treatment"
    case 36 => "Emergency"
    case 37 => "Testimonials"
    case 38 => "General"
    case 39 => "Unknown"
  }

  /** The guidance text of the template at position `i`. */
  function TemplateText(i: nat): string
    requires i < 40
  {
    match i
    case 0 => "Provide a friendly greeting and welcome them to RK Nature Cure Home."
    case 1 => "Briefly introduce RK Nature Cure Home as a premier naturopathy center in Coimbatore."
    case 2 => "Focus on our center's natural healing approach using scientifically-backed naturopathic methods."
    case 3 => "Acknowledge their health concerns and mention all the holistic solutions offered."
    case 4 => "Acknowledge their back pain and mention all the different therapies offered."
    case 5 => "Acknowledge that joint pain can be debilitating and mention our mud therapy and physiotherapy."
    case 6 => "Emphasize our holistic approach to stress management including meditation and pranayama."
    case 7 => "Mention our natural approach to diabetes management with diet plans and exercises."
    case 8 => "Share our address: Krishna Layout, Ganapathy, Coimbatore - 641006."
    case 9 => "Provide our contact number +91 88700-66622 and mention reception hours (6 AM to 8 PM)."
    case 10 => "Offer simple directions to our facility."
    case 11 => "Mention we offer personalized treatments based on specific health needs."
    case 12 => "Confirm we offer online consultations for dietary guidance and yoga sessions."
    case 13 => "Mention our comfortable stay options for extended treatment programs."
    case 14 => "Offer to schedule an appointment and ask for preferred timing."
    case 15 => "Explain our simple booking process via phone (+91 88700-66622)."
    case 16 => "Advise them to bring medical reports and expect a 45-60 minute consultation."
    case 17 => "Mention our customized packages and flexible payment options."
    case 18 => "Explain we provide documentation for insurance reimbursement claims."
    case 19 => "Briefly mention our 7-day and 14-day residential programs."
    case 20 => "Explain treatment duration varies based on condition (typically 7-14 days minimum)."
    case 21 => "Mention our weekend wellness retreats for short rejuvenation."
    case 22 => "Emphasize the importance of follow-up care for lasting results."
    case 23 => "Suggest some simple home practices that complement in-center treatments."
    case 24 => "Highlight our therapeutic yoga programs for various conditions."
    case 25 => "Stress the importance of nutrition in healing and our personalized meal plans."
    case 26 => "Mention our approach combining ancient wisdom with modern nutritional science."
    case 27 => "Describe our detox programs for eliminating toxins and system rejuvenation."
    case 28 => "Reassure about our strict hygiene protocols and certified professionals."
    case 29 => "Explain our COVID safety measures including sanitization and distancing."
    case 30 => "Share our opening hours (6 AM to 8 PM) and treatment/consultation timings."
    case 31 => "Mention our team of experienced naturopaths and wellness specialists."
    case 32 => "Describe our comprehensive consultations and offer online/in-person options."
    case 33 => "Explain what to expect during their first visit and assessment."
    case 34 => "Mention our five pillars approach: diet, exercise, stress management, rest, and positive thinking."
    case 35 => "Emphasize our natural, non-invasive treatment approach."
    case 36 => "Provide emergency contact information (+91 88700-66622) and mention medical team availability."
    case 37 => "Mention patient success stories and improvements."
    case 38 => " Answer in the way you think will help the user"
    case 39 => "Answer in the way you think will help the user, provide our phone (+91 88700-66622) "
  }

  /** The guidance table has 40 distinct template names. */
  lemma TemplateGuidanceKeysUnique()
    ensures PyDict.KeysUnique(TemplateGuidance())
  {
    TemplateNamesDistinct();
  }

  /** "General" is in the table with its guidance; "Unknown" is in the table. */
  lemma TemplateGuidanceGeneral()
    ensures PyDict.Get(TemplateGuidance(), "General") == Some(" Answer in the way you think will help the user")
    ensures "Unknown" in PyDict.Keys(TemplateGuidance())
  {
    TemplateGuidanceKeysUnique();
    TemplateGeneralRow();
    TemplateUnknownRow();
    PyDict.GetAt(TemplateGuidance(), 38);
  }

  lemma TemplateGeneralRow()
    ensures TemplateGuidance()[38] == ("General", " Answer in the way you think will help the user")
  {
    assert TemplateName(38) == "General";
  }

  lemma TemplateUnknownRow()
    ensures TemplateGuidance()[39].0 == "Unknown"
  {
  }

  /** No template name appears twice. */
  lemma TemplateNamesDistinct()
    ensures forall i: nat, j: nat :: i < j < 40 ==> TemplateName(i) != TemplateName(j)
  {
  }
}
