/**
 * db/info_extractor.py: reading the user's name, phone and the product they
 * are interested in out of a chat summary, either with regular expressions or
 * by asking the language model for a JSON object (falling back to the regular
 * expressions when that fails).
 */
module InfoExtractor {
  import opened Wrappers
  import opened Text
  import opened Patterns
  import opened Llm

  /** The `(name, phone, product)` triple; "Unknown" marks a missing value. */
  datatype UserInfo = UserInfo(name: string, phone: string, product: string)

  const NoComma := NoneOf({','})
  const ProductTail := NoneOf({'.', '\n'})

  /** `m.group(1).strip()` if the search matched and that is not "Unknown", else "Unknown". */
  function Known(capture: Option<string>): string {
    if capture.Some? && Strip(capture.value) != "Unknown" then Strip(capture.value) else "Unknown"
  }

  /** A capture that strips to "Unknown" ends up the same as no match: the guard changes nothing. */
  lemma KnownIsStripOrUnknown(capture: Option<string>)
    ensures Known(capture) == if capture.Some? then Strip(capture.value) else "Unknown"
    ensures capture.Some? && Strip(capture.value) == "Unknown" ==> Known(capture) == Known(None)
  {
    if capture.Some? {
      var s := Strip(capture.value);
      assert Known(capture) == if s != "Unknown" then s else "Unknown";
    }
  }

  /**
   * Group 1 of `re.search(r'Interested in: (.+?)(?:\.|\n|$)', summary)`: the
   * first character after the prefix may be anything but a line feed; the lazy
   * capture then stops at the first '.' or line feed, or at the end.
   */
  function ProductCapture(summary: string): (r: Option<string>)
    ensures r.None? <==> NoField(summary, "Interested in: ", LineChar)
    ensures forall i: nat :: IsFirstField(summary, "Interested in: ", LineChar, i) ==>
              r == Some([summary[i + 15]] + TakeWhile(summary[i + 16..], ProductTail))
    ensures r.Some? ==> |r.value| >= 1 && '\n' !in r.value
    ensures r.Some? ==> forall k :: 1 <= k < |r.value| ==> r.value[k] != '.'
  {
    match FindField(summary, "Interested in: ", LineChar, 0)
    case None => None
    case Some(i) =>
      FirstFieldUnique(summary, "Interested in: ", LineChar, i);
      var r := ProductRun(summary, i + 15);
      assert '\n' !in r by {
        assert r[0] != '\n';
      }
      Some(r)
  }

  /** The capture once its first character is at `c`: that character, then the run up to '.' or a line feed. */
  function ProductRun(summary: string, c: nat): (r: string)
    requires c < |summary|
    ensures r == [summary[c]] + TakeWhile(summary[c + 1..], ProductTail)
    ensures |r| >= 1 && r[0] == summary[c]
    ensures forall k :: 1 <= k < |r| ==> r[k] != '.' && r[k] != '\n'
  {
    var e := ScanWhile(summary, c + 1, ProductTail);
    ScanWhileTakes(summary, c + 1, ProductTail);
    assert summary[c..e] == [summary[c]] + summary[c + 1..e];
    summary[c..e]
  }

  /** The name or phone of `extract_user_info_regex`: `re.search(prefix + r'([^,]+)')`, stripped. */
  function RegexDetail(summary: string, prefix: string): (r: string)
    ensures NoField(summary, prefix, NoComma) ==> r == "Unknown"
    ensures forall i: nat :: IsFirstField(summary, prefix, NoComma, i) ==>
              r == Strip(TakeWhile(summary[i + |prefix|..], NoComma))
    ensures ',' !in r
  {
    var capture := GreedyCapture(summary, prefix, NoComma);
    KnownIsStripOrUnknown(capture);
    Known(capture)
  }

  /** The product of `extract_user_info_regex`, stripped. */
  function RegexProduct(summary: string): (r: string)
    ensures NoField(summary, "Interested in: ", LineChar) ==> r == "Unknown"
    ensures forall i: nat :: IsFirstField(summary, "Interested in: ", LineChar, i) ==>
              r == Strip([summary[i + 15]] + TakeWhile(summary[i + 16..], ProductTail))
    ensures '\n' !in r
  {
    var capture := ProductCapture(summary);
    KnownIsStripOrUnknown(capture);
    Known(capture)
  }

  /** `extract_user_info_regex`: three strings, each "Unknown" unless its pattern matched. */
  function ExtractUserInfoRegex(summary: string): (r: UserInfo)
    ensures ',' !in r.name && ',' !in r.phone && '\n' !in r.product
    ensures (NoField(summary, "User: ", NoComma) && NoField(summary, "Phone: ", NoComma)
             && NoField(summary, "Interested in: ", LineChar)) ==> r == UserInfo("Unknown", "Unknown", "Unknown")
    ensures r.name == RegexDetail(summary, "User: ") && r.phone == RegexDetail(summary, "Phone: ")
    ensures r.product == RegexProduct(summary)
  {
    UserInfo(RegexDetail(summary, "User: "), RegexDetail(summary, "Phone: "), RegexProduct(summary))
  }

  const ExtractLead := "\n    Extract the following information from this summary:\n    1. User's name\n    2. User's phone number\n"
    + "    3. What product or service the user is interested in\n\n    Summary: \""
  const ExtractTrailer := "\"\n\n"
    + "    Format your response as a valid JSON with these keys: \"name\", \"phone\", \"product\"\n"
    + "    If any information is not available, use \"Unknown\" as the value.\n    "

  /** The prompt `extract_user_info_llm` sends (a triple-quoted, indented f-string). */
  function ExtractPrompt(summary: string): string {
    ExtractLead + summary + ExtractTrailer
  }

  /**
   * Group 1 of `re.search(r'({.*})', text, re.DOTALL)`: from the first '{' to
   * the last '}' after it.
   */
  function BraceBlock(text: string): (r: Option<string>)
    ensures r.None? <==> forall p, q :: 0 <= p < q < |text| && text[p] == '{' ==> text[q] != '}'
    ensures r.Some? ==> |r.value| >= 2 && r.value[0] == '{' && r.value[|r.value| - 1] == '}'
    ensures r.Some? ==> exists p, e :: 0 <= p < e <= |text| && r.value == text[p..e]
                                       && '{' !in text[..p] && '}' !in text[e..]
  {
    var p, q := FirstIndexOf(text, '{'), LastIndexOf(text, '}');
    if 0 <= p < q then Some(text[p..q + 1]) else None
  }

  /** What `json.loads` makes of the block: an error, or an object whose string values are kept. */
  datatype JsonOutcome = Malformed | Object(fields: map<string, string>)

  /** `data.get(key, "Unknown")`. */
  function GetOrUnknown(fields: map<string, string>, key: string): (r: string)
    ensures key !in fields ==> r == "Unknown"
    ensures key in fields ==> r == fields[key]
  {
    if key in fields then fields[key] else "Unknown"
  }

  /**
   * The part of `extract_user_info_llm` after the model call: the completion,
   * stripped, is searched for a `{...}` block which is parsed as JSON. An
   * exception from the model or the parser, or a completion with no block,
   * falls back to the regular expressions on the same summary.
   */
  function FromCompletion(summary: string, completion: Completion, parseJson: string -> JsonOutcome): (r: UserInfo)
    ensures completion.Raised? ==> r == ExtractUserInfoRegex(summary)
    ensures completion.Completed? && BraceBlock(Strip(completion.text)).None? ==> r == ExtractUserInfoRegex(summary)
    ensures completion.Completed? ==>
              var block := BraceBlock(Strip(completion.text));
              && (block.Some? && parseJson(block.value).Malformed? ==> r == ExtractUserInfoRegex(summary))
              && (block.Some? && parseJson(block.value).Object? ==>
                    var fields := parseJson(block.value).fields;
                    && ("name" !in fields ==> r.name == "Unknown")
                    && ("phone" !in fields ==> r.phone == "Unknown")
                    && ("product" !in fields ==> r.product == "Unknown")
                    && ("name" in fields ==> r.name == fields["name"])
                    && ("phone" in fields ==> r.phone == fields["phone"])
                    && ("product" in fields ==> r.product == fields["product"]))
  {
    match completion
    case Raised => ExtractUserInfoRegex(summary)
    case Completed(text) =>
      match BraceBlock(Strip(text))
      case None => ExtractUserInfoRegex(summary)
      case Some(block) =>
        match parseJson(block)
        case Malformed => ExtractUserInfoRegex(summary)
        case Object(fields) =>
          UserInfo(GetOrUnknown(fields, "name"), GetOrUnknown(fields, "phone"), GetOrUnknown(fields, "product"))
  }

  /**
   * `extract_user_info_llm`: one model call on the extraction prompt. A raised
   * call, a completion without a `{...}` block or a block that does not parse
   * gives the regular-expression reading of the summary; a parsed object gives
   * its three values, "Unknown" for a missing key.
   */
  function ExtractUserInfoLlm(summary: string, llm: string -> Completion, parseJson: string -> JsonOutcome): (r: UserInfo)
    ensures var c := llm(ExtractPrompt(summary));
            && (c.Raised? ==> r == ExtractUserInfoRegex(summary))
            && (c.Completed? && BraceBlock(Strip(c.text)).None? ==> r == ExtractUserInfoRegex(summary))
            && (c.Completed? && BraceBlock(Strip(c.text)).Some? ==>
                  match parseJson(BraceBlock(Strip(c.text)).value)
                  case Malformed => r == ExtractUserInfoRegex(summary)
                  case Object(fields) =>
                    r == UserInfo(GetOrUnknown(fields, "name"), GetOrUnknown(fields, "phone"),
                                  GetOrUnknown(fields, "product")))
  {
    FromCompletion(summary, llm(ExtractPrompt(summary)), parseJson)
  }
}
