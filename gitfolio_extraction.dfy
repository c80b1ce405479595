/**
 * The request-decision logic of the portfolio backend: the three Flask
 * handlers' checks, the cleaning of the language model's reply, the choice
 * of HTTP status and the message list sent to the model. Everything the
 * handlers delegate to a library is a parameter: the chat-completion call is
 * a `Completer`, `json.loads` a `JsonParser`, and an `Upload` carries what
 * PyPDF2 and UTF-8 decoding yield for the uploaded file.
 */
module GitfolioExtraction {
  import opened Wrappers
  import opened Strings

  /** A value as `json.loads` produces it and `jsonify` sends it. */
  datatype Json =
    | JNull
    | JBool(b: bool)
    | JNumber(n: int)
    | JString(s: string)
    | JArray(items: seq<Json>)
    | JObject(fields: map<string, Json>)

  /**
   * Python truthiness of a JSON value (`not value` is its negation): the
   * falsy values are exactly `None`, `False`, zero and the empty string,
   * list and dict.
   */
  predicate Truthy(v: Json)
    ensures !Truthy(v) <==>
      v == JNull || v == JBool(false) || v == JNumber(0) || v == JString([]) || v == JArray([]) || v == JObject(map[])
  {
    match v
    case JNull => false
    case JBool(b) => b
    case JNumber(n) => n != 0
    case JString(s) => s != []
    case JArray(items) => items != []
    case JObject(fields) => fields != map[]
  }

  /** `{"error": message}` */
  function ErrorObject(message: string): Json {
    JObject(map["error" := JString(message)])
  }

  /** `{"role": role, "content": content}`, one entry of a chat-completion message list. */
  function RoleMessage(role: string, content: string): Json {
    JObject(map["role" := JString(role), "content" := JString(content)])
  }

  /** One call of `client.chat.completions.create`; the temperature is in tenths. */
  datatype CompletionRequest = CompletionRequest(model: string, messages: seq<Json>, maxTokens: nat, temperatureTenths: nat)

  /** What the call yields: the first choice's message content, or the exception it raised. */
  datatype ModelReply = Completion(content: string) | ApiFailure(description: string)

  type Completer = CompletionRequest -> ModelReply

  /** `json.loads`: `None` stands for `json.JSONDecodeError`. */
  type JsonParser = string -> Option<Json>

  /**
   * What a handler does: return a JSON body with a status, return `None`
   * (Flask then fails the request), or let an exception escape.
   */
  datatype Reply = Respond(body: Json, status: nat) | ReturnedNone | Raised

  /**
   * The two system prompts: the `system_prompt` of
   * `extract_portfolio_details` and the content of `chat_portfolio`'s
   * `system_message`. The handlers take them as a parameter, so everything
   * proved about the handlers holds whatever their wording;
   * `DeployedPrompts` gives the texts the backend sends.
   */
  datatype Prompts = Prompts(extraction: string, chat: string)

  function DeployedPrompts(): Prompts {
    Prompts(
      "Extract key details from the resume for a portfolio. "
      + "Return **only** valid JSON with the following fields:\n\n "
      + "{\n"
      + "  \"name\": string,\n"
      + "  \"job_title\": string,\n"
      + "  \"skills\": [string],\n"
      + "  \"projects\": [string],\n"
      + "  \"work_experience\": [string]\n"
      + "}",
      // The missing space between "portfolio" and "Give" is in the deployed prompt.
      "You are a friendly personal assistant for building a web portfolio. "
      + "You provide thoughtful, non-pushy suggestions based on the user's input and the needs of the computer science job market. "
      + "Once the user gives you their resume, generate an html file to create a portfolio"
      + "Give clear, concise suggestions to help improve the portfolio, but let the user decide.")
  }

  function ExtractionRequest(prompts: Prompts, resumeText: string): CompletionRequest {
    CompletionRequest("gpt-4o-mini", [RoleMessage("system", prompts.extraction), RoleMessage("user", resumeText)], 250, 5)
  }

  // ---------------------------------------------------------------------------
  // Removing markdown code fences: re.sub(r"^```(json)?|```$", "", text)
  // ---------------------------------------------------------------------------

  /**
   * The length of the match of `^```(json)?|```$` that starts at position
   * `i` of `t`, or 0 when there is none. Without `re.MULTILINE`, `^` holds
   * only at position 0, and `$` at the end of `t` or just before a newline
   * that ends `t`. The optional group is greedy, so "```json" is preferred.
   */
  function FenceMatchAt(t: string, i: nat): (n: nat)
    requires i <= |t|
    ensures i + n <= |t|
  {
    if i == 0 && StartsWith(t, "```json") then 7
    else if i == 0 && StartsWith(t, "```") then 3
    else if t[i..] == "```" || t[i..] == "```\n" then 3
    else 0
  }

  /**
   * `re.sub` as the regular-expression engine runs it from position `i`:
   * left to right, each match is dropped and scanning resumes after it;
   * every character not inside a match is kept.
   */
  function SubFencesFrom(t: string, i: nat): (r: string)
    requires i <= |t|
    ensures |r| <= |t| - i
    decreases |t| - i
  {
    if i == |t| then []
    else
      var n := FenceMatchAt(t, i);
      if n > 0 then SubFencesFrom(t, i + n) else [t[i]] + SubFencesFrom(t, i + 1)
  }

  /** Length of the opening fence removed at the start of `t`: 7, 3 or 0. */
  function OpeningFence(t: string): (n: nat)
    ensures n <= |t|
  {
    if StartsWith(t, "```json") then 7 else if StartsWith(t, "```") then 3 else 0
  }

  /** Both opening fences begin with three backticks. */
  lemma OpeningFenceStartsWithBackticks(t: string)
    ensures StartsWith(t, "```json") ==> StartsWith(t, "```")
  {
    if |t| >= 7 {
      assert t[..3] == t[..7][..3];
    }
  }

  /**
   * Where the closing fence starts: at `|t| - 3` for a final "```", at
   * `|t| - 4` for a final "```" and newline, and `|t|` when there is none;
   * a closing fence that would overlap the opening one does not count.
   */
  function ClosingFence(t: string): (e: nat)
    ensures OpeningFence(t) <= e <= |t|
  {
    var p := OpeningFence(t);
    if |t| >= p + 3 && EndsWith(t, "```") then |t| - 3
    else if |t| >= p + 4 && EndsWith(t, "```\n") then |t| - 4
    else |t|
  }

  /**
   * The fence removal in closed form: drop the opening fence, then a
   * closing "```" when it lies wholly after the opening fence; Python's `$`
   * also lets it match just before a final newline, which is then kept.
   */
  function StripFences(t: string): string {
    var p, e := OpeningFence(t), ClosingFence(t);
    if e == |t| - 4 then t[p..e] + "\n" else t[p..e]
  }

  /** Where no match starts, the scan keeps the character. */
  lemma SubFencesKeeps(t: string, i: nat)
    requires i < |t| && FenceMatchAt(t, i) == 0
    ensures SubFencesFrom(t, i) == [t[i]] + SubFencesFrom(t, i + 1)
  {
  }

  /** Scanning copies every character of a stretch without matches. */
  lemma {:induction false} SubFencesCopies(t: string, i: nat, e: nat)
    requires i <= e <= |t|
    requires forall k :: i <= k < e ==> FenceMatchAt(t, k) == 0
    ensures SubFencesFrom(t, i) == t[i..e] + SubFencesFrom(t, e)
    decreases e - i
  {
    if i < e {
      SubFencesKeeps(t, i);
      SubFencesCopies(t, i + 1, e);
      calc {
        SubFencesFrom(t, i);
        [t[i]] + SubFencesFrom(t, i + 1);
        [t[i]] + (t[i + 1..e] + SubFencesFrom(t, e));
        { assert t[i..e] == [t[i]] + t[i + 1..e]; }
        t[i..e] + SubFencesFrom(t, e);
      }
    }
  }

  /** A text cannot end both with "```" and with "```" and a newline. */
  lemma FinalFencesExclusive(t: string)
    ensures !(EndsWith(t, "```") && EndsWith(t, "```\n"))
  {
    if |t| >= 4 {
      assert t[|t| - 4..][3] == t[|t| - 1];
    }
  }

  /** Between the opening and the closing fence the pattern matches nowhere. */
  lemma NoMatchInside(t: string, k: nat)
    requires OpeningFence(t) <= k < ClosingFence(t)
    ensures FenceMatchAt(t, k) == 0
  {
    var p := OpeningFence(t);
    if k == 0 {
      assert !StartsWith(t, "```");
      assert !StartsWith(t, "```json");
    }
    FinalFencesExclusive(t);
  }

  /** The engine's scan and the closed form agree on every text. */
  lemma SubFencesIsStripFences(t: string)
    ensures SubFencesFrom(t, 0) == StripFences(t)
  {
    var p, e := OpeningFence(t), ClosingFence(t);
    assert SubFencesFrom(t, 0) == SubFencesFrom(t, p) by {
      if p > 0 {
        assert FenceMatchAt(t, 0) == p;
      }
    }
    forall k | p <= k < e ensures FenceMatchAt(t, k) == 0 {
      NoMatchInside(t, k);
    }
    SubFencesCopies(t, p, e);
    if e == |t| - 3 {
      assert t[e..] == "```";
      assert FenceMatchAt(t, e) == 3;
    } else if e == |t| - 4 {
      assert t[e..] == "```\n";
      assert FenceMatchAt(t, e) == 3;
      assert FenceMatchAt(t, |t| - 1) == 0;
      assert SubFencesFrom(t, |t| - 1) == "\n";
    }
  }

  /**
   * `portfolio_data.strip()` followed by `re.sub(..., portfolio_data.strip())`:
   * the reply is stripped (twice) before the fences are removed.
   */
  function CleanReply(content: string): (r: string)
    ensures |r| <= |content|
  {
    var stripped := PyStrip(PyStrip(content));
    SubFencesFrom(stripped, 0)
  }

  /** Cleaning a reply is the closed-form fence removal applied to the stripped reply. */
  lemma CleanReplyIsStripFences(content: string)
    ensures CleanReply(content) == StripFences(PyStrip(content))
  {
    TrimIdempotent(content, IsPyWhitespace);
    SubFencesIsStripFences(PyStrip(content));
  }

  /** A stripped reply does not end in a newline. */
  lemma StrippedHasNoFinalNewline(content: string)
    ensures var s := PyStrip(content); s == [] || s[|s| - 1] != '\n'
  {
    assert IsPyWhitespace('\n');
  }

  /**
   * On text that does not end in a newline, `$` matches only at the very
   * end, so the fence removal keeps the one slice between the opening fence
   * and a final "```".
   */
  lemma StripFencesWithoutFinalNewline(s: string)
    requires s == [] || s[|s| - 1] != '\n'
    ensures var p := OpeningFence(s);
      var e := if |s| >= p + 3 && EndsWith(s, "```") then |s| - 3 else |s|;
      p <= e && StripFences(s) == s[p..e]
  {
    assert !EndsWith(s, "```\n") by {
      if |s| >= 4 {
        assert s[|s| - 4..][3] == s[|s| - 1];
      }
    }
  }

  /**
   * On a stripped reply the fence removal keeps one contiguous stretch: it
   * drops the opening fence at the start and a closing "```" at the end
   * only when the two do not overlap; nothing in between changes.
   */
  lemma CleanReplyKeepsInterior(content: string)
    ensures var s := PyStrip(content);
      var p := OpeningFence(s);
      var e := if |s| >= p + 3 && EndsWith(s, "```") then |s| - 3 else |s|;
      p <= e && CleanReply(content) == s[p..e]
  {
    CleanReplyIsStripFences(content);
    StrippedHasNoFinalNewline(content);
    StripFencesWithoutFinalNewline(PyStrip(content));
  }

  /** A reply with no fence at either end is only stripped. */
  lemma CleanReplyWithoutFences(content: string)
    requires !StartsWith(PyStrip(content), "```") && !EndsWith(PyStrip(content), "```")
    ensures CleanReply(content) == PyStrip(content)
  {
    var s := PyStrip(content);
    OpeningFenceStartsWithBackticks(s);
    assert OpeningFence(s) == 0;
    CleanReplyKeepsInterior(content);
    assert s[0..|s|] == s;
  }

  /** A body wrapped in a "```json" fence comes back exactly, whatever fences it holds inside. */
  lemma CleanReplyUnwrapsJsonFence(content: string, body: string)
    requires PyStrip(content) == "```json" + body + "```"
    ensures CleanReply(content) == body
  {
    CleanReplyKeepsInterior(content);
    var s := PyStrip(content);
    assert StartsWith(s, "```json");
    assert EndsWith(s, "```");
    assert s[7..|s| - 3] == body;
  }

  /** A reply that is only an opening fence cleans to nothing: the closing "```" may not reuse its backticks. */
  lemma CleanReplyOverlappingFences(content: string)
    requires PyStrip(content) == "```json" || PyStrip(content) == "```"
    ensures CleanReply(content) == []
  {
    CleanReplyKeepsInterior(content);
  }

  // ---------------------------------------------------------------------------
  // extract_portfolio_details
  // ---------------------------------------------------------------------------

  /** Python's `key in result` for a string `key`; `None` when it raises `TypeError`. */
  function PyIn(key: string, result: Json): Option<bool> {
    match result
    case JObject(fields) => Some(key in fields)
    case JArray(items) => Some(JString(key) in items)
    case JString(s) => Some(Contains(s, key))
    case _ => None
  }

  /** `{"raw_response": data, "warning": "Could not parse JSON"}`: a reply passed on unparsed, which is not an error. */
  function RawResponse(data: string): (r: Json)
    ensures r.JObject? && "error" !in r.fields
  {
    JObject(map["raw_response" := JString(data), "warning" := JString("Could not parse JSON")])
  }

  /**
   * `extract_portfolio_details`: an empty resume is refused without a
   * model call; otherwise the model's reply is cleaned and parsed, and a
   * reply that does not parse is returned raw with a warning.
   */
  function ExtractPortfolioDetails(prompts: Prompts, resumeText: string, complete: Completer, parse: JsonParser): (r: Json)
    ensures resumeText == [] ==> r == ErrorObject("No resume provided")
    ensures resumeText != [] ==>
      var reply := complete(ExtractionRequest(prompts, resumeText));
      && (reply.ApiFailure? ==> r == ErrorObject("OpenAI API error: " + reply.description))
      && (reply.Completion? ==> r == match parse(CleanReply(reply.content))
                                    case Some(v) => v
                                    case None => RawResponse(CleanReply(reply.content)))
    ensures r.JObject? && "error" in r.fields ==>
      resumeText == [] || complete(ExtractionRequest(prompts, resumeText)).ApiFailure?
      || parse(CleanReply(complete(ExtractionRequest(prompts, resumeText)).content)) == Some(r)
  {
    if resumeText == [] then ErrorObject("No resume provided")
    else
      var reply := complete(ExtractionRequest(prompts, resumeText));
      if reply.ApiFailure? then ErrorObject("OpenAI API error: " + reply.description)
      else
        var data := CleanReply(reply.content);
        var parsed := parse(data);
        if parsed.Some? then parsed.value else RawResponse(data)
  }

  /** An empty resume gives the same answer whatever the model and the parser would do: no call is made. */
  lemma EmptyResumeMakesNoCall(prompts: Prompts, c1: Completer, c2: Completer, p1: JsonParser, p2: JsonParser)
    ensures ExtractPortfolioDetails(prompts, [], c1, p1) == ExtractPortfolioDetails(prompts, [], c2, p2)
  {
  }

  /** A reply that does not parse as JSON is passed on raw, with a warning and no "error" key. */
  lemma UnparsedReplyIsNotAnError(prompts: Prompts, resumeText: string, complete: Completer, parse: JsonParser)
    ensures var reply := complete(ExtractionRequest(prompts, resumeText));
      var r := ExtractPortfolioDetails(prompts, resumeText, complete, parse);
      resumeText != [] && reply.Completion? && parse(CleanReply(reply.content)) == None ==>
        r == JObject(map["raw_response" := JString(CleanReply(reply.content)), "warning" := JString("Could not parse JSON")])
        && StatusFor(r) == Some(200)
  {
  }

  // ---------------------------------------------------------------------------
  // generate_portfolio
  // ---------------------------------------------------------------------------

  /**
   * The uploaded `resume_file`: its name, the text PyPDF2 extracts from each
   * page (`None` when the reader raises), and its contents decoded as UTF-8
   * (`None` when decoding raises).
   */
  datatype Upload = Upload(filename: string, pdfPages: Option<seq<string>>, utf8Text: Option<string>)

  /** Python's `sep.join(parts)`. */
  function Join(sep: string, parts: seq<string>): (r: string)
    ensures parts != [] && parts[0] != [] ==> r != []
  {
    if parts == [] then []
    else if |parts| == 1 then parts[0]
    else parts[0] + sep + Join(sep, parts[1..])
  }

  /** The page texts that are truthy, in page order. */
  function NonEmptyPages(pages: seq<string>): (r: seq<string>)
    ensures |r| <= |pages|
    ensures forall i :: 0 <= i < |r| ==> r[i] != []
    ensures forall p :: p in r <==> p in pages && p != []
    ensures r == [] <==> forall i :: 0 <= i < |pages| ==> pages[i] == []
  {
    if pages == [] then []
    else if pages[0] == [] then NonEmptyPages(pages[1..])
    else [pages[0]] + NonEmptyPages(pages[1..])
  }

  /** Filtering page by page keeps the order: the kept texts of two runs of pages follow each other. */
  lemma {:induction false} NonEmptyPagesAppend(a: seq<string>, b: seq<string>)
    ensures NonEmptyPages(a + b) == NonEmptyPages(a) + NonEmptyPages(b)
  {
    if a == [] {
      assert a + b == b;
    } else {
      assert (a + b)[1..] == a[1..] + b;
      NonEmptyPagesAppend(a[1..], b);
    }
  }

  /**
   * `' '.join(page.extract_text() for page in reader.pages if page.extract_text())`:
   * empty exactly when every page yields empty text.
   */
  function PdfText(pages: seq<string>): (r: string)
    ensures r == [] <==> forall i :: 0 <= i < |pages| ==> pages[i] == []
  {
    Join(" ", NonEmptyPages(pages))
  }

  /** The `if`/`elif` chain on the file name, tested in this order and case-sensitively. */
  datatype FileKind = Pdf | Txt | Docx | Unsupported

  function Dispatch(filename: string): (k: FileKind)
    ensures k == Pdf <==> EndsWith(filename, ".pdf")
    ensures k == Txt <==> EndsWith(filename, ".txt")
    ensures k == Docx <==> EndsWith(filename, ".docx")
    ensures k == Unsupported <==>
      !EndsWith(filename, ".pdf") && !EndsWith(filename, ".txt") && !EndsWith(filename, ".docx")
  {
    if EndsWith(filename, ".pdf") then Pdf
    else if EndsWith(filename, ".txt") then Txt
    else if EndsWith(filename, ".docx") then Docx
    else Unsupported
  }

  /** `400 if "error" in result else 200`; `None` when the test raises `TypeError`. */
  function StatusFor(result: Json): (r: Option<nat>)
    ensures r.Some? ==> r.value == 200 || r.value == 400
    ensures result.JObject? ==> r == Some(if "error" in result.fields then 400 else 200)
  {
    match PyIn("error", result)
    case Some(hasError) => Some(if hasError then 400 else 200)
    case None => None
  }

  /**
   * The end of `generate_portfolio`'s `try`: extract the details, choose the
   * status by `"error" in result` and respond with both. When the model's
   * JSON is `null`, a boolean or a number, that test raises `TypeError` and
   * the silent `except` makes the handler return `None`.
   */
  function RespondWithDetails(prompts: Prompts, resumeText: string, complete: Completer, parse: JsonParser): (r: Reply)
    ensures resumeText == [] ==> r == Respond(ErrorObject("No resume provided"), 400)
    ensures var result := ExtractPortfolioDetails(prompts, resumeText, complete, parse);
      && (r.Respond? || r == ReturnedNone)
      && (r.Respond? ==> r.status == 200 || r.status == 400)
      && (r == ReturnedNone <==> result.JNull? || result.JBool? || result.JNumber?)
      && (r.Respond? ==> r.body == result)
      && (result.JObject? ==> r.Respond? && (r.status == 400 <==> "error" in result.fields))
      && (result.JArray? ==> r.Respond? && (r.status == 400 <==> JString("error") in result.items))
      && (result.JString? ==> r.Respond? && (r.status == 400 <==> Contains(result.s, "error")))
  {
    var result := ExtractPortfolioDetails(prompts, resumeText, complete, parse);
    match StatusFor(result)
    case Some(status) => Respond(result, status)
    case None => ReturnedNone
  }

  /**
   * `generate_portfolio`. Any exception raised inside its `try` ends in an
   * `except` branch that builds a 500 response and drops it, so the handler
   * returns `None`; that is also the fate of every ".docx" upload, because
   * the attribute `doc.paragrahs` does not exist.
   */
  function GeneratePortfolio(prompts: Prompts, upload: Upload, complete: Completer, parse: JsonParser): (r: Reply)
    ensures upload.filename == [] ==> r == Respond(ErrorObject("No file selected"), 400)
    ensures upload.filename != [] && Dispatch(upload.filename) == Unsupported ==>
      r == Respond(ErrorObject("Unsupported file type"), 400)
    ensures upload.filename != [] && Dispatch(upload.filename) == Pdf ==>
      r == if upload.pdfPages.Some? then RespondWithDetails(prompts, PdfText(upload.pdfPages.value), complete, parse)
           else ReturnedNone
    ensures upload.filename != [] && Dispatch(upload.filename) == Txt ==>
      r == if upload.utf8Text.Some? then RespondWithDetails(prompts, upload.utf8Text.value, complete, parse)
           else ReturnedNone
    ensures upload.filename != [] && Dispatch(upload.filename) == Docx ==> r == ReturnedNone
    ensures r.Respond? ==> r.status == 200 || r.status == 400
    ensures r.Respond? && r.body.JObject? ==> (r.status == 400 <==> "error" in r.body.fields)
  {
    if upload.filename == [] then Respond(ErrorObject("No file selected"), 400)
    else
      match Dispatch(upload.filename)
      case Pdf =>
        (match upload.pdfPages
         case Some(pages) => RespondWithDetails(prompts, PdfText(pages), complete, parse)
         case None => ReturnedNone)
      case Txt =>
        (match upload.utf8Text
         case Some(text) => RespondWithDetails(prompts, text, complete, parse)
         case None => ReturnedNone)
      case Docx => ReturnedNone
      case Unsupported => Respond(ErrorObject("Unsupported file type"), 400)
  }

  /** Suffixes are compared case-sensitively: an upper-case ".PDF" is refused. */
  lemma UpperCaseSuffixIsUnsupported(prompts: Prompts, pdfPages: Option<seq<string>>, utf8Text: Option<string>, complete: Completer, parse: JsonParser)
    ensures GeneratePortfolio(prompts, Upload("resume.PDF", pdfPages, utf8Text), complete, parse)
      == Respond(ErrorObject("Unsupported file type"), 400)
  {
    assert !EndsWith("resume.PDF", ".pdf") by { assert "resume.PDF"[9] == 'F'; }
    assert !EndsWith("resume.PDF", ".txt") by { assert "resume.PDF"[9] == 'F'; }
    assert !EndsWith("resume.PDF", ".docx") by { assert "resume.PDF"[9] == 'F'; }
  }

  /** A PDF whose pages all yield empty text is refused as an empty resume, without a model call. */
  lemma BlankPdfIsRejected(prompts: Prompts, upload: Upload, pages: seq<string>, complete: Completer, parse: JsonParser)
    requires EndsWith(upload.filename, ".pdf") && upload.pdfPages == Some(pages)
    requires forall i :: 0 <= i < |pages| ==> pages[i] == []
    ensures GeneratePortfolio(prompts, upload, complete, parse) == Respond(ErrorObject("No resume provided"), 400)
  {
  }

  // ---------------------------------------------------------------------------
  // chat_portfolio
  // ---------------------------------------------------------------------------

  function SystemMessage(prompts: Prompts): Json {
    RoleMessage("system", prompts.chat)
  }

  /**
   * `data.get("conversation", [])` followed by `if not conversation:
   * conversation = []`: a missing or falsy conversation becomes `[]`. `None` when evaluating
   * `[system_message] + conversation` would raise, outside the handler's
   * `try`: the request body is not an object, or the conversation is a
   * truthy value that is not a list.
   */
  function Conversation(data: Json): (r: Option<seq<Json>>)
    ensures !data.JObject? ==> r == None
    ensures r == None <==>
      (!data.JObject?
       || ("conversation" in data.fields && Truthy(data.fields["conversation"]) && !data.fields["conversation"].JArray?))
    ensures data.JObject? && ("conversation" !in data.fields || !Truthy(data.fields["conversation"])) ==>
      r == Some([])
    ensures data.JObject? && "conversation" in data.fields && data.fields["conversation"].JArray? ==>
      r == Some(data.fields["conversation"].items)
  {
    match data
    case JObject(fields) =>
      var conversation := if "conversation" in fields then fields["conversation"] else JArray([]);
      if !Truthy(conversation) then Some([])
      else if conversation.JArray? then Some(conversation.items)
      else None
    case _ => None
  }

  /**
   * The chat-completion call the handler makes, or `None` when it raises
   * before making one. The messages are `[system_message] + conversation`:
   * the system message first, then the conversation unchanged and in its
   * original order.
   */
  function ChatRequest(prompts: Prompts, data: Json): (r: Option<CompletionRequest>)
    ensures r.Some? <==> Conversation(data).Some?
    ensures r.Some? ==>
      var conversation := Conversation(data).value;
      |r.value.messages| == 1 + |conversation| && r.value.messages[0] == SystemMessage(prompts)
      && forall i :: 0 <= i < |conversation| ==> r.value.messages[i + 1] == conversation[i]
  {
    match Conversation(data)
    case Some(conversation) => Some(CompletionRequest("gpt-4o-mini", [SystemMessage(prompts)] + conversation, 150, 7))
    case None => None
  }

  /**
   * `chat_portfolio`: the model is sent `ChatRequest`, and its suggestion is
   * answered with 200, its failure with 500.
   */
  function ChatPortfolio(prompts: Prompts, data: Json, complete: Completer): (r: Reply)
    ensures Conversation(data).None? <==> r == Raised
    ensures ChatRequest(prompts, data).Some? ==>
      var reply := complete(ChatRequest(prompts, data).value);
      && (reply.Completion? ==> r == Respond(JObject(map["suggestion" := JString(reply.content)]), 200))
      && (reply.ApiFailure? ==> r == Respond(ErrorObject("OpenAI API error: " + reply.description), 500))
    ensures r.Respond? ==> r.body.JObject? && (r.status == 500 <==> "error" in r.body.fields)
    ensures r.Respond? ==> r.status == 200 || r.status == 500
  {
    match ChatRequest(prompts, data)
    case None => Raised
    case Some(request) =>
      match complete(request)
      case Completion(suggestion) => Respond(JObject(map["suggestion" := JString(suggestion)]), 200)
      case ApiFailure(description) => Respond(ErrorObject("OpenAI API error: " + description), 500)
  }

  /** With no conversation, or an empty one, the model is sent the system message alone. */
  lemma ChatWithoutConversation(prompts: Prompts, fields: map<string, Json>)
    requires "conversation" !in fields || !Truthy(fields["conversation"])
    ensures ChatRequest(prompts, JObject(fields)).Some?
    ensures ChatRequest(prompts, JObject(fields)).value.messages == [SystemMessage(prompts)]
  {
  }
}
