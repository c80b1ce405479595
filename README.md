# GitFolio chat and extraction core, in Dafny

GitFolio builds a web portfolio from a resume. A user types requirements
and attaches a resume in a chat panel. A Flask backend has a language model
extract the portfolio details from the resume and answer chat turns.

This project models two pieces of that system's logic:

- **The chat panel** (`ChatPortfolio` React component): the class
  `Frontend.ChatPortfolio`. It holds the component's three pieces of state:
  the typed text `chatInput`, the conversation `chatHistory` and the
  attached `file`. Each event handler is one atomic state transition.
  The send guard (`CanSend`) refuses a send when the trimmed text is empty
  and no file is attached. An accepted send appends exactly one user
  message, with the raw untrimmed text and the file's name, and then clears
  the text and the file. A second immediate send therefore does nothing.
  This component's own send button has no `disabled` prop. The
  `ChatInterface` component disables its send button on the negation of
  the same guard; `SendDisabled` states that expression over this state.
- **The backend's decision logic** (`gitfolio_extraction.py`): the module
  `GitfolioExtraction`, written as pure functions.
  - `extract_portfolio_details` refuses an empty resume without calling the
    model. Otherwise it strips the model's reply and removes markdown code
    fences with `re.sub(r"^```(json)?|```$", "", ...)`. A reply that does
    not parse as JSON is returned raw with a warning.
  - `generate_portfolio` rejects an empty file name first. It then
    dispatches case-sensitively on `.pdf`, `.txt` and `.docx`, in that
    order, and answers 400 exactly when `"error" in result` holds (a dict
    key, a list element or a substring). A result that is a number, a
    boolean or `null` makes the handler return `None`.
  - `chat_portfolio` sends the system message followed by the conversation.

The regular-expression substitution has two definitions. `SubFencesFrom`
scans left to right the way Python's regex engine does, and `StripFences`
is the closed form. `SubFencesIsStripFences` proves that they agree on
every text. The lemmas about reply cleaning are then stated on the closed
form, for replies that were stripped first.

Python's `in` is modelled for every type it can meet in the status test
(the helper `PyIn`): a key of a dict, an element of a list, or a substring
of a string. On a number, a boolean or `null` it raises `TypeError`.
`RespondWithDetails` states the resulting status for each of these cases.

Library and network calls are parameters of the model:

- the chat-completion call is a function `Completer` from request to reply;
- `json.loads` is a function `JsonParser` (`None` stands for
  `JSONDecodeError`);
- an `Upload` carries what PyPDF2 yields for each page and what UTF-8
  decoding yields (`None` when the library raises).

Two paths of `generate_portfolio` are modelled as written, not as
intended:

- Its `except` branch builds a 500 response but never returns it, so an
  exception inside the `try` makes the handler return `None`. The model
  gives `Reply.ReturnedNone` for this.
- The `.docx` branch reads `doc.paragrahs`, which does not exist, so every
  `.docx` upload ends in that same branch. It never produces text.

The handlers take the two system prompts as a `Prompts` parameter, so the
properties hold whatever the prompts say. `DeployedPrompts` holds the texts
the backend sends, including the missing space between "portfolio" and
"Give" in the chat prompt.

## Model

| member | source | states |
|---|---|---|
| `Strings.TrimLeft` | frontend/src/components/ChatPortfolio.jsx:18 | the result is a suffix of the input, everything dropped is white space, and the result does not start with white space |
| `Strings.TrimRight` | frontend/src/components/ChatPortfolio.jsx:18 | the result is a prefix of the input, everything dropped is white space, and the result does not end with white space |
| `Strings.Trim` | frontend/src/components/ChatPortfolio.jsx:18 | `trim()`/`strip()` yields empty text exactly when every character is white space; otherwise the result starts and ends with a character that is not white space |
| `Strings.TrimKeepsMiddle` | frontend/src/components/ChatPortfolio.jsx:18 | trimming only cuts the ends: the result is one contiguous stretch of the input, and every character before and after it is white space |
| `Strings.JsTrim` | frontend/src/components/ChatPortfolio.jsx:18 | JavaScript's `trim()` gives empty text exactly when every character is ECMAScript white space or a line terminator |
| `Strings.PyStrip` | backend/gitfolio_extraction.py:48 | Python's `strip()` gives empty text exactly when every character is one for which `isspace()` holds |
| `Strings.TrimIdempotent` | backend/gitfolio_extraction.py:48-49 | stripping the reply a second time, as line 49 does, changes nothing |
| `Frontend.CanSend` | frontend/src/components/ChatPortfolio.jsx:18 | a send goes through exactly when a file is attached or the text holds a character that is not white space; it is refused when no file is attached and the text is only white space (or empty) |
| `Frontend.FileAloneCanSend` | frontend/src/components/ChatPortfolio.jsx:18 | an attached file is enough to send, whatever the text, so the stored text may be empty |
| `Frontend.ChatPortfolio.constructor` | frontend/src/components/ChatPortfolio.jsx:5-7 | the initial state is empty text, empty history and no file |
| `Frontend.ChatPortfolio.HandleInputChange` | frontend/src/components/ChatPortfolio.jsx:9-11 | replaces the typed text; history and file are unchanged |
| `Frontend.ChatPortfolio.HandleFileChange` | frontend/src/components/ChatPortfolio.jsx:13-15 | the file becomes the first selected file, or none for an empty selection; text and history are unchanged |
| `Frontend.ChatPortfolio.HandleSend` | frontend/src/components/ChatPortfolio.jsx:17-28 | a refused send changes nothing; an accepted send makes the history the old history plus one message (sender "user", the raw untrimmed text, the file's name or null), then clears text and file; afterwards the guard refuses, so a repeated send is a no-op |
| `Frontend.ChatPortfolio.SendDisabled` | frontend/src/components/ChatInterface.jsx:77 | `ChatInterface`'s `disabled` prop for the send button, read over this component's state, holds exactly when no file is attached and the text is only white space, which is exactly when the send handler refuses |
| `GitfolioExtraction.Truthy` | backend/gitfolio_extraction.py:103 | the values for which `not conversation` holds are exactly `None`, `False`, zero and the empty string, list and dict |
| `GitfolioExtraction.FenceMatchAt` | backend/gitfolio_extraction.py:49 | a match of the fence pattern found at a position lies within the text |
| `GitfolioExtraction.SubFencesFrom` | backend/gitfolio_extraction.py:49 | the substitution scan from a position never yields more characters than remain after it |
| `GitfolioExtraction.ClosingFence` | backend/gitfolio_extraction.py:49 | the closing fence starts after the opening fence ends, so the two never overlap |
| `GitfolioExtraction.SubFencesCopies` | backend/gitfolio_extraction.py:49 | the substitution copies unchanged every stretch of text in which no match starts |
| `GitfolioExtraction.NoMatchInside` | backend/gitfolio_extraction.py:49 | the pattern matches nowhere between the opening and the closing fence |
| `GitfolioExtraction.SubFencesIsStripFences` | backend/gitfolio_extraction.py:49 | the left-to-right substitution equals the closed form on every text: opening fence removed, closing fence removed, interior untouched |
| `GitfolioExtraction.CleanReply` | backend/gitfolio_extraction.py:48-49 | cleaning the reply never makes it longer |
| `GitfolioExtraction.CleanReplyIsStripFences` | backend/gitfolio_extraction.py:48-49 | cleaning a reply (strip, strip again, substitute) equals the closed-form fence removal on the stripped reply |
| `GitfolioExtraction.StrippedHasNoFinalNewline` | backend/gitfolio_extraction.py:48 | a stripped reply never ends in a newline, so `$` can only match at the very end |
| `GitfolioExtraction.StripFencesWithoutFinalNewline` | backend/gitfolio_extraction.py:49 | on text that does not end in a newline, fence removal keeps exactly one contiguous slice |
| `GitfolioExtraction.CleanReplyKeepsInterior` | backend/gitfolio_extraction.py:48-49 | the cleaned reply is the stripped reply minus a leading "```json" or "```" and minus a trailing "```" that does not overlap it; the text between is unchanged |
| `GitfolioExtraction.CleanReplyWithoutFences` | backend/gitfolio_extraction.py:48-49 | a reply with no fence at either end comes back stripped and otherwise unchanged |
| `GitfolioExtraction.CleanReplyUnwrapsJsonFence` | backend/gitfolio_extraction.py:48-49 | a body wrapped in "```json" ... "```" comes back exactly, including any fences inside it |
| `GitfolioExtraction.CleanReplyOverlappingFences` | backend/gitfolio_extraction.py:48-49 | a reply that is only an opening fence cleans to empty text; the closing pattern does not reuse its backticks |
| `GitfolioExtraction.RawResponse` | backend/gitfolio_extraction.py:54 | the object returned for an unparseable reply is a dict without an "error" key |
| `GitfolioExtraction.ExtractPortfolioDetails` | backend/gitfolio_extraction.py:18-57 | an empty resume yields `{"error": "No resume provided"}`; otherwise the model is sent the extraction request; a failed call yields `{"error": "OpenAI API error: " + description}`; a reply whose cleaned text parses yields the parsed value as it is, and one that does not parse yields the raw-response object; an "error" key therefore comes only from those two error paths or from the model's own parsed JSON |
| `GitfolioExtraction.EmptyResumeMakesNoCall` | backend/gitfolio_extraction.py:22-23 | with an empty resume the result does not depend on the model or the parser: no call is made |
| `GitfolioExtraction.UnparsedReplyIsNotAnError` | backend/gitfolio_extraction.py:50-54 | an unparseable reply yields `{"raw_response": cleaned reply, "warning": "Could not parse JSON"}`, whose status is 200 |
| `GitfolioExtraction.Join` | backend/gitfolio_extraction.py:76 | joining a list whose first part is non-empty gives non-empty text |
| `GitfolioExtraction.NonEmptyPages` | backend/gitfolio_extraction.py:76 | the kept texts are exactly the page texts that are not empty, each kept one is non-empty, and none is kept exactly when every page is empty |
| `GitfolioExtraction.NonEmptyPagesAppend` | backend/gitfolio_extraction.py:76 | the filter works page by page and keeps page order: filtering two runs of pages gives the kept texts of the first run followed by those of the second |
| `GitfolioExtraction.PdfText` | backend/gitfolio_extraction.py:76 | the text of a PDF is empty exactly when every page yields empty text |
| `GitfolioExtraction.Dispatch` | backend/gitfolio_extraction.py:74-83 | the branch taken is ".pdf" whenever the name ends in ".pdf", else ".txt", else ".docx", else unsupported (case-sensitive) |
| `GitfolioExtraction.StatusFor` | backend/gitfolio_extraction.py:86 | the status is 400 or 200; for a dict result it is 400 exactly when the key "error" is present |
| `GitfolioExtraction.RespondWithDetails` | backend/gitfolio_extraction.py:85-90 | the response body is the extraction result; the status is 400 exactly when the result holds "error" (as a dict key, a list element or a substring), otherwise 200; the handler returns `None` exactly when the result is `null`, a boolean or a number; an empty resume gives 400 "No resume provided" |
| `GitfolioExtraction.GeneratePortfolio` | backend/gitfolio_extraction.py:64-90 | an empty file name gives 400 "No file selected" before any suffix test; a ".pdf" is answered with the extraction of its joined page text and a ".txt" with the extraction of its decoded text, or `None` when the library raises; an unsupported suffix gives 400 "Unsupported file type"; ".docx" never responds; every response is 200 or 400, and for a dict body 400 exactly when it has "error" |
| `GitfolioExtraction.UpperCaseSuffixIsUnsupported` | backend/gitfolio_extraction.py:74-83 | "resume.PDF" is refused with 400 "Unsupported file type" |
| `GitfolioExtraction.BlankPdfIsRejected` | backend/gitfolio_extraction.py:74-87 | a PDF whose pages all yield empty text gets 400 "No resume provided" |
| `GitfolioExtraction.Conversation` | backend/gitfolio_extraction.py:99-117 | a missing or falsy conversation becomes `[]`; a list is kept as it is; the handler raises exactly when the body is not an object or the conversation is truthy but not a list (the concatenation with the system message fails) |
| `GitfolioExtraction.ChatRequest` | backend/gitfolio_extraction.py:102-125 | the model is sent one message more than the conversation holds: the system message first, then the conversation in its original order |
| `GitfolioExtraction.ChatPortfolio` | backend/gitfolio_extraction.py:93-129 | the handler raises exactly when the conversation cannot be assembled; otherwise it sends `ChatRequest` and answers 200 with `{"suggestion": content}` of the reply, or 500 with `{"error": "OpenAI API error: " + description}` when the call fails |
| `GitfolioExtraction.ChatWithoutConversation` | backend/gitfolio_extraction.py:102-117 | without a conversation the model is sent the system message alone |

## Left out

- The language-model calls, PyPDF2 page extraction, `python-docx`, UTF-8 decoding and `json.loads` are library code whose behaviour cannot be seen. They are parameters, or values carried by `Upload`.
- Flask plumbing is left out: routing, the `home` route, `request.files` (a missing `resume_file` field), `request.get_json`, `jsonify` and `app.run`. `Reply.ReturnedNone` and `Reply.Raised` stand for Flask's own error response.
- A reply whose `message.content` is `None` is not modelled: `ModelReply.Completion` always carries text.
- `Json` numbers are integers. Floating-point numbers matter only to truthiness (`not conversation`) and are left out.
- `GitfolioExtraction.DeployedPrompts` is not used by the handlers, which take the prompts as a parameter so that every property holds whatever the prompts say. No property depends on the prompts' wording.
- Rendering is left out: the JSX markup, the preview iframe, `ChatInterface`'s markup, and the static components (background, banner, team page, spinner, empty-preview state, preview). So are `App.js`'s tab switch and React's re-render scheduling. Each handler is one atomic transition.
- The component modelled here only records the user's messages. Typed-out bot replies, cancellation, document-state reconciliation and conversation persistence belong to other versions of the chat component, not to this source, and are not modelled.
