# Study assistant back end, modelled in Dafny

This project models the core of a Flask study assistant (`app.py`) in Dafny.
A student uploads a `.txt`, `.md`, `.pdf` or `.docx` file. Its text is
extracted and kept in the caller's session. The tutor endpoints then ask a
Gemini model for one of:

- a summary;
- a quiz, mock test or mind map, each as JSON;
- a chat answer;
- a topic for a video search.

The model covers:

- **Upload gate and extraction** (`extraction.dfy`):
  - `allowed_file`, with Python's `rsplit('.', 1)` and ASCII `lower()`.
  - `os.path.splitext`, including its rule that leading dots are not an extension.
  - `extract_text_from_file`:
    - plain text is returned whole;
    - PDF pages and DOCX paragraphs are joined with `"\n"`;
    - any other extension gives `None`.

  The PDF loop is an imperative method proved against a specification function.
- **Reply cleaning** (`cleaning.dfy`): the code strips the reply, drops a
  leading ```` ```json ```` or ```` ``` ```` and a trailing ```` ``` ````, and
  strips again. The JSON handlers share this chain.
- **The model call** (`gemini.dfy`):
  - the key pool read from `GOOGLE_API_KEY1..3`, with falsy entries filtered out;
  - `call_gemini`: an empty pool sends nothing, otherwise one pool key is chosen.
- **Prompts** (`prompts.dfy`): every prompt text as written, and the
  handlers send them as written. The summary prompt also has a corrected
  form, described under "Findings". Each handler
  keeps its own prefix of the document: 15000, 12000, 12000, 12000, 10000
  and 2000 characters. Each also has its own output-token limit.
- **Handlers** (`handlers.dfy`): `summarize`, `generate_quiz`,
  `generate_mock_test`, `generate_mindmap` and `search_videos`. Each one
  returns an outcome and the request it sent, if any.
- **Session** (`session.dfy`): a `Session` class whose methods change
  `document_content`, `document_name` and `chat_history`, the way
  `upload_file`, `chat` and `clear_session` do.

Text utilities (`text.dfy`) follow Python's definitions. `strip` uses the
full set of code points for which `str.isspace` is true. `split`, `join`,
`rfind`, `startswith` and `endswith` follow Python too.

Outside effects become parameters:

- The Gemini service is a function `remote` from request to optional reply
  text; `None` stands for an exception or a `None` text, and an empty text
  is `Some("")`, which the handlers treat as falsy.
- `random.choice` is a natural number `pick`; the key chosen is
  `keys[pick % |keys|]`.
- `json.loads` is a function `parse` from string to optional value.
- The environment is a function from variable name to optional value.
- `datetime.now().isoformat()` is a string `now`.
- The PDF and DOCX readers appear as a `FileView`: the text, pages or
  paragraphs the libraries would return for the saved file, or `None`
  where they raise.

Where the code differs from what the project describes, the model follows the code:

- The fence cleaning removes fences only at the two ends of the reply, not
  line by line. It is not idempotent: `Cleaning.CleanNotIdempotent` shows a
  doubly fenced reply that loses one fence per pass.
- A failed upload keeps the previously stored document and its name.
- An upload leaves the chat history untouched.
- Gate and dispatch disagree on a name such as `.md`. `allowed_file` takes
  `md` as its extension and accepts it. `secure_filename` strips the
  leading dot and saves the file as `uploads/md`, which has no extension,
  so extraction gives `None` and the upload fails with "Failed to extract
  text from file". Had the dot been kept, `os.path.splitext` would still
  find no extension in `uploads/.md`.
- The summary request carries the code comment on line 219 inside its
  text, because the comment sits inside the f-string (see "Findings").

## Model

| member | source | states |
|---|---|---|
| Text.Strip | app.py:275 | the result has no leading or trailing whitespace, it is a contiguous slice of the input, and everything removed on either side is whitespace |
| Text.StripPadded | app.py:282 | stripping a stripped text padded with whitespace on both sides gives the text back |
| Text.RFind | app.py:58 | the index returned holds the character and no later index does; -1 exactly when the character is absent |
| Text.Take | app.py:219 | the slice `s[:n]` has length min(n, \|s\|) and is a prefix of `s` |
| Text.JoinCount | app.py:77 | joining n parts with a one-character separator adds exactly n-1 occurrences of it |
| Text.SplitJoin | app.py:82 | splitting a join on its separator gives the parts back when no part contains the separator |
| Extraction.AllowedFile | app.py:56-58 | a name without a dot, or one ending in a dot, is refused |
| Extraction.AllowedFileIff | app.py:56-58 | a name is accepted exactly when it contains a dot and the text after its last dot, lower-cased, is one of txt, pdf, docx, md |
| Extraction.GateOnStemDotExt | app.py:27 | for a dot-free stem, `stem.ext` is accepted exactly when `ext` lower-cased is an allowed extension |
| Extraction.UploadPath | app.py:183 | the saved path is the upload folder, a slash and the name; a slash-free name is the path's last component |
| Extraction.SplitExt | app.py:63 | root and extension concatenate to the path; a non-empty extension starts with its only dot and holds no slash |
| Extraction.SplitExtFinds | app.py:63 | for `root + ext`, with `ext` a dot followed by neither dots nor slashes, the split is `(root, ext)` whenever the last component of `root` holds a non-dot character |
| Extraction.SplitExtDotsOnly | app.py:63 | when that last component is only dots, the split is the whole path and no extension |
| Extraction.SplitExtNoDot | app.py:63 | a path whose last component holds no dot splits into itself and no extension |
| Extraction.DispatchOnStemDotExt | app.py:63-64 | the saved `uploads/stem.ext`, for any slash-free stem holding a non-dot character (`notes.v2`), dispatches on `.ext` lower-cased |
| Extraction.DotsOnlyStemHasNoExtension | app.py:63-85 | a saved `uploads/stem.ext` whose stem is only dots (`.md`, `..md`) has no extension and extracts to `None` |
| Extraction.LeadingDotNamePassesGateButNotDispatch | app.py:181-191 | the client name `.md` passes the gate; its sanitised form `md` and the unsanitised `.md` both give no extension, so extraction returns `None` |
| Extraction.ExtractText | app.py:61-88 | the method's result equals the extraction specification for every path and file view |
| Extraction.ExtractedJoinsSegments | app.py:71-82 | PDF and DOCX text has exactly one newline fewer than segments plus the newlines inside them, and splits back into the segments when none contains a newline |
| Extraction.ExtractedNoSegments | app.py:75-77 | a PDF with no pages extracts to the empty text |
| Extraction.ExtractedPlainText | app.py:67-69 | `.txt` and `.md` files extract to their whole text |
| Extraction.ExtractedUnsupported | app.py:84-85 | any other extension extracts to `None` |
| Cleaning.Clean | app.py:275-282 | the cleaned reply is stripped and never longer than the raw one |
| Cleaning.CleanIsSlice | app.py:275-282 | the cleaned reply is a contiguous slice of the raw reply |
| Cleaning.CleanUnfenced | app.py:275-282 | a stripped reply with no fence at either end is left as it is |
| Cleaning.CleanJsonOpened | app.py:276-277 | a stripped payload preceded by a ```` ```json ```` line comes back bare |
| Cleaning.CleanOpened | app.py:278-279 | a stripped payload preceded by a ```` ``` ```` line comes back bare |
| Cleaning.CleanClosed | app.py:280-281 | a stripped payload followed by a closing ```` ``` ```` line comes back bare |
| Cleaning.CleanJsonWrapped | app.py:354-361 | a stripped payload between ```` ```json ```` and ```` ``` ```` lines comes back bare |
| Cleaning.CleanWrapped | app.py:412-419 | a stripped payload between two ```` ``` ```` lines comes back bare |
| Cleaning.CleanNotIdempotent | app.py:275-282 | a reply and its cleaned form can clean differently, so the chain is not idempotent |
| Gemini.ConfiguredKeys | app.py:42-46 | three entries, the i-th being the environment's value for `GOOGLE_API_KEY<i+1>` |
| Gemini.FilterKeys | app.py:99 | every kept key is non-empty and configured, and every truthy entry is kept |
| Gemini.FilterKeysAppend | app.py:99 | filtering distributes over concatenation, so the keys keep their order |
| Gemini.FilterKeysSingle | app.py:99 | a single entry is kept exactly when it is truthy |
| Gemini.FilterKeysEmpty | app.py:99 | the pool is empty exactly when every configured entry is falsy |
| Gemini.KeyPoolInOrder | app.py:42-99 | the pool is the truthy keys among KEY1, KEY2, KEY3, in that order |
| Gemini.SelectKey | app.py:108 | the chosen key is a member of the pool |
| Gemini.EveryKeyCanBeSelected | app.py:108 | every key in the pool is chosen by some draw |
| Gemini.CallGemini | app.py:101-126 | an empty pool sends nothing and answers `None`; otherwise one request goes out with a pool key, model `gemini-2.5-flash`, the system prompt, user text and token limit, and the answer is the service's reply |
| Prompts.SummaryPromptAsWritten | app.py:213-227 | the summary request as written is no longer than its opening, 15000 characters and its closing with the comment, whatever the document's length, and asks for 2000 tokens |
| Prompts.SummaryPrompt | app.py:217-225 | the corrected summary request is bounded the same way, with the closing that has no comment |
| Prompts.QuizPrompt | app.py:246-270 | the quiz request is no longer than its opening, 12000 characters and its closing, and asks for 4000 tokens |
| Prompts.MockTestPrompt | app.py:303-350 | the mock-test request is no longer than its opening, 12000 characters and its closing, and asks for 4000 tokens |
| Prompts.MindMapPrompt | app.py:380-408 | the mind-map request is no longer than its opening, 12000 characters and its closing, and asks for 3000 tokens |
| Prompts.ChatPrompt | app.py:444-452 | the user text is the message, the tutor instruction is bounded by 10000 document characters plus its fixed text, and the limit is 2000 tokens |
| Prompts.TopicPrompt | app.py:477-478 | the topic request's user text is a prefix of the document of at most 2000 characters, with a limit of 50 tokens |
| Prompts.SummaryPromptCarriesPrefix | app.py:217-227 | the summary request as written holds exactly the first min(\|content\|, 15000) characters between its opening and its commented closing, and asks for 2000 tokens |
| Prompts.QuizPromptCarriesPrefix | app.py:259-270 | the quiz request names the count and difficulty, holds the first min(\|content\|, 12000) characters, and asks for 4000 tokens |
| Prompts.MockTestPromptCarriesPrefix | app.py:338-350 | the mock-test request holds the first min(\|content\|, 12000) characters and asks for 4000 tokens |
| Prompts.MindMapPromptCarriesPrefix | app.py:397-408 | the mind-map request holds the first min(\|content\|, 12000) characters and asks for 3000 tokens |
| Prompts.ChatPromptCarriesPrefix | app.py:444-452 | the user text is the message; the system prompt holds the first min(\|content\|, 10000) characters, or the "No document uploaded yet." fallback for an empty document; the limit is 2000 tokens |
| Prompts.TopicPromptIsPrefix | app.py:477-478 | the topic request's user text is the first min(\|content\|, 2000) characters, with a limit of 50 tokens |
| Prompts.PromptsIgnoreTextBeyondBudget | app.py:219-478 | two documents that agree on their first 15000 characters yield identical requests from every handler, for the summary both as written and corrected |
| Prompts.SummaryPromptAsWrittenCarriesComment | app.py:219 | the summary prompt as written holds the comment text right after the document, so it differs from the intended prompt |
| Prompts.SummaryPromptFollowsDocument | app.py:217-225 | in the corrected prompt the instructions follow the document after one blank line |
| Handlers.Interpret | app.py:272-291 | a falsy reply is a generation failure; otherwise the cleaned reply is parsed: a parse failure exactly when parsing gives nothing, and a success carrying the parsed value when it gives one |
| Handlers.Generate | app.py:270-291 | with keys, the request carries the prompt and a pool key, and the outcome is the reading of its reply; without keys, a generation failure with nothing sent |
| Handlers.Summarize | app.py:205-232 | "No document uploaded" exactly when there is no document, and then nothing is sent; a sent request whose reply is falsy gives "Failed to generate summary"; the summary is exactly the truthy reply to the summary prompt as written |
| Handlers.GenerateQuiz | app.py:235-291 | no document gives "No document uploaded"; the count and difficulty default to 10 and medium; the outcome is the reading of the reply to the quiz prompt |
| Handlers.GenerateMockTest | app.py:294-369 | no document gives "No document uploaded"; the outcome is the reading of the reply to the mock-test prompt |
| Handlers.GenerateMindMap | app.py:372-427 | no document gives "No document uploaded"; the outcome is the reading of the reply to the mind-map prompt |
| Handlers.TopicQuery | app.py:479 | the derived query is stripped: the truthy reply with its surrounding whitespace removed, and empty when the reply is falsy |
| Handlers.SearchVideos | app.py:468-486 | a given query is searched as it is; an empty one with a document becomes the stripped topic reply to the topic prompt, refused when that is empty; with neither, it is refused; a search always asks for 8 results with " tutorial explanation" appended to a non-empty query |
| Handlers.TopicFromPaddedReply | app.py:477-486 | a topic reply padded with whitespace is searched as the bare topic, and a blank one is refused as "No search query provided" |
| Handlers.GeneratorsNeedDocument | app.py:208-211 | with no or empty document every generator refuses and sends nothing |
| Handlers.FencedRepliesReadAsPayload | app.py:274-285 | a payload with any of the five fence wrappings, or none, is read exactly as the bare payload |
| Handlers.EmptyPoolFailsFast | app.py:101-105 | with no keys every generator that has a document fails to generate and sends nothing |
| Handlers.UnparseableReplyFails | app.py:284-289 | when no cleaned reply parses, every JSON generator reports a parse failure |
| Sessions.Session.constructor | app.py:208 | a new session holds no document, no name and no history |
| Sessions.Session.UploadFile | app.py:170-202 | the error order (no file, empty name, refused type, failed extraction); only a non-empty extraction stores the text and the sanitised name, and reports its length; anything else keeps the old document; the history never changes |
| Sessions.Session.Chat | app.py:430-465 | an empty message is refused with nothing changed; otherwise the history is created if absent, the tutor prompt is sent, and one turn is appended at the tail exactly when the reply is truthy; the document is never changed |
| Sessions.Session.ClearSession | app.py:489-493 | the document, its name and the history are all removed |
| Sessions.ClearThenGenerate | app.py:489-493 | after clearing, every generator reports "No document uploaded" and the history is empty |
| Sessions.FailedUploadLeavesNoDocument | app.py:189-200 | on a fresh session a failed upload leaves the generators refusing, and a successful one lets them run |
| Sessions.ChatTwice | app.py:454-461 | two chats append their successful turns in order; when the second fails, the history is exactly the first chat's turn if that one succeeded, and empty otherwise |
| Sessions.PdfNameAccepted | app.py:56-67 | `stem.pdf` passes the gate and dispatches to the PDF reader |
| Sessions.ThreePagesJoined | app.py:75-77 | three pages, the middle one empty, extract to page1, two newlines, page3 |
| Sessions.ThreePagePdfWithBlankPage | app.py:181-198 | uploading `stem.pdf`, for a stem `secure_filename` keeps as it is, with three pages and a blank middle one stores the joined text, reports its length, and the summary prompt as written is built from it |

## Left out

- Flask routing, `request` parsing, `jsonify` bodies and HTTP status codes: outcomes are datatype constructors that name the error message.
- `secure_filename` is not modelled: the sanitised name is an input (`UploadedFile.safeName`) and the gate runs on the client's name, as in the code. Concrete sanitised names, such as `md` for `.md`, appear only in lemmas.
- `file.save`, the upload folder's creation and `MAX_CONTENT_LENGTH`: file system effects, outside the model.
- `PyPDF2` and `python-docx` internals: their results are inputs in `FileView`, and a reader that raises appears as `None`.
- Text-mode decoding and newline translation of `open(..., 'r', encoding='utf-8')` are folded into `FileView.text`.
- `Text.Lower` and `Extraction.AllowedFile`: `lower()` is modelled on ASCII letters only, because Unicode case mapping has no counterpart here.
- The `genai` client and its exceptions: the service is the `remote` function, and every failure is a `None` reply.
- Gemini.SelectKey: models which key a draw yields, not the uniform distribution of `random.choice`.
- `json.loads` internals: `parse` is a parameter, and the handlers do not check the parsed value's shape, nor does the code.
- `search_youtube_videos` (app.py:128-161): YouTube API and its result mapping are external; the model stops at the terms and result count handed to it.
- `list_models`, `index`, `test-api`: not part of the tutoring core.
- `print` logging, `load_dotenv` and `datetime.now()`: the latter is the `now` parameter of `Chat`.
- The generators and `search_videos` read `document_content` and do not write the session, so they are functions over that value; `Session` holds only the handlers that change it.
- Concurrency between requests of the same session, and Flask's cookie serialisation of the session.

## Findings

| source | as written | input that shows it | evidently intended | confidence | as-written member | corrected member |
|---|---|---|---|---|---|---|
| app.py:219 | the `# Limit to prevent token overflow` comment sits inside the triple-quoted f-string, so it is sent to the model right after the document text | any document, e.g. content `"x"`: the prompt contains `x  # Limit to prevent token overflow` | the document followed by a blank line and the instructions; the comment was meant for the reader of the code | high, not executed | Prompts.SummaryPromptAsWrittenCarriesComment | Prompts.SummaryPromptFollowsDocument |
