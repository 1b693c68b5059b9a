/**
 * The caller's session: the document and chat history `upload_file`,
 * `chat` and `clear_session` update, as fields of one object, and a few
 * clients that drive it through the scenarios the application supports.
 */
module Sessions {
  import opened Wrappers
  import opened Text
  import opened Extraction
  import opened Gemini
  import opened Prompts
  import opened Handlers

  /** One chat exchange; `timestamp` is the caller-supplied `datetime.now().isoformat()`. */
  datatype Turn = Turn(user: string, assistant: string, timestamp: string)

  /**
   * The upload: the client's file name, the name `secure_filename` makes
   * of it, and what the readers find in the file saved under that name.
   */
  datatype UploadedFile = UploadedFile(filename: string, safeName: string, view: FileView)

  /** How `upload_file` ends. */
  datatype UploadOutcome =
    | NoFileProvided    // "No file provided"
    | NoFileSelected    // "No file selected"
    | InvalidFileType   // "Invalid file type"
    | ExtractionFailed  // "Failed to extract text from file"
    | Uploaded(filename: string, contentLength: nat)

  class Session {
    /** `session['document_content']`, `None` when the key is absent. */
    var documentContent: Option<string>
    /** `session['document_name']`. */
    var documentName: Option<string>
    /** `session['chat_history']`. */
    var chatHistory: Option<seq<Turn>>

    /** A new caller's session holds nothing. */
    constructor ()
      ensures documentContent == None && documentName == None && chatHistory == None
    {
      documentContent := None;
      documentName := None;
      chatHistory := None;
    }

    /** The chat history, empty while the key is absent. */
    function History(): seq<Turn>
      reads this
    {
      chatHistory.GetOr([])
    }

    /**
     * `upload_file`: the client's name must pass the gate; the text is
     * extracted from the saved file and stored, with the sanitised name,
     * only when it is non-empty. Anything else leaves the session as it was.
     */
    method UploadFile(file: Option<UploadedFile>) returns (o: UploadOutcome)
      modifies this
      ensures file.None? ==> o == NoFileProvided
      ensures file.Some? && file.value.filename == "" ==> o == NoFileSelected
      ensures file.Some? && file.value.filename != "" && !AllowedFile(file.value.filename) ==> o == InvalidFileType
      ensures file.Some? && file.value.filename != "" && AllowedFile(file.value.filename) ==>
        var text := Extracted(UploadPath(file.value.safeName), file.value.view);
        o == if Truthy(text) then Uploaded(file.value.safeName, |text.value|) else ExtractionFailed
      ensures o.Uploaded? ==>
        documentContent == Extracted(UploadPath(file.value.safeName), file.value.view)
        && documentName == Some(file.value.safeName)
      ensures !o.Uploaded? ==> documentContent == old(documentContent) && documentName == old(documentName)
      ensures chatHistory == old(chatHistory)
    {
      if file.None? {
        return NoFileProvided;
      }
      var f := file.value;
      if f.filename == "" {
        return NoFileSelected;
      }
      if !AllowedFile(f.filename) {
        return InvalidFileType;
      }
      var text := ExtractText(UploadPath(f.safeName), f.view);
      if text.Some? && text.value != "" {
        documentContent := text;
        documentName := Some(f.safeName);
        return Uploaded(f.safeName, |text.value|);
      }
      return ExtractionFailed;
    }

    /**
     * `chat`: an empty message is refused before anything else. Otherwise
     * the history is created if absent, the tutor prompt built from the
     * document is sent, and a non-empty reply is appended as one turn at
     * the tail. The document is never touched.
     */
    method Chat(message: string, keys: seq<string>, pick: nat, remote: Request -> Option<string>,
                now: string) returns (r: Response<string>)
      modifies this
      ensures documentContent == old(documentContent) && documentName == old(documentName)
      ensures message == "" ==> r == Response(NoMessage, None) && chatHistory == old(chatHistory)
      ensures message != "" ==>
        r.sent == CallGemini(keys, pick, remote, ChatPrompt(old(documentContent).GetOr(""), message)).sent
      ensures r.outcome.Success? <==> message != "" && r.sent.Some? && Truthy(remote(r.sent.value))
      ensures r.outcome.Success? ==>
        remote(r.sent.value) == Some(r.outcome.value)
        && chatHistory == Some(old(History()) + [Turn(message, r.outcome.value, now)])
      ensures message != "" && !r.outcome.Success? ==>
        r.outcome == GenerationFailed && chatHistory == Some(old(History()))
    {
      if message == "" {
        return Response(NoMessage, None);
      }
      if chatHistory.None? {
        chatHistory := Some([]);
      }
      var content := documentContent.GetOr("");
      var call := CallGemini(keys, pick, remote, ChatPrompt(content, message));
      if Truthy(call.reply) {
        chatHistory := Some(chatHistory.value + [Turn(message, call.reply.value, now)]);
        r := Response(Success(call.reply.value), call.sent);
      } else {
        r := Response(GenerationFailed, call.sent);
      }
    }

    /** `clear_session`: the document, its name and the history all go. */
    method ClearSession()
      modifies this
      ensures documentContent == None && documentName == None && chatHistory == None
    {
      documentContent := None;
      documentName := None;
      chatHistory := None;
    }
  }

  /** After `clear_session` every generator reports "No document uploaded" and the history is empty. */
  method ClearThenGenerate<J>(s: Session, numQuestions: Option<string>, difficulty: Option<string>, keys: seq<string>,
                              pick: nat, remote: Request -> Option<string>, parse: string -> Option<J>)
    returns (summary: Response<string>, quiz: Response<J>, mockTest: Response<J>, mindMap: Response<J>)
    modifies s
    ensures summary == Response(NoDocument, None) && quiz == Response(NoDocument, None)
    ensures mockTest == Response(NoDocument, None) && mindMap == Response(NoDocument, None)
    ensures s.History() == []
  {
    s.ClearSession();
    summary := Summarize(s.documentContent, keys, pick, remote);
    quiz := GenerateQuiz(s.documentContent, numQuestions, difficulty, keys, pick, remote, parse);
    mockTest := GenerateMockTest(s.documentContent, keys, pick, remote, parse);
    mindMap := GenerateMindMap(s.documentContent, keys, pick, remote, parse);
  }

  /**
   * In a new session an upload that stores nothing (a bad name, an
   * unreadable file, or empty text) leaves every generator without a document.
   */
  method FailedUploadLeavesNoDocument<J>(file: Option<UploadedFile>, keys: seq<string>, pick: nat,
                                         remote: Request -> Option<string>, parse: string -> Option<J>)
    returns (o: UploadOutcome, summary: Response<string>, mindMap: Response<J>)
    ensures !o.Uploaded? ==> summary == Response(NoDocument, None) && mindMap == Response(NoDocument, None)
    ensures o.Uploaded? ==> summary.outcome != NoDocument && mindMap.outcome != NoDocument
  {
    var s := new Session();
    o := s.UploadFile(file);
    summary := Summarize(s.documentContent, keys, pick, remote);
    mindMap := GenerateMindMap(s.documentContent, keys, pick, remote, parse);
  }

  /** Two successful chats in a new session leave exactly their two turns, in call order. */
  method ChatTwice(first: string, second: string, keys: seq<string>, pick1: nat, pick2: nat,
                   remote: Request -> Option<string>, t1: string, t2: string)
    returns (r1: Response<string>, r2: Response<string>, history: seq<Turn>)
    ensures r1.outcome.Success? && r2.outcome.Success? ==>
      history == [Turn(first, r1.outcome.value, t1), Turn(second, r2.outcome.value, t2)]
    ensures !r1.outcome.Success? && r2.outcome.Success? ==> history == [Turn(second, r2.outcome.value, t2)]
    ensures !r2.outcome.Success? ==>
      history == (if r1.outcome.Success? then [Turn(first, r1.outcome.value, t1)] else [])
    ensures first == "" ==> r1 == Response(NoMessage, None)
  {
    var s := new Session();
    r1 := s.Chat(first, keys, pick1, remote, t1);
    r2 := s.Chat(second, keys, pick2, remote, t2);
    history := s.History();
  }

  lemma PdfNameAccepted(stem: string, name: string)
    requires stem != [] && '.' !in stem && '/' !in stem
    requires name == stem + ".pdf"
    ensures AllowedFile(name) && DispatchExt(UploadPath(name)) == ".pdf"
  {
    PdfSuffix(stem, name);
    assert stem[0] != '.';
    GateOnStemDotExt(stem, "pdf");
    DispatchOnStemDotExt(stem, "pdf");
    LowerPdf();
  }

  lemma PdfSuffix(stem: string, name: string)
    requires name == stem + ".pdf"
    ensures name == stem + "." + "pdf" && '.' !in "pdf" && '/' !in "pdf"
  {
    assert ".pdf" == "." + "pdf";
  }

  lemma LowerPdf()
    ensures Lower("pdf") == "pdf" && "." + Lower("pdf") == ".pdf" && Lower("pdf") in AllowedExtensions
  {
    assert Lower("pdf") == "pdf";
  }

  lemma ThreePagesJoined(path: string, view: FileView, page1: string, page3: string)
    requires DispatchExt(path) == ".pdf" && view.pdfPages == Some([page1, "", page3])
    ensures Extracted(path, view) == Some(page1 + "\n" + "" + "\n" + page3)
  {
    assert [page1, "", page3][1..] == ["", page3];
    assert ["", page3][1..] == [page3];
    assert Join("\n", ["", page3]) == "" + "\n" + page3;
    assert Join("\n", [page1, "", page3]) == page1 + "\n" + ("" + "\n" + page3);
    assert page1 + "\n" + ("" + "\n" + page3) == page1 + "\n" + "" + "\n" + page3;
    assert DispatchExt(path) != ".txt" && DispatchExt(path) != ".md";
    assert Extracted(path, view) == Some(Join("\n", [page1, "", page3]));
  }

  /** ASCII letters, digits and `-`: characters `secure_filename` keeps anywhere in a name. */
  predicate KeptVerbatim(c: char) {
    'a' <= c <= 'z' || 'A' <= c <= 'Z' || '0' <= c <= '9' || c == '-'
  }

  /** A stem of such characters holds neither a dot nor a slash. */
  lemma VerbatimStemIsPlain(stem: string)
    requires forall i :: 0 <= i < |stem| ==> KeptVerbatim(stem[i])
    ensures '.' !in stem && '/' !in stem
  {
    assert forall i :: 0 <= i < |stem| ==> stem[i] != '.' && stem[i] != '/';
  }

  /**
   * A three-page PDF whose second page has no text: the upload succeeds,
   * the stored text keeps the empty page as an empty line, and the summary
   * request carries that text. The stem is made of characters
   * `secure_filename` leaves as they are, so the saved name is the
   * client's name.
   */
  method ThreePagePdfWithBlankPage(stem: string, page1: string, page3: string, keys: seq<string>,
                                   pick: nat, remote: Request -> Option<string>)
    returns (o: UploadOutcome, content: Option<string>, summary: Response<string>)
    requires stem != [] && forall i :: 0 <= i < |stem| ==> KeptVerbatim(stem[i])
    ensures o == Uploaded(stem + ".pdf", |page1| + |page3| + 2)
    ensures content == Some(page1 + "\n" + "" + "\n" + page3)
    ensures keys != [] ==> summary.sent.Some? && summary.sent.value.prompt == SummaryPromptAsWritten(content.value)
  {
    VerbatimStemIsPlain(stem);
    var name := stem + ".pdf";
    var file := UploadedFile(name, name, FileView(None, Some([page1, "", page3]), None));
    PdfNameAccepted(stem, name);
    ThreePagesJoined(UploadPath(name), file.view, page1, page3);
    var s := new Session();
    o := s.UploadFile(Some(file));
    content := s.documentContent;
    summary := Summarize(content, keys, pick, remote);
  }
}
