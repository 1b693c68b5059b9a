/**
 * The request handlers that read the session but do not change it:
 * `summarize`, `generate_quiz`, `generate_mock_test`, `generate_mindmap`
 * and `search_videos`. Each is a function of the session's
 * `document_content` (absent is `None`) and of the parameters `call_gemini`
 * needs. `parse` is `json.loads`, `None` standing for `JSONDecodeError`.
 */
module Handlers {
  import opened Wrappers
  import opened Text
  import opened Cleaning
  import opened Gemini
  import opened Prompts

  /** How a request ends; the transport turns each into a JSON body and a status code. */
  datatype Outcome<T> =
    | NoDocument        // "No document uploaded"
    | NoMessage         // "No message provided"
    | NoQuery           // "No search query provided"
    | GenerationFailed  // "Failed to generate ..." / "Failed to get response from AI"
    | ParseFailed       // "Failed to parse ... data"
    | Success(value: T)

  /** A handler's outcome with the request it sent to the model, if it sent one. */
  datatype Response<T> = Response(outcome: Outcome<T>, sent: Option<Request>)

  /** What `search_videos` hands to the video search, and the query it reports. */
  datatype VideoSearch = VideoSearch(terms: string, maxResults: nat, query: string)

  /** `session.get('document_content')` is truthy. */
  predicate HasDocument(content: Option<string>) {
    Truthy(content)
  }

  /** A JSON handler's reading of the reply: none or empty, unparseable, or the parsed value. */
  function Interpret<J>(reply: Option<string>, parse: string -> Option<J>): (o: Outcome<J>)
    ensures !Truthy(reply) <==> o == GenerationFailed
    ensures o.ParseFailed? <==> Truthy(reply) && parse(Clean(reply.value)).None?
    ensures o.Success? ==> Truthy(reply) && parse(Clean(reply.value)) == Some(o.value)
    ensures Truthy(reply) && parse(Clean(reply.value)).Some? ==> o == Success(parse(Clean(reply.value)).value)
  {
    if !Truthy(reply) then GenerationFailed
    else
      match parse(Clean(reply.value))
      case None => ParseFailed
      case Some(v) => Success(v)
  }

  /** Send `prompt` through `call_gemini` and read the reply with `parse`. */
  function Generate<J>(prompt: Prompt, keys: seq<string>, pick: nat,
                       remote: Request -> Option<string>, parse: string -> Option<J>): (r: Response<J>)
    ensures keys == [] ==> r == Response(GenerationFailed, None)
    ensures keys != [] ==> r.sent.Some? && r.sent.value.key in keys && r.sent.value.prompt == prompt
    ensures r.sent.Some? ==> r.outcome == Interpret(remote(r.sent.value), parse)
  {
    var call := CallGemini(keys, pick, remote, prompt);
    Response(Interpret(call.reply, parse), call.sent)
  }

  /** `summarize`: the reply itself is the summary. */
  function Summarize(content: Option<string>, keys: seq<string>, pick: nat,
                     remote: Request -> Option<string>): (r: Response<string>)
    ensures !HasDocument(content) ==> r == Response(NoDocument, None)
    ensures HasDocument(content) && keys == [] ==> r == Response(GenerationFailed, None)
    ensures HasDocument(content) && keys != [] ==>
      (r.sent.Some? && r.sent.value.key in keys && r.sent.value.prompt == SummaryPromptAsWritten(content.value))
    ensures r.outcome.Success? <==> r.sent.Some? && Truthy(remote(r.sent.value))
    ensures r.outcome.Success? ==> remote(r.sent.value) == Some(r.outcome.value)
    ensures r.outcome.NoDocument? || r.outcome.GenerationFailed? || r.outcome.Success?
    ensures r.outcome.NoDocument? <==> !HasDocument(content)
    ensures HasDocument(content) && r.sent.Some? && !Truthy(remote(r.sent.value)) ==> r.outcome == GenerationFailed
  {
    if !HasDocument(content) then Response(NoDocument, None)
    else
      var call := CallGemini(keys, pick, remote, SummaryPromptAsWritten(content.value));
      Response(if Truthy(call.reply) then Success(call.reply.value) else GenerationFailed, call.sent)
  }

  /** `data.get('num_questions', 10)` and `data.get('difficulty', 'medium')`, as `str()` renders them. */
  const DefaultNumQuestions: string := "10"
  const DefaultDifficulty: string := "medium"

  /**
   * `generate_quiz`; `numQuestions` and `difficulty` are the request's
   * values as `str()` renders them, `None` where the request has none.
   */
  function GenerateQuiz<J>(content: Option<string>, numQuestions: Option<string>, difficulty: Option<string>,
                           keys: seq<string>, pick: nat, remote: Request -> Option<string>,
                           parse: string -> Option<J>): (r: Response<J>)
    ensures !HasDocument(content) ==> r == Response(NoDocument, None)
    ensures HasDocument(content) && keys == [] ==> r == Response(GenerationFailed, None)
    ensures HasDocument(content) && keys != [] ==>
      (r.sent.Some? && r.sent.value.key in keys
       && r.sent.value.prompt == QuizPrompt(content.value, numQuestions.GetOr(DefaultNumQuestions),
                                            difficulty.GetOr(DefaultDifficulty)))
    ensures r.sent.Some? ==> r.outcome == Interpret(remote(r.sent.value), parse)
  {
    if !HasDocument(content) then Response(NoDocument, None)
    else
      var prompt := QuizPrompt(content.value, numQuestions.GetOr(DefaultNumQuestions),
                               difficulty.GetOr(DefaultDifficulty));
      Generate(prompt, keys, pick, remote, parse)
  }

  /** `generate_mock_test`. */
  function GenerateMockTest<J>(content: Option<string>, keys: seq<string>, pick: nat,
                               remote: Request -> Option<string>, parse: string -> Option<J>): (r: Response<J>)
    ensures !HasDocument(content) ==> r == Response(NoDocument, None)
    ensures HasDocument(content) && keys == [] ==> r == Response(GenerationFailed, None)
    ensures HasDocument(content) && keys != [] ==>
      (r.sent.Some? && r.sent.value.key in keys && r.sent.value.prompt == MockTestPrompt(content.value))
    ensures r.sent.Some? ==> r.outcome == Interpret(remote(r.sent.value), parse)
  {
    if !HasDocument(content) then Response(NoDocument, None)
    else Generate(MockTestPrompt(content.value), keys, pick, remote, parse)
  }

  /** `generate_mindmap`. */
  function GenerateMindMap<J>(content: Option<string>, keys: seq<string>, pick: nat,
                              remote: Request -> Option<string>, parse: string -> Option<J>): (r: Response<J>)
    ensures !HasDocument(content) ==> r == Response(NoDocument, None)
    ensures HasDocument(content) && keys == [] ==> r == Response(GenerationFailed, None)
    ensures HasDocument(content) && keys != [] ==>
      (r.sent.Some? && r.sent.value.key in keys && r.sent.value.prompt == MindMapPrompt(content.value))
    ensures r.sent.Some? ==> r.outcome == Interpret(remote(r.sent.value), parse)
  {
    if !HasDocument(content) then Response(NoDocument, None)
    else Generate(MindMapPrompt(content.value), keys, pick, remote, parse)
  }

  /** The query `search_videos` ends up with, given the topic call's reply. */
  function TopicQuery(reply: Option<string>): (q: string)
    ensures Stripped(q)
    ensures !Truthy(reply) ==> q == ""
    ensures Truthy(reply) ==> q == Strip(reply.value)
  {
    if Truthy(reply) then Strip(reply.value) else ""
  }

  /**
   * `search_videos`: an empty query is replaced by the topic the model
   * extracts from the document's first 2000 characters; the search itself
   * is asked for the query plus " tutorial explanation", 8 results.
   */
  function SearchVideos(query: string, content: Option<string>, keys: seq<string>, pick: nat,
                        remote: Request -> Option<string>): (r: Response<VideoSearch>)
    ensures query != "" ==>
      r == Response(Success(VideoSearch(query + SearchSuffix, SearchResults, query)), None)
    ensures query == "" && !HasDocument(content) ==> r == Response(NoQuery, None)
    ensures query == "" && HasDocument(content) ==>
      var call := CallGemini(keys, pick, remote, TopicPrompt(content.value));
      var q := TopicQuery(call.reply);
      r.sent == call.sent
      && r.outcome == if q == "" then NoQuery else Success(VideoSearch(q + SearchSuffix, SearchResults, q))
    ensures r.outcome.Success? ==>
      r.outcome.value.query != "" && r.outcome.value.terms == r.outcome.value.query + SearchSuffix
      && r.outcome.value.maxResults == 8
    ensures r.outcome.Success? || r.outcome.NoQuery?
  {
    var derived :=
      if query == "" && HasDocument(content) then
        var call := CallGemini(keys, pick, remote, TopicPrompt(content.value));
        (call.sent, TopicQuery(call.reply))
      else (None, query);
    var sent, q := derived.0, derived.1;
    if q == "" then Response(NoQuery, sent)
    else Response(Success(VideoSearch(q + SearchSuffix, SearchResults, q)), sent)
  }

  /**
   * Every generator refuses to run without a document: it reports
   * "No document uploaded" and sends nothing, whatever the model would say.
   */
  lemma GeneratorsNeedDocument<J>(content: Option<string>, numQuestions: Option<string>, difficulty: Option<string>,
                                  keys: seq<string>, pick: nat, remote: Request -> Option<string>,
                                  parse: string -> Option<J>)
    requires content.None? || content == Some("")
    ensures Summarize(content, keys, pick, remote) == Response(NoDocument, None)
    ensures GenerateQuiz(content, numQuestions, difficulty, keys, pick, remote, parse) == Response(NoDocument, None)
    ensures GenerateMockTest(content, keys, pick, remote, parse) == Response(NoDocument, None)
    ensures GenerateMindMap(content, keys, pick, remote, parse) == Response(NoDocument, None)
  {
  }

  /** The payload's reading: parsed when `json.loads` accepts it, a parse failure otherwise. */
  function PayloadReading<J>(p: string, parse: string -> Option<J>): Outcome<J> {
    if parse(p).Some? then Success(parse(p).value) else ParseFailed
  }

  lemma ReadAsCleaned<J>(x: string, p: string, parse: string -> Option<J>)
    requires x != "" && Clean(x) == p
    ensures Interpret(Some(x), parse) == PayloadReading(p, parse)
  {
  }

  /**
   * A reply wrapped in any of the fence forms the model is prone to is
   * read exactly as the bare payload would be: parsed if `json.loads`
   * accepts the payload, a parse failure otherwise.
   */
  lemma FencedRepliesReadAsPayload<J>(p: string, parse: string -> Option<J>)
    requires Unfenced(p) && p != ""
    ensures Interpret(Some(p), parse) == PayloadReading(p, parse)
    ensures Interpret(Some(JsonFence + "\n" + p), parse) == PayloadReading(p, parse)
    ensures Interpret(Some(Fence + "\n" + p), parse) == PayloadReading(p, parse)
    ensures Interpret(Some(p + "\n" + Fence), parse) == PayloadReading(p, parse)
    ensures Interpret(Some(JsonFence + "\n" + p + "\n" + Fence), parse) == PayloadReading(p, parse)
    ensures Interpret(Some(Fence + "\n" + p + "\n" + Fence), parse) == PayloadReading(p, parse)
  {
    CleanUnfenced(p);
    ReadAsCleaned(p, p, parse);
    CleanJsonOpened(p);
    ReadAsCleaned(JsonFence + "\n" + p, p, parse);
    CleanOpened(p);
    ReadAsCleaned(Fence + "\n" + p, p, parse);
    CleanClosed(p);
    ReadAsCleaned(p + "\n" + Fence, p, parse);
    CleanJsonWrapped(p);
    ReadAsCleaned(JsonFence + "\n" + p + "\n" + Fence, p, parse);
    CleanWrapped(p);
    ReadAsCleaned(Fence + "\n" + p + "\n" + Fence, p, parse);
  }

  /**
   * With an empty key pool every generator that has a document fails with
   * "Failed to generate ..." and no request leaves the process.
   */
  lemma EmptyPoolFailsFast<J>(content: Option<string>, numQuestions: Option<string>, difficulty: Option<string>,
                              pick: nat, remote: Request -> Option<string>, parse: string -> Option<J>)
    requires HasDocument(content)
    ensures Summarize(content, [], pick, remote) == Response(GenerationFailed, None)
    ensures GenerateQuiz(content, numQuestions, difficulty, [], pick, remote, parse) == Response(GenerationFailed, None)
    ensures GenerateMockTest(content, [], pick, remote, parse) == Response(GenerationFailed, None)
    ensures GenerateMindMap(content, [], pick, remote, parse) == Response(GenerationFailed, None)
  {
  }

  /**
   * A reply that is not JSON gives "Failed to parse ..." and no partial
   * value, for every JSON-producing generator.
   */
  lemma UnparseableReplyFails<J>(content: Option<string>, numQuestions: Option<string>, difficulty: Option<string>,
                                 keys: seq<string>, pick: nat, remote: Request -> Option<string>,
                                 parse: string -> Option<J>)
    requires HasDocument(content) && keys != []
    requires forall req :: Truthy(remote(req)) && parse(Clean(remote(req).value)).None?
    ensures GenerateQuiz(content, numQuestions, difficulty, keys, pick, remote, parse).outcome == ParseFailed
    ensures GenerateMockTest(content, keys, pick, remote, parse).outcome == ParseFailed
    ensures GenerateMindMap(content, keys, pick, remote, parse).outcome == ParseFailed
  {
  }

  /**
   * With no query given, the search runs on the model's topic with its
   * surrounding whitespace removed; a blank or empty topic is refused as
   * "No search query provided".
   */
  lemma TopicFromPaddedReply(content: Option<string>, keys: seq<string>, pick: nat,
                             remote: Request -> Option<string>, a: string, t: string, b: string)
    requires HasDocument(content) && keys != []
    requires AllSpace(a) && Stripped(t) && AllSpace(b)
    requires forall req :: remote(req) == Some(a + t + b)
    ensures SearchVideos("", content, keys, pick, remote).outcome ==
      if t == "" then NoQuery else Success(VideoSearch(t + SearchSuffix, 8, t))
  {
    StripPadded(a, t, b);
  }
}
