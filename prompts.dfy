/**
 * The prompts the handlers send. Each embeds the session's document cut
 * to a fixed prefix (`content[:N]`) and asks for a fixed output limit.
 */
module Prompts {
  import opened Text
  import opened Gemini

  /** The handlers that build a prompt. */
  datatype Kind = Summary | Quiz | MockTest | MindMap | Chat | Topic

  /** How many leading characters of the document each prompt carries. */
  function Budget(k: Kind): nat {
    match k
    case Summary => 15000
    case Quiz => 12000
    case MockTest => 12000
    case MindMap => 12000
    case Chat => 10000
    case Topic => 2000
  }

  /** The `max_tokens` each handler passes to `call_gemini`. */
  function OutputLimit(k: Kind): nat {
    match k
    case Summary => DefaultMaxTokens
    case Quiz => 4000
    case MockTest => 4000
    case MindMap => 3000
    case Chat => 2000
    case Topic => 50
  }

  /** The part of `content` a prompt of kind `k` carries. */
  function Segment(k: Kind, content: string): string {
    Take(content, Budget(k))
  }

  const SummarySystem: string := "You are an expert at creating clear, comprehensive summaries of educational content.\nCreate a well-structured summary that captures the key concepts, main ideas, and important details.\nUse headings and bullet points for clarity."
  const SummaryIntro: string := "Please create a comprehensive summary of the following document:\n\n"
  /** The Python comment typed inside the summary f-string, which therefore becomes prompt text. */
  const SourceComment: string := "  # Limit to prevent token overflow"
  const SummaryInstructions: string := "Include:\n1. Main topics covered\n2. Key concepts and definitions\n3. Important points and takeaways\n4. Any critical information"
  /** What follows the document in the intended summary request: a blank line, then the instructions. */
  const SummaryOutro: string := "\n\n" + SummaryInstructions
  /** What follows the document in the summary request as the code builds it. */
  const SummaryOutroAsWritten: string := SourceComment + SummaryOutro

  const QuizSystem: string := "You are an expert quiz creator. Generate high-quality multiple-choice questions \nthat test understanding of key concepts. Return ONLY valid JSON with this exact structure:\n{\n  \"questions\": [\n    {\n      \"question\": \"Question text here?\",\n      \"options\": [\"Option A\", \"Option B\", \"Option C\", \"Option D\"],\n      \"correct_answer\": 0,\n      \"explanation\": \"Explanation of the correct answer\"\n    }\n  ]\n}"
  const QuizOutro: string := "\n\nRequirements:\n- Each question should have 4 options\n- Include the index (0-3) of the correct answer\n- Provide a clear explanation for each answer\n- Questions should test comprehension, not just memorization\n- Return ONLY the JSON, no additional text"

  const MockTestSystem: string := "You are an expert test creator. Create a comprehensive mock test with varied question types.\nReturn ONLY valid JSON with this structure:\n{\n  \"test_name\": \"Test title\",\n  \"duration_minutes\": 60,\n  \"sections\": [\n    {\n      \"section_name\": \"Section name\",\n      \"questions\": [\n        {\n          \"type\": \"mcq\",\n          \"question\": \"Question text?\",\n          \"options\": [\"A\", \"B\", \"C\", \"D\"],\n          \"correct_answer\": 0,\n          \"points\": 2,\n          \"explanation\": \"Why this is correct\"\n        },\n        {\n          \"type\": \"true_false\",\n          \"question\": \"Statement to evaluate\",\n          \"correct_answer\": true,\n          \"points\": 1,\n          \"explanation\": \"Explanation\"\n        },\n        {\n          \"type\": \"short_answer\",\n          \"question\": \"Question requiring brief answer?\",\n          \"sample_answer\": \"Example correct answer\",\n          \"points\": 3\n        }\n      ]\n    }\n  ]\n}"
  const MockTestIntro: string := "Create a comprehensive mock test based on this content:\n\n"
  const MockTestOutro: string := "\n\nInclude:\n- 20-25 questions total\n- Mix of multiple choice, true/false, and short answer questions\n- Organize into 2-3 logical sections\n- Assign appropriate point values\n- Provide explanations for objective questions\n- Return ONLY the JSON"

  const MindMapSystem: string := "You are an expert at creating hierarchical mind maps from educational content.\nCreate a structured mind map that shows relationships between concepts. Return ONLY valid JSON:\n{\n  \"central_topic\": \"Main topic\",\n  \"branches\": [\n    {\n      \"title\": \"Branch title\",\n      \"subtopics\": [\n        {\n          \"title\": \"Subtopic\",\n          \"points\": [\"Point 1\", \"Point 2\"]\n        }\n      ]\n    }\n  ]\n}"
  const MindMapIntro: string := "Create a comprehensive mind map structure from this content:\n\n"
  const MindMapOutro: string := "\n\nThe mind map should:\n- Have a clear central topic\n- Include 4-6 main branches\n- Each branch should have 2-4 subtopics\n- Each subtopic should have key points\n- Return ONLY the JSON"

  const ChatIntro: string := "You are a knowledgeable tutor helping a student understand educational content.\nYou have access to the following document content:\n\n"
  const ChatOutro: string := "\n\nAnswer the student's questions clearly and helpfully. Provide examples, explanations, and encourage learning.\nIf the question is not related to the document, you can still help with general educational topics."
  /** What the tutor's instruction carries in place of the document when there is none. */
  const NoDocumentText: string := "No document uploaded yet."

  const TopicSystem: string := "Extract the main topic or subject from this text in 3-5 words:"

  /** What `search_videos` appends to the query before searching. */
  const SearchSuffix: string := " tutorial explanation"
  /** The `max_results` `search_videos` asks for. */
  const SearchResults: nat := 8

  /** The summary request exactly as `summarize` builds it, comment text included. */
  function SummaryPromptAsWritten(content: string): (p: Prompt)
    ensures |p.user| <= |SummaryIntro| + 15000 + |SummaryOutroAsWritten| && p.maxTokens == 2000
  {
    Prompt(SummarySystem, SummaryIntro + Segment(Summary, content) + SummaryOutroAsWritten, OutputLimit(Summary))
  }

  /** The summary request evidently intended: the document followed directly by the instructions. */
  function SummaryPrompt(content: string): (p: Prompt)
    ensures |p.user| <= |SummaryIntro| + 15000 + |SummaryOutro| && p.maxTokens == 2000
  {
    Prompt(SummarySystem, SummaryIntro + Segment(Summary, content) + SummaryOutro, OutputLimit(Summary))
  }

  /** The opening of the quiz request; `numQuestions` and `difficulty` are the values' `str()`. */
  function QuizIntro(numQuestions: string, difficulty: string): string {
    "Create " + numQuestions + " " + difficulty + " difficulty multiple-choice questions based on this content:\n\n"
  }

  /** The quiz request: its size is bounded whatever the document's length. */
  function QuizPrompt(content: string, numQuestions: string, difficulty: string): (p: Prompt)
    ensures |p.user| <= |QuizIntro(numQuestions, difficulty)| + 12000 + |QuizOutro| && p.maxTokens == 4000
  {
    Prompt(QuizSystem, QuizIntro(numQuestions, difficulty) + Segment(Quiz, content) + QuizOutro, OutputLimit(Quiz))
  }

  /** The mock-test request: its size is bounded whatever the document's length. */
  function MockTestPrompt(content: string): (p: Prompt)
    ensures |p.user| <= |MockTestIntro| + 12000 + |MockTestOutro| && p.maxTokens == 4000
  {
    Prompt(MockTestSystem, MockTestIntro + Segment(MockTest, content) + MockTestOutro, OutputLimit(MockTest))
  }

  /** The mind-map request: its size is bounded whatever the document's length. */
  function MindMapPrompt(content: string): (p: Prompt)
    ensures |p.user| <= |MindMapIntro| + 12000 + |MindMapOutro| && p.maxTokens == 3000
  {
    Prompt(MindMapSystem, MindMapIntro + Segment(MindMap, content) + MindMapOutro, OutputLimit(MindMap))
  }

  /** The tutor's instruction carries the document, or the fallback text when the document is empty. */
  function ChatPrompt(content: string, message: string): (p: Prompt)
    ensures p.user == message && p.maxTokens == 2000
    ensures |p.system| <= |ChatIntro| + 10000 + |ChatOutro|
  {
    var shown := if content != "" then Segment(Chat, content) else NoDocumentText;
    Prompt(ChatIntro + shown + ChatOutro, message, OutputLimit(Chat))
  }

  /** The topic request sends a prefix of the document, at most 2000 characters of it. */
  function TopicPrompt(content: string): (p: Prompt)
    ensures |p.user| <= 2000 && |p.user| <= |content| && p.user == content[..|p.user|] && p.maxTokens == 50
  {
    Prompt(TopicSystem, Segment(Topic, content), OutputLimit(Topic))
  }

  /** min(|content|, n): the length of `content[:n]`. */
  function Cut(content: string, n: nat): nat {
    if |content| <= n then |content| else n
  }

  /** A text framed by a fixed opening and closing holds `content[:n]` at a fixed place. */
  lemma FrameHolds(intro: string, content: string, n: nat, outro: string)
    ensures var t := intro + Take(content, n) + outro;
      |t| == |intro| + Cut(content, n) + |outro|
      && t[..|intro|] == intro
      && t[|intro|..|intro| + Cut(content, n)] == content[..Cut(content, n)]
      && t[|intro| + Cut(content, n)..] == outro
  {
    var t := intro + Take(content, n) + outro;
    var m := Cut(content, n);
    assert t[|intro|..|intro| + m] == Take(content, n);
  }

  /**
   * The summary request `summarize` sends carries the prefix of the document
   * of length min(|content|, 15000) right after its fixed opening, then the
   * comment text and the instructions, and a limit of 2000.
   */
  lemma SummaryPromptCarriesPrefix(content: string)
    ensures var u := SummaryPromptAsWritten(content).user; var m := Cut(content, 15000);
      u[|SummaryIntro|..|SummaryIntro| + m] == content[..m] && |u| == |SummaryIntro| + m + |SummaryOutroAsWritten|
      && SummaryPromptAsWritten(content).maxTokens == 2000
  {
    FrameHolds(SummaryIntro, content, 15000, SummaryOutroAsWritten);
  }

  /**
   * The quiz request carries min(|content|, 12000) leading characters of
   * the document after the opening that names the count and difficulty,
   * and a limit of 4000.
   */
  lemma QuizPromptCarriesPrefix(content: string, numQuestions: string, difficulty: string)
    ensures var u := QuizPrompt(content, numQuestions, difficulty).user; var m := Cut(content, 12000);
      var i := QuizIntro(numQuestions, difficulty);
      u[|i|..|i| + m] == content[..m] && |u| == |i| + m + |QuizOutro|
      && QuizPrompt(content, numQuestions, difficulty).maxTokens == 4000
  {
    FrameHolds(QuizIntro(numQuestions, difficulty), content, 12000, QuizOutro);
  }

  /** The mock-test request carries min(|content|, 12000) leading characters, and a limit of 4000. */
  lemma MockTestPromptCarriesPrefix(content: string)
    ensures var u := MockTestPrompt(content).user; var m := Cut(content, 12000);
      u[|MockTestIntro|..|MockTestIntro| + m] == content[..m] && |u| == |MockTestIntro| + m + |MockTestOutro|
      && MockTestPrompt(content).maxTokens == 4000
  {
    FrameHolds(MockTestIntro, content, 12000, MockTestOutro);
  }

  /** The mind-map request carries min(|content|, 12000) leading characters, and a limit of 3000. */
  lemma MindMapPromptCarriesPrefix(content: string)
    ensures var u := MindMapPrompt(content).user; var m := Cut(content, 12000);
      u[|MindMapIntro|..|MindMapIntro| + m] == content[..m] && |u| == |MindMapIntro| + m + |MindMapOutro|
      && MindMapPrompt(content).maxTokens == 3000
  {
    FrameHolds(MindMapIntro, content, 12000, MindMapOutro);
  }

  /**
   * The tutor's instruction carries `content[:10000]` after its fixed
   * opening, or the fallback text when there is no document; the user
   * message is sent as is, with a limit of 2000.
   */
  lemma ChatPromptCarriesPrefix(content: string, message: string)
    ensures ChatPrompt(content, message).user == message && ChatPrompt(content, message).maxTokens == 2000
    ensures content != "" ==>
      var s := ChatPrompt(content, message).system; var m := Cut(content, 10000);
      s[|ChatIntro|..|ChatIntro| + m] == content[..m] && |s| == |ChatIntro| + m + |ChatOutro|
    ensures content == "" ==> ChatPrompt(content, message).system == ChatIntro + NoDocumentText + ChatOutro
  {
    FrameHolds(ChatIntro, content, 10000, ChatOutro);
  }

  /** The topic request is the first 2000 characters of the document itself, with a limit of 50. */
  lemma TopicPromptIsPrefix(content: string)
    ensures |TopicPrompt(content).user| == Cut(content, 2000)
    ensures TopicPrompt(content).user == content[..Cut(content, 2000)]
    ensures TopicPrompt(content).maxTokens == 50
  {
  }

  /** Documents that agree on their first N characters give the same request: the rest is never sent. */
  lemma PromptsIgnoreTextBeyondBudget(c1: string, c2: string, numQuestions: string, difficulty: string, message: string)
    requires |c1| >= 15000 && |c2| >= 15000 && c1[..15000] == c2[..15000]
    ensures SummaryPromptAsWritten(c1) == SummaryPromptAsWritten(c2)
    ensures SummaryPrompt(c1) == SummaryPrompt(c2)
    ensures QuizPrompt(c1, numQuestions, difficulty) == QuizPrompt(c2, numQuestions, difficulty)
    ensures MockTestPrompt(c1) == MockTestPrompt(c2)
    ensures MindMapPrompt(c1) == MindMapPrompt(c2)
    ensures ChatPrompt(c1, message) == ChatPrompt(c2, message)
    ensures TopicPrompt(c1) == TopicPrompt(c2)
  {
    SegmentsAgree(c1, c2, Summary);
    SegmentsAgree(c1, c2, Quiz);
    SegmentsAgree(c1, c2, MockTest);
    SegmentsAgree(c1, c2, MindMap);
    SegmentsAgree(c1, c2, Chat);
    SegmentsAgree(c1, c2, Topic);
    assert c1 != "" && c2 != "";
  }

  /** Every budget is at most 15000, so documents that agree that far have the same segment. */
  lemma SegmentsAgree(c1: string, c2: string, k: Kind)
    requires |c1| >= 15000 && |c2| >= 15000 && c1[..15000] == c2[..15000]
    ensures Segment(k, c1) == Segment(k, c2)
  {
    var n := Budget(k);
    assert c1[..n] == c1[..15000][..n];
    assert c2[..n] == c2[..15000][..n];
  }

  /**
   * As written, the summary request carries the Python comment that was
   * typed inside the f-string: right after the document segment the model
   * reads "  # Limit to prevent token overflow".
   */
  lemma SummaryPromptAsWrittenCarriesComment(content: string)
    ensures var u := SummaryPromptAsWritten(content).user; var k := |SummaryIntro| + Cut(content, 15000);
      u[k..k + |SourceComment|] == SourceComment
    ensures SummaryPromptAsWritten(content) != SummaryPrompt(content)
  {
    var x := SummaryIntro + Segment(Summary, content);
    assert |x| == |SummaryIntro| + Cut(content, 15000);
    assert SummaryPromptAsWritten(content).user == x + (SourceComment + SummaryOutro);
    assert SummaryPrompt(content).user == x + SummaryOutro;
    SplicedAfter(x, SourceComment, SummaryOutro);
    assert SourceComment[0] == ' ' && SummaryOutro[0] == '\n';
    DifferentTails(x, SourceComment + SummaryOutro, SummaryOutro);
  }

  lemma SplicedAfter(x: string, c: string, o: string)
    ensures (x + (c + o))[|x|..|x| + |c|] == c
  {
    assert forall i :: 0 <= i < |c| ==> (x + (c + o))[|x| + i] == c[i];
  }

  lemma DifferentTails(x: string, a: string, b: string)
    requires a != [] && b != [] && a[0] != b[0]
    ensures x + a != x + b
  {
    assert (x + a)[|x|] == a[0] && (x + b)[|x|] == b[0];
  }

  lemma SummaryPromptFollowsDocument(content: string)
    ensures var u := SummaryPrompt(content).user; var k := |SummaryIntro| + Cut(content, 15000);
      u[..|SummaryIntro|] == SummaryIntro && u[|SummaryIntro|..k] == content[..Cut(content, 15000)]
      && u[k..] == SummaryOutro && u[k..k + 2] == "\n\n"
  {
    FrameHolds(SummaryIntro, content, 15000, SummaryOutro);
    assert SummaryOutro[..2] == "\n\n";
  }
}
