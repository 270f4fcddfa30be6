/** The stochastic parrot agent: `run` picks the last user message (or a
    default), reflects its pronouns and wraps it in a question and an
    interjection, emitting a single private `response` event; the shared
    transform stage turns it into one run envelope. The two random list
    indices are caller-supplied draws from [0, 1). */
module StochasticParrot {
  import opened Wrappers
  import opened Messages
  import opened Events
  import opened JsString
  import opened ResponseTransform

  const DefaultPrompt: string := "My life is complicated"

  /** What `message.content || "My life is complicated"` yields. */
  function PromptOf(m: Message): string {
    if m.content.Some? && m.content.value != "" then m.content.value else DefaultPrompt
  }

  /** Position `k` holds the last user-role message. */
  predicate IsLastUserMessage(messages: seq<Message>, k: int) {
    0 <= k < |messages| && messages[k].role == User
    && forall j :: k < j < |messages| ==> messages[j].role != User
  }

  predicate NoUserMessage(messages: seq<Message>) {
    forall i :: 0 <= i < |messages| ==> messages[i].role != User
  }

  /** The prompt `run` answers: the content of the last user-role message,
      or the default when there is no user message or its content is empty
      (an earlier user message is never consulted). */
  function LastUserPrompt(messages: seq<Message>): (r: string)
    ensures NoUserMessage(messages) ==> r == DefaultPrompt
    ensures forall k :: IsLastUserMessage(messages, k) ==> r == PromptOf(messages[k])
    decreases |messages|
  {
    if messages == [] then DefaultPrompt
    else if messages[|messages| - 1].role == User then PromptOf(messages[|messages| - 1])
    else
      var prefix := messages[..|messages| - 1];
      assert forall k :: IsLastUserMessage(messages, k) ==> IsLastUserMessage(prefix, k);
      assert NoUserMessage(messages) ==> NoUserMessage(prefix);
      LastUserPrompt(prefix)
  }

  /** The pronoun table, as in the source. */
  const Reflections: map<string, string> := map[
    "am" := "are", "are" := "am", "i" := "you", "you" := "I", "me" := "you",
    "my" := "your", "your" := "my", "i'm" := "you are", "im" := "you are",
    "myself" := "yourself", "was" := "were", "were" := "was",
    "i'd" := "you would", "i've" := "you have", "i'll" := "you will",
    "you've" := "I have", "you'll" := "I will"]

  const Interjections: seq<string> := [
    "Squawk!", "Pretty bird!", "Polly wants a cracker!", "Raawwkk!", "Hrrrrk!"]

  const QuestionPhrases: seq<string> := [
    "Why do you say", "Could you elaborate on why you said", "What makes you mention",
    "Why might you feel", "What's behind your statement about", "Tell me more about"]

  /** A word's table entry when it has one, the word itself otherwise. */
  function Reflect(word: string): string {
    if word in Reflections then Reflections[word] else word
  }

  /** What `this.reflections[word] || word` does on a plain object literal:
      the lookup also finds the members every object inherits, and the two
      of them whose names are lower case are truthy, so they replace the
      word (rendered the way `join` renders a function and an object). */
  const InheritedMembers: map<string, string> := map[
    "constructor" := "function Object() { [native code] }",
    "__proto__" := "[object Object]"]

  function ReflectAsWritten(word: string): string {
    if word in Reflections then Reflections[word]
    else if word in InheritedMembers then InheritedMembers[word]
    else word
  }

  function ReflectAll(words: seq<string>): (r: seq<string>)
    ensures |r| == |words| && forall k :: 0 <= k < |words| ==> r[k] == Reflect(words[k])
  {
    seq(|words|, k requires 0 <= k < |words| => Reflect(words[k]))
  }

  function ReflectAllAsWritten(words: seq<string>): (r: seq<string>)
    ensures |r| == |words| && forall k :: 0 <= k < |words| ==> r[k] == ReflectAsWritten(words[k])
  {
    seq(|words|, k requires 0 <= k < |words| => ReflectAsWritten(words[k]))
  }

  /** The words of the trimmed, lower-cased input. */
  function Words(input: string): seq<string> {
    SplitWords(ToLower(Trim(input)))
  }

  /** The reflected words, joined with single spaces. */
  function ReflectedText(input: string): string {
    Join(ReflectAll(Words(input)), " ")
  }

  function ReflectedTextAsWritten(input: string): string {
    Join(ReflectAllAsWritten(Words(input)), " ")
  }

  /** `Math.floor(draw * n)` for a draw from [0, 1): always an index of a
      list of length `n`. */
  function PickIndex(draw: real, n: nat): (k: nat)
    requires 0.0 <= draw < 1.0 && n > 0
    ensures k < n
  {
    assert draw * (n as real) < n as real;
    (draw * (n as real)).Floor
  }

  /** `StochasticParrotTherapist.completion`: the interjection is drawn
      first, the question second. The result is some listed question, the
      reflected words in double quotes, a question mark, and some listed
      interjection. */
  function Completion(input: string, interjectionDraw: real, questionDraw: real): (r: string)
    requires 0.0 <= interjectionDraw < 1.0 && 0.0 <= questionDraw < 1.0
    ensures exists q, j ::
      && 0 <= q < |QuestionPhrases| && 0 <= j < |Interjections|
      && r == QuestionPhrases[q] + " \"" + ReflectedText(input) + "\"? " + Interjections[j]
  {
    var interjection := Interjections[PickIndex(interjectionDraw, |Interjections|)];
    var question := QuestionPhrases[PickIndex(questionDraw, |QuestionPhrases|)];
    question + " \"" + ReflectedText(input) + "\"? " + interjection
  }

  /** `completion` as written, with the inherited-member lookup. */
  function CompletionAsWritten(input: string, interjectionDraw: real, questionDraw: real): (r: string)
    requires 0.0 <= interjectionDraw < 1.0 && 0.0 <= questionDraw < 1.0
    ensures exists q, j ::
      && 0 <= q < |QuestionPhrases| && 0 <= j < |Interjections|
      && r == QuestionPhrases[q] + " \"" + ReflectedTextAsWritten(input) + "\"? " + Interjections[j]
  {
    var interjection := Interjections[PickIndex(interjectionDraw, |Interjections|)];
    var question := QuestionPhrases[PickIndex(questionDraw, |QuestionPhrases|)];
    question + " \"" + ReflectedTextAsWritten(input) + "\"? " + interjection
  }

  /** The two completions differ only on inputs with an inherited member's
      name among their words. */
  lemma CompletionsAgree(input: string, interjectionDraw: real, questionDraw: real)
    requires 0.0 <= interjectionDraw < 1.0 && 0.0 <= questionDraw < 1.0
    requires forall k :: 0 <= k < |Words(input)| ==> Words(input)[k] !in InheritedMembers
    ensures CompletionAsWritten(input, interjectionDraw, questionDraw) == Completion(input, interjectionDraw, questionDraw)
  {
    assert ReflectAllAsWritten(Words(input)) == ReflectAll(Words(input));
  }

  /** `run`: exactly one `response` event, carrying the completion of the
      last user prompt. */
  function Run(input: RunInput, interjectionDraw: real, questionDraw: real): (r: seq<AgentEvent>)
    requires 0.0 <= interjectionDraw < 1.0 && 0.0 <= questionDraw < 1.0
    ensures |r| == 1 && r[0].kind == ResponseKind
    ensures r[0].response == Completion(LastUserPrompt(input.messages), interjectionDraw, questionDraw)
  {
    [AgentEvent(ResponseKind, Completion(LastUserPrompt(input.messages), interjectionDraw, questionDraw))]
  }

  /** The agent's whole pipeline, `run` then `transform`, is one well-formed
      run whose CONTENT is the parrot's completion of the last user prompt. */
  lemma PipelineIsOneRun(input: RunInput, interjectionDraw: real, questionDraw: real, messageId: string)
    requires 0.0 <= interjectionDraw < 1.0 && 0.0 <= questionDraw < 1.0
    ensures var reply := Completion(LastUserPrompt(input.messages), interjectionDraw, questionDraw);
      Transform(input, Run(input, interjectionDraw, questionDraw), [messageId])
        == Stream(Envelope(input, messageId, reply), Completed)
      && WellFormed(Envelope(input, messageId, reply))
  {
    SingleResponseRun(input, Completion(LastUserPrompt(input.messages), interjectionDraw, questionDraw), messageId);
  }

  /** Text that is already lower case, single-spaced, trimmed and free of
      words from the table is echoed unchanged: reflection touches table
      words only. */
  lemma EchoesNeutralText(words: seq<string>)
    requires |words| >= 1
    requires forall k :: 0 <= k < |words| ==> words[k] != [] && NoWhitespace(words[k])
    requires forall k :: 0 <= k < |words| ==> NoUpperCase(words[k])
    requires forall k :: 0 <= k < |words| ==> words[k] !in Reflections
    ensures ReflectedText(Join(words, " ")) == Join(words, " ")
  {
    ReflectsWordByWord(words);
    ReflectAllKeepsNeutralWords(words);
  }

  /** Reflection works word by word: on lower-case words joined with single
      spaces, the reply text is the reflected words joined the same way. */
  lemma ReflectsWordByWord(words: seq<string>)
    requires |words| >= 1
    requires forall k :: 0 <= k < |words| ==> words[k] != [] && NoWhitespace(words[k])
    requires forall k :: 0 <= k < |words| ==> NoUpperCase(words[k])
    ensures ReflectedText(Join(words, " ")) == Join(ReflectAll(words), " ")
  {
    WordsOfJoin(words);
  }

  /** Lower-case words joined with single spaces read back as those words. */
  lemma WordsOfJoin(words: seq<string>)
    requires |words| >= 1
    requires forall k :: 0 <= k < |words| ==> words[k] != [] && NoWhitespace(words[k])
    requires forall k :: 0 <= k < |words| ==> NoUpperCase(words[k])
    ensures Words(Join(words, " ")) == words
  {
    JoinIsTrimmed(words);
    ToLowerOfJoin(words);
    SplitJoinRoundTrip(words);
  }

  lemma ReflectAllKeepsNeutralWords(words: seq<string>)
    requires forall k :: 0 <= k < |words| ==> words[k] !in Reflections
    ensures ReflectAll(words) == words
  {
  }

  /** The words of a trimmed input whose lower-cased form is the given
      words joined with single spaces. */
  lemma WordsOf(input: string, words: seq<string>)
    requires |words| >= 1
    requires forall k :: 0 <= k < |words| ==> words[k] != [] && NoWhitespace(words[k])
    requires Trimmed(input) && ToLower(input) == Join(words, " ")
    ensures Words(input) == words
  {
    TrimOfTrimmed(input);
    SplitJoinRoundTrip(words);
  }

  lemma LowerPronounSentenceTail()
    ensures ToLower(" am sad") == " am sad"
  {
  }

  lemma LowerPronounSentence()
    ensures ToLower("I am sad") == "i am sad"
  {
    assert "I am sad"[1..] == " am sad";
    LowerPronounSentenceTail();
  }

  lemma JoinPronounWords()
    ensures Join(["i", "am", "sad"], " ") == "i am sad"
  {
  }

  lemma PronounWordsClean()
    ensures forall k :: 0 <= k < 3 ==> ["i", "am", "sad"][k] != [] && NoWhitespace(["i", "am", "sad"][k])
  {
    assert NoWhitespace("i") && NoWhitespace("am") && NoWhitespace("sad");
  }

  lemma PronounSentenceWords()
    ensures Words("I am sad") == ["i", "am", "sad"]
  {
    LowerPronounSentence();
    JoinPronounWords();
    PronounWordsClean();
    assert Trimmed("I am sad");
    WordsOf("I am sad", ["i", "am", "sad"]);
  }

  /** Reflection in action: "I am sad" is answered about "you are sad". */
  lemma ReflectsPronouns()
    ensures ReflectedText("I am sad") == "you are sad"
  {
    PronounSentenceWords();
    ReflectPronounWords();
    JoinPronounReply();
  }

  lemma JoinPronounReply()
    ensures Join(["you", "are", "sad"], " ") == "you are sad"
  {
  }

  lemma ReflectPronounWords()
    ensures ReflectAll(["i", "am", "sad"]) == ["you", "are", "sad"]
  {
    assert Reflect("i") == "you" && Reflect("am") == "are" && Reflect("sad") == "sad";
  }

  lemma ConstructorIsClean()
    ensures "constructor" != [] && NoWhitespace("constructor") && NoUpperCase("constructor")
  {
  }

  lemma ConstructorWords()
    ensures Words("constructor") == ["constructor"]
  {
    ConstructorIsClean();
    assert Join(["constructor"], " ") == "constructor";
    WordsOfJoin(["constructor"]);
  }

  /** The lookup as written reflects the word "constructor", which is not in
      the table, into the text of a function. */
  lemma ConstructorIsReflectedAsWritten()
    ensures "constructor" !in Reflections
    ensures ReflectedTextAsWritten("constructor") == "function Object() { [native code] }"
    ensures ReflectedText("constructor") == "constructor"
  {
    ConstructorWords();
    ReflectConstructorWord();
  }

  lemma ReflectConstructorWord()
    ensures "constructor" !in Reflections
    ensures Join(ReflectAll(["constructor"]), " ") == "constructor"
    ensures Join(ReflectAllAsWritten(["constructor"]), " ") == "function Object() { [native code] }"
  {
    assert ReflectAll(["constructor"]) == ["constructor"];
    assert ReflectAllAsWritten(["constructor"]) == ["function Object() { [native code] }"];
  }
}
