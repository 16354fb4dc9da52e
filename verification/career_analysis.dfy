/** The aptitude-analysis flow: mock-mode dispatch, the "model not found"
    error classifier and the "Server error: " wrapping of flow failures. */
module CareerAnalysis {
  import opened Wrappers
  import opened Text
  import Seqs
  import Genkit

  datatype QuestionAnswer = QuestionAnswer(question: string, answer: string)

  /** The flow's input: question/answer pairs and the time taken in seconds. */
  datatype AnalyzeInput = AnalyzeInput(detailedAnswers: seq<QuestionAnswer>, timeTaken: int)

  datatype AnalyzeOutput = AnalyzeOutput(careerRecommendation: string, careerStreams: seq<string>)

  /** The canned result of mock mode. Its streams fit the "2-3 career examples"
      the output schema describes, and are distinct. */
  function MockAptitudeResult(): (r: AnalyzeOutput)
    ensures |r.careerStreams| == 3 && 2 <= |r.careerStreams| <= 3
    ensures Seqs.NoDup(r.careerStreams)
    ensures r.careerRecommendation != []
  {
    AnalyzeOutput(MockRecommendation, MockStreams)
  }

  const MockRecommendation: string := "Based on your strong problem-solving skills and interest in technology, the **Science (PCM)** stream with Computer Science is highly recommended. You consistently chose answers favoring logic, analysis, and structural thinking. This path offers robust opportunities in engineering and research."
  const MockStreams: seq<string> := ["Software Engineering", "Data Science", "Civil Engineering"]

  /** The lower-case forms of the two patterns; comparing them with the
      lower-cased message is what matching with the `i` flag does. */
  const NotFound: string := "not found"
  const NotUnderscoreFound: string := "not_found"

  /** The classifier as the flow's catch block states it: "not found" or
      "not_found", ignoring case. */
  predicate IsModelNotFound(msg: string) {
    Contains(Lower(msg), NotFound) || Contains(Lower(msg), NotUnderscoreFound)
  }

  predicate IsLineTerminator(c: char) {
    c == '\n' || c == '\r' || c as int == 0x2028 || c as int == 0x2029
  }

  /** The first alternative of the regular expression: "model", then any
      characters other than line terminators, then "not found", ignoring case. */
  predicate ModelThenNotFound(msg: string) {
    var m := Lower(msg);
    exists i, j :: 0 <= i && i + 5 <= j <= |m| - |NotFound|
      && OccursAt(m, "model", i) && OccursAt(m, NotFound, j)
      && forall k :: i + 5 <= k < j ==> !IsLineTerminator(msg[k])
  }

  /** `/Model.*not found|NOT_FOUND|not found/i.test(msg)`. */
  predicate RegexMatches(msg: string) {
    ModelThenNotFound(msg) || Contains(Lower(msg), NotUnderscoreFound) || Contains(Lower(msg), NotFound)
  }

  /** The "Model.*not found" alternative adds nothing: the regular expression
      matches exactly the messages containing "not found" or "not_found" in any case. */
  lemma RegexIsSubstringTest(msg: string)
    ensures RegexMatches(msg) <==> IsModelNotFound(msg)
  {
    var m := Lower(msg);
    if ModelThenNotFound(msg) {
      var i, j :| 0 <= i && i + 5 <= j <= |m| - |NotFound|
        && OccursAt(m, "model", i) && OccursAt(m, NotFound, j)
        && forall k :: i + 5 <= k < j ==> !IsLineTerminator(msg[k]);
      assert Contains(m, NotFound);
    }
  }

  /** `process.env.GENKIT_MODEL || '<unset>'`. */
  function ModelName(genkitModel: Option<string>): (r: string)
    ensures Genkit.KeySet(genkitModel) ==> r == genkitModel.value
    ensures !Genkit.KeySet(genkitModel) ==> r == "<unset>"
    ensures r != []
  {
    if Genkit.KeySet(genkitModel) then genkitModel.value else "<unset>"
  }

  const ModelErrorPrefix: string := "AI model error: Model '"
  const ModelErrorInfix: string := "' "
  const ModelErrorAdvice: string := ". Set a valid model name in the GENKIT_MODEL environment variable (for example 'googleai/gemini-1.0'), or verify the model availability with your provider. Original error: "

  /** The message of the reclassified error: it names the model right after
      the fixed prefix and ends with the original message. */
  function ModelErrorMessage(model: string, original: string): (r: string)
    ensures |ModelErrorPrefix| + |model| <= |r|
    ensures r[|ModelErrorPrefix|..|ModelErrorPrefix| + |model|] == model
    ensures |original| <= |r| && r[|r| - |original|..] == original
  {
    var head := ModelErrorPrefix + model + ModelErrorInfix;
    var r := head + NotFound + (ModelErrorAdvice + original);
    assert r[|ModelErrorPrefix|..|ModelErrorPrefix| + |model|] == head[|ModelErrorPrefix|..|ModelErrorPrefix| + |model|];
    assert r[|r| - |original|..] == (ModelErrorAdvice + original)[|ModelErrorAdvice|..];
    r
  }

  /** A reclassified error would itself be classified as "not found" again. */
  lemma ModelErrorIsNotFound(model: string, original: string)
    ensures IsModelNotFound(ModelErrorMessage(model, original))
  {
    var head := ModelErrorPrefix + model + ModelErrorInfix;
    var tail := ModelErrorAdvice + original;
    LowerKeepsLowerCase(NotFound);
    LowerFindsLowerCaseMiddle(head, NotFound, tail);
  }

  /** A lower-case piece in the middle of a text is still there, at the same
      place, once the text is lower-cased. */
  lemma LowerFindsLowerCaseMiddle(a: string, b: string, c: string)
    requires Lower(b) == b
    ensures Contains(Lower(a + b + c), b)
  {
    var s := a + b + c;
    assert s[|a|..|a| + |b|] == b;
    assert Lower(s)[|a|..|a| + |b|] == Lower(b) by {
      forall i | 0 <= i < |b|
        ensures Lower(s)[|a|..|a| + |b|][i] == Lower(b)[i]
      {
        assert s[|a| + i] == b[i];
      }
    }
    assert OccursAt(Lower(s), b, |a|);
  }

  /** The body of `analyzeAptitudeFlow`. `promptDefined` tells whether the
      prompt object exists; `call` is what the prompt call returns or throws. A
      "not found" failure is rewritten to name the configured model; every
      other failure, "Prompt not defined" included, is rethrown unchanged. */
  function AnalyzeAptitudeFlow(promptDefined: bool, call: Result<AnalyzeOutput>, genkitModel: Option<string>)
    : (r: Result<AnalyzeOutput>)
    ensures promptDefined && call.Ok? ==> r == call
    ensures !promptDefined ==> r == Error(PromptNotDefined)
    ensures promptDefined && call.Error? && IsModelNotFound(call.message) ==>
      r == Error(ModelErrorMessage(ModelName(genkitModel), call.message))
    ensures promptDefined && call.Error? && !IsModelNotFound(call.message) ==> r == call
  {
    var attempt := if promptDefined then call else Error(PromptNotDefined);
    match attempt
    case Ok(_) => attempt
    case Error(msg) =>
      RegexIsSubstringTest(msg);
      PromptNotDefinedIsNotReclassified();
      if RegexMatches(msg) then Error(ModelErrorMessage(ModelName(genkitModel), msg))
      else attempt
  }

  const PromptNotDefined: string := "Prompt not defined"

  /** Both patterns contain a 'u', so a message without 'u' in either case is
      never reclassified. */
  lemma WithoutUNotReclassified(msg: string)
    requires 'u' !in msg && 'U' !in msg
    ensures !IsModelNotFound(msg)
  {
    LowerLacksChar(msg, 'u', 'U');
    assert NotFound[6] == 'u' && NotUnderscoreFound[6] == 'u';
    MissingCharBlocksContains(Lower(msg), NotFound, 'u');
    MissingCharBlocksContains(Lower(msg), NotUnderscoreFound, 'u');
  }

  /** "Prompt not defined" is not a "not found" message, so it passes through. */
  lemma PromptNotDefinedIsNotReclassified()
    ensures !IsModelNotFound(PromptNotDefined)
  {
    WithoutUNotReclassified(PromptNotDefined);
  }

  const ServerErrorPrefix: string := "Server error: "

  /** `analyzeAptitude(input)`. The flow and its prompt exist exactly when `ai`
      does. Without them the mock result is returned for every input; with
      them a flow failure is rethrown as "Server error: " and its message. */
  function AnalyzeAptitude(ai: Option<Genkit.AiInstance>, input: AnalyzeInput,
                           call: Result<AnalyzeOutput>, genkitModel: Option<string>)
    : (r: Result<AnalyzeOutput>)
    ensures ai.None? ==> r == Ok(MockAptitudeResult())
    ensures ai.Some? && call.Ok? ==> r == call
    ensures r.Error? ==> ai.Some? && call.Error?
    ensures r.Error? ==> |ServerErrorPrefix| <= |r.message| && r.message[..|ServerErrorPrefix|] == ServerErrorPrefix
    ensures ai.Some? && call.Error? ==>
      r == Error(ServerErrorPrefix + AnalyzeAptitudeFlow(true, call, genkitModel).message)
  {
    if ai.None? then Ok(MockAptitudeResult())
    else
      match AnalyzeAptitudeFlow(ai.Some?, call, genkitModel)
      case Ok(out) => Ok(out)
      case Error(msg) => Error(ServerErrorPrefix + msg)
  }

  /** Start-up and call together, as the code is written: the module that
      creates `ai` throws when no provider is available, and that exception is
      what every caller gets. */
  function AnalyzeAptitudeAsWritten(reg: Genkit.Registry, input: AnalyzeInput,
                                    call: Result<AnalyzeOutput>, genkitModel: Option<string>)
    : (r: Result<AnalyzeOutput>)
    ensures reg.groqAi.Some? || reg.geminiAi.Some? ==>
      r == AnalyzeAptitude(Genkit.AiOrNull(reg), input, call, genkitModel)
  {
    match Genkit.CreateFallbackAi(reg)
    case Error(msg) => Error(msg)
    case Ok(ai) => AnalyzeAptitude(Some(ai), input, call, genkitModel)
  }

  /** As written, mock mode is unreachable: with no provider the caller gets
      the start-up exception, never the mock result. */
  lemma MockModeUnreachableAsWritten(reg: Genkit.Registry, input: AnalyzeInput,
                                     call: Result<AnalyzeOutput>, genkitModel: Option<string>)
    requires reg.groqAi.None? && reg.geminiAi.None?
    ensures AnalyzeAptitudeAsWritten(reg, input, call, genkitModel) == Error(Genkit.NoProvidersMessage)
    ensures AnalyzeAptitudeAsWritten(reg, input, call, genkitModel) != Ok(MockAptitudeResult())
  {
  }

  /** With `ai` null instead of an exception, no provider means mock mode. */
  function AnalyzeAptitudeFromConfig(reg: Genkit.Registry, input: AnalyzeInput,
                                     call: Result<AnalyzeOutput>, genkitModel: Option<string>)
    : (r: Result<AnalyzeOutput>)
    ensures reg.groqAi.None? && reg.geminiAi.None? ==> r == Ok(MockAptitudeResult())
    ensures reg.groqAi.Some? || reg.geminiAi.Some? ==>
      r == AnalyzeAptitudeAsWritten(reg, input, call, genkitModel)
  {
    AnalyzeAptitude(Genkit.AiOrNull(reg), input, call, genkitModel)
  }
}
