/** The "day in the life" simulation flow: mock-mode dispatch, the canned
    simulation, and the "Prompt not defined" guard. Failures of the prompt call
    propagate unchanged: unlike the aptitude flow there is no reclassification
    and no prefix. */
module StreamSimulation {
  import opened Wrappers
  import Seqs
  import Genkit

  /** One decision point of the simulated day. */
  datatype Scenario = Scenario(id: string, timeOfDay: string, title: string, description: string,
                               challenge: string, options: seq<string>)

  datatype SimulateInput = SimulateInput(careerStream: string, userPreferences: seq<string>)

  /** The output schema constrains `scenarios` and `options` only by element
      type: the "3-4 scenarios" and "2-3 options" it describes are prompt text,
      so a value with any number of them conforms. */
  datatype SimulateOutput = SimulateOutput(introduction: string, scenarios: seq<Scenario>, conclusion: string)

  /** The counts the schema's descriptions ask for. */
  predicate MatchesDescribedCounts(o: SimulateOutput) {
    3 <= |o.scenarios| <= 4 && forall i :: 0 <= i < |o.scenarios| ==> 2 <= |o.scenarios[i].options| <= 3
  }

  const MockIntroduction: string := "Welcome to your day as a professional! You're about to step into the shoes of an expert in this field. Get ready to make decisions that professionals make every day."
  const MockConclusion: string := "Great job today! You experienced the balancing act of a professional in this field. You showed good decision-making skills."

  const Morning: Scenario := Scenario("s1", "9:00 AM", "Morning Kickoff",
    "You arrive at the workspace. The team is gathering for the daily stand-up meeting to discuss progress on the new project.",
    "A critical bug was reported by a user overnight. It needs immediate attention, but you also have a feature deadline today.",
    ["Prioritize the bug fix immediately", "Delegate the bug to a junior dev", "Stick to the feature plan and fix bug later"])
  const Afternoon: Scenario := Scenario("s2", "1:00 PM", "Deep Work Session",
    "After lunch, you have a block of time for focused work on the core architecture of the application.",
    "You realize the current design won't scale well for future users. Refactoring now will delay the release.",
    ["Refactor now for long-term health", "Stick to current design to meet deadline", "Consult with the lead architect"])
  const Evening: Scenario := Scenario("s3", "4:00 PM", "Client Presentation",
    "You are presenting the prototype to the client stakeholders. They seem skeptical about one of the features.",
    "The client suggests removing a key feature you believe is essential.",
    ["Defend the feature with data", "Accept their feedback and remove it", "Propose a compromise version"])

  /** `MOCK_SIMULATION`: three scenarios with distinct ids s1, s2, s3 in
      chronological order, each offering three distinct options. */
  function MockSimulation(): (r: SimulateOutput)
    ensures |r.scenarios| == 3
    ensures [r.scenarios[0].id, r.scenarios[1].id, r.scenarios[2].id] == ["s1", "s2", "s3"]
    ensures [r.scenarios[0].timeOfDay, r.scenarios[1].timeOfDay, r.scenarios[2].timeOfDay]
         == ["9:00 AM", "1:00 PM", "4:00 PM"]
    ensures forall i :: 0 <= i < 3 ==> |r.scenarios[i].options| == 3 && Seqs.NoDup(r.scenarios[i].options)
    ensures MatchesDescribedCounts(r)
  {
    SimulateOutput(MockIntroduction, [Morning, Afternoon, Evening], MockConclusion)
  }

  const PromptNotDefined: string := "Prompt not defined"

  /** The body of `simulateCareerStreamFlow`: fail when the prompt object is
      missing, otherwise whatever the prompt call returns or throws. */
  function SimulateFlow(promptDefined: bool, call: Result<SimulateOutput>): (r: Result<SimulateOutput>)
    ensures !promptDefined ==> r == Error(PromptNotDefined)
    ensures promptDefined ==> r == call
  {
    if !promptDefined then Error(PromptNotDefined) else call
  }

  /** `simulateCareerStream(input)`. The prompt and the flow are both built
      exactly when `ai` exists, so the guard never fires from here. */
  function SimulateCareerStream(ai: Option<Genkit.AiInstance>, input: SimulateInput,
                                call: Result<SimulateOutput>): (r: Result<SimulateOutput>)
    ensures ai.None? ==> r == Ok(MockSimulation())
    ensures ai.Some? ==> r == call
    ensures r != Error(PromptNotDefined) || call == Error(PromptNotDefined)
  {
    if ai.None? then Ok(MockSimulation())
    else SimulateFlow(ai.Some?, call)
  }

  /** `simulateCareerStream` as the module is written: importing `ai` runs
      `createFallbackAi()`, which throws when no provider loaded, so the call
      fails with that start-up error instead of reaching the mock. */
  function SimulateCareerStreamAsWritten(reg: Genkit.Registry, input: SimulateInput,
                                         call: Result<SimulateOutput>): (r: Result<SimulateOutput>)
    ensures reg.groqAi.None? && reg.geminiAi.None? ==> r == Error(Genkit.NoProvidersMessage)
    ensures reg.groqAi.Some? || reg.geminiAi.Some? ==>
      r == SimulateCareerStream(Genkit.AiOrNull(reg), input, call)
  {
    match Genkit.CreateFallbackAi(reg)
    case Error(msg) => Error(msg)
    case Ok(ai) => SimulateCareerStream(Some(ai), input, call)
  }

  /** As written, the canned simulation is never returned: with no provider the
      caller gets the start-up exception, and with one the prompt's outcome. */
  lemma MockSimulationUnreachableAsWritten(reg: Genkit.Registry, input: SimulateInput,
                                           call: Result<SimulateOutput>)
    requires call != Ok(MockSimulation())
    ensures SimulateCareerStreamAsWritten(reg, input, call) != Ok(MockSimulation())
  {
  }

  /** With `ai` null instead of an exception, no provider means the mock day,
      and with a provider both versions agree. */
  function SimulateCareerStreamFromConfig(reg: Genkit.Registry, input: SimulateInput,
                                          call: Result<SimulateOutput>): (r: Result<SimulateOutput>)
    ensures reg.groqAi.None? && reg.geminiAi.None? ==> r == Ok(MockSimulation())
    ensures reg.groqAi.Some? || reg.geminiAi.Some? ==> r == SimulateCareerStreamAsWritten(reg, input, call)
  {
    SimulateCareerStream(Genkit.AiOrNull(reg), input, call)
  }
}
