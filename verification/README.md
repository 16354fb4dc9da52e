# Career guidance app: verified model of its decision logic

This project models the deterministic core of a career-guidance web app for
10th-grade students. The app has these parts:

- **Interest profile:** a questionnaire with single- and multiple-choice questions. Multiple selection can be capped.
- **Profile set-up:** a two-step form.
- **Aptitude test and quiz:** answered one question at a time. The answers are stored as an ordered array and as an id-to-answer object.
- **Dashboard:** it
  - normalises the stored answers
  - rebuilds question/answer pairs
  - asks an AI flow for an analysis
  - lets the student explore one career stream through a simulated day
  - generates and loads a detailed report
- **AI layer:** picks a provider (Groq first, Gemini second). When no provider is configured it is meant to fall back to canned "mock" results; as written, it throws at start-up instead (see Findings). Model-not-found errors are rewritten into a readable message.
- **Roadmaps:** a fixed milestone table per stream, plus a career-paths page. That page shows stored roadmap steps, or a generic five-step path.

Every handler is modelled as a pure function over immutable records:
- the page's state in, the new state (or an outcome) out
- stored documents, environment variables, clocks and AI calls become parameters
- a thrown error is `Result.Error(message)`
- a JavaScript object used as a dictionary is an insertion-ordered list of key/value pairs (`JsObject`), so `Object.values` order is captured exactly

Modules, one per source file plus shared helpers:

| module | models |
|---|---|
| `AptitudeAnalysis` | `getAptitudeAnalysis` (src/app/dashboard/page.tsx) |
| `Genkit` | provider loading and `createFallbackAi` (src/ai/genkit.ts) |
| `CareerAnalysis` | `analyzeAptitude`, its flow, error classification and mock (src/ai/ai-career-analysis.ts) |
| `StreamSimulation` | `simulateCareerStream`, its flow and mock (src/ai/flows/stream-explorer-simulation.ts) |
| `InterestProfile` | src/app/interest-profile/page.tsx |
| `ProfileSetup` | src/app/profile-setup/page.tsx |
| `SequentialTest` | the `handleAnswer`/`handleBack` pair shared by the aptitude test and the quiz |
| `AptitudeTest`, `Quiz` | their question lists and completion records |
| `Dashboard` | src/components/dashboard-client.tsx |
| `CareerRoadmap` | src/components/career-roadmap.tsx |
| `CareerPaths` | src/app/career-paths/page.tsx |
| `Wrappers`, `Text`, `Seqs`, `JsObject`, `Navigation` | `Option`/`Result`, lower-casing/`includes`/`trim`, `Set`-dedup/`filter`/`slice`, object spread and `Object.values`, index stepping |

Notes on reading the source:
- **Merge conflict:** src/ai/flows/stream-explorer-simulation.ts has unresolved conflict markers at lines 65-69 and 97-101. The model follows the `ai ? … : null` side, the only one that matches the `: null` at lines 95 and 112.
- **`getAptitudeAnalysis`:** modelled as declared, over a list of answer strings, returning `recommendation`. The dashboard client calls its analysis action with `{detailedAnswers, timeTaken}` and reads `careerRecommendation`. There the action is an abstract parameter (`Result<AnalyzeOutput>`), and the two are not reconciled.
- **`allCareerStreams`:** the dashboard imports it from the roadmap component, which does not export it. `Dashboard.OtherStreams` takes the catalogue as a parameter.

## Model

| member | source | states |
|---|---|---|
| AptitudeAnalysis.CreativityScore | src/app/dashboard/page.tsx:7 | The creativity score lies in 0..number of answers. It is 0 exactly when no answer mentions "creative", "ideas" or "designing" (ignoring case), and it equals the number of answers exactly when every answer does. |
| AptitudeAnalysis.CreativityScoreAppend | src/app/dashboard/page.tsx:7 | The score of two answer lists joined is the sum of their scores (the filter counts each answer on its own). |
| AptitudeAnalysis.Choice | src/app/dashboard/page.tsx:9-18 | Each of the three threshold choices is three distinct streams from the seven-stream catalogue. |
| AptitudeAnalysis.GetAptitudeAnalysis | src/app/dashboard/page.tsx:5-28 | The result always has exactly 3 pairwise-distinct streams, all from the catalogue. A score >= 3 gives the creative triple and text, <= 1 the logical triple and text, exactly 2 the balanced default. Padding with the catalogue and deduplicating never changes the chosen triple. |
| AptitudeAnalysis.AnalysisIgnoresOrder | src/app/dashboard/page.tsx:6-7 | The analysis depends only on which answers are given, not on the order of two answer blocks. |
| Seqs.Dedup | src/app/dashboard/page.tsx:22 | `[...new Set(xs)]`: no duplicates, the same members as the input, never longer. |
| Seqs.DedupPrefix | src/app/dashboard/page.tsx:22 | Deduplicating a longer list keeps the deduplicated prefix in front: `Set` keeps first occurrences in insertion order. |
| Seqs.DedupOfNoDup | src/app/dashboard/page.tsx:22 | A list without duplicates is its own deduplication. |
| Seqs.DedupKeepsDistinctPrefix | src/app/dashboard/page.tsx:22-26 | A distinct list followed by anything deduplicates to a list that starts with it unchanged. |
| Seqs.Take | src/app/dashboard/page.tsx:26 | `slice(0, n)`: the first n elements, or the whole list when shorter. |
| Seqs.Remove | src/app/interest-profile/page.tsx:136 | `filter(o => o !== x)`: every member other than x is kept, x is gone, and a duplicate-free list loses exactly one element when x was present. A list without x is unchanged. |
| Seqs.RemoveDistributes | src/app/interest-profile/page.tsx:136 | Removal works element by element: removing from a concatenation concatenates the removals. With the one-element cases, the survivors keep their order, as `filter` keeps them. |
| Seqs.RemoveAppended | src/app/profile-setup/page.tsx:86-88 | Removing an element just appended to a list that lacked it gives the list back. |
| Seqs.Without | src/components/dashboard-client.tsx:346-347 | Filtering out a set of excluded values keeps exactly the non-excluded members and preserves distinctness. |
| Seqs.WithoutDistributes | src/components/dashboard-client.tsx:346-347 | The filter works element by element: filtering a concatenation is concatenating the filtered parts (so order is preserved). |
| Text.Lower | src/app/dashboard/page.tsx:7 | Lower-casing keeps the length and maps each character on its own. |
| Text.LowerKeepsLowerCase | src/app/dashboard/page.tsx:7 | Text without upper-case ASCII letters is its own lower-case form. |
| Text.LowerLacksChar | src/ai/ai-career-analysis.ts:72 | If a text has neither the lower- nor the upper-case form of a letter, its lower-cased form lacks that letter. |
| Text.MissingCharBlocksContains | src/ai/ai-career-analysis.ts:72 | A text lacking some character of a pattern cannot contain the pattern. |
| Text.TrimStart | src/app/profile-setup/page.tsx:118 | What `trim` removes at the front is whitespace only, and the rest starts with a non-whitespace character or is empty. |
| Text.TrimEnd | src/app/profile-setup/page.tsx:118 | What `trim` removes at the back is whitespace only, and the rest ends with a non-whitespace character or is empty. |
| Text.TrimEmptyIffBlank | src/app/profile-setup/page.tsx:118 | `name.trim() !== ''` fails exactly when the name is all whitespace. |
| Text.NatToString | src/components/dashboard-client.tsx:165-166 | `${n}`: non-empty decimal digits whose value is n, with a leading zero only for 0; a single digit renders as itself. |
| Text.NatToStringInjective | src/components/dashboard-client.tsx:165-166 | Different numbers render as different strings. |
| JsObject.Keys | src/app/aptitude-test/page.tsx:106 | The object's keys in insertion order, one per property. |
| JsObject.Values | src/components/dashboard-client.tsx:93 | `Object.values`: one value per property, in insertion order. |
| JsObject.Get | src/app/interest-profile/page.tsx:118 | A lookup is undefined exactly for keys the object lacks, and otherwise returns a stored pair's value. |
| JsObject.GetAt | src/components/dashboard-client.tsx:93 | In an object, the value stored at a position is what a lookup of that position's key returns. |
| JsObject.Set | src/app/aptitude-test/page.tsx:106 | `{ ...o, [k]: v }` keeps the keys in place when k exists and appends k otherwise. |
| JsObject.SetGet | src/app/interest-profile/page.tsx:150 | After the spread, k reads v and every other key reads what it read before. |
| JsObject.SetGetAll | src/app/quiz/page.tsx:64 | The same for all keys at once: only the written key changes. |
| JsObject.SetWellFormed | src/app/quiz/page.tsx:64 | The spread keeps every key unique. |
| Genkit.LoadPlugin | src/ai/genkit.ts:11-38 | A provider is loaded exactly when its key is set (non-empty) and its plugin loads, carrying that key. Otherwise it stays null with exactly one warning: key not set, or load failed. |
| Genkit.InitRegistry | src/ai/genkit.ts:7-38 | Groq is loaded iff its key is set and its plugin loads; likewise Gemini. One warning is emitted per provider that stays null. |
| Genkit.GeminiIndependentOfGroq | src/ai/genkit.ts:16-19 | A Groq key or load failure never affects Gemini: Gemini's outcome depends only on its own key and loader. |
| Genkit.Plugins | src/ai/genkit.ts:45-51 | The plugin list has one entry per loaded provider, at most 2, with Groq first and Gemini last, and nothing else. |
| Genkit.CreateFallbackAi | src/ai/genkit.ts:44-61 | It fails with "No AI providers available…" exactly when no provider loaded. Otherwise the instance has 1-2 plugins, and its model is the Groq model iff Groq loaded and the Gemini model iff it did not. |
| Genkit.AiOrNull | src/ai/genkit.ts:53-63 | The intended `ai`: null exactly when no provider loaded, otherwise the instance `createFallbackAi` builds. |
| Genkit.NoKeysImportThrows | src/ai/genkit.ts:63 | With neither key set, creating `ai` throws the no-providers error. |
| CareerAnalysis.MockAptitudeResult | src/ai/ai-career-analysis.ts:27-34 | The mock result has exactly 3 distinct streams, within the 2-3 the output schema describes, and a non-empty recommendation. |
| CareerAnalysis.RegexIsSubstringTest | src/ai/ai-career-analysis.ts:72 | The case-insensitive pattern with alternatives `Model.*not found`, `NOT_FOUND` and `not found` matches exactly when the lower-cased message contains "not found" or "not_found": the `Model.*` alternative adds nothing. |
| CareerAnalysis.ModelName | src/ai/ai-career-analysis.ts:73 | The model named in the message is `GENKIT_MODEL` when it is set and non-empty, otherwise `<unset>`. |
| CareerAnalysis.ModelErrorMessage | src/ai/ai-career-analysis.ts:74-76 | The rewritten message names the model right after its fixed prefix and ends with the original message. |
| CareerAnalysis.ModelErrorIsNotFound | src/ai/ai-career-analysis.ts:72-76 | The rewritten message itself matches the not-found classifier. |
| CareerAnalysis.WithoutUNotReclassified | src/ai/ai-career-analysis.ts:72 | A message without the letter u (either case) is never reclassified. |
| CareerAnalysis.PromptNotDefinedIsNotReclassified | src/ai/ai-career-analysis.ts:67-78 | "Prompt not defined" is not reclassified. |
| CareerAnalysis.AnalyzeAptitudeFlow | src/ai/ai-career-analysis.ts:65-80 | A missing prompt throws "Prompt not defined" unchanged. A successful call is returned. A failing call whose message is a not-found error is rewritten to the model error naming `GENKIT_MODEL`, and any other failure is rethrown unchanged. |
| CareerAnalysis.AnalyzeAptitude | src/ai/ai-career-analysis.ts:83-101 | Without a flow, the mock result is returned for every input. With one, success passes through, and any failure becomes "Server error: " followed by the flow's message. |
| CareerAnalysis.AnalyzeAptitudeAsWritten | src/ai/genkit.ts:63 | As written: start-up and call together. With a provider this is `analyzeAptitude`; with none, the import-time exception. |
| CareerAnalysis.MockModeUnreachableAsWritten | src/ai/ai-career-analysis.ts:85-90 | As written, with no provider, the caller gets the no-providers exception and never the mock result. |
| CareerAnalysis.AnalyzeAptitudeFromConfig | src/ai/ai-career-analysis.ts:83-101 | Corrected: with no provider the mock result is returned; with one, the behaviour is unchanged from the code as written. |
| StreamSimulation.MockSimulation | src/ai/flows/stream-explorer-simulation.ts:34-63 | The mock day has exactly 3 scenarios with ids s1, s2, s3 at 9:00 AM, 1:00 PM, 4:00 PM. Each has 3 distinct options, within the counts the schema descriptions give. |
| StreamSimulation.SimulateFlow | src/ai/flows/stream-explorer-simulation.ts:107-111 | A missing prompt throws "Prompt not defined"; otherwise the call's result or error passes through unchanged. |
| StreamSimulation.SimulateCareerStream | src/ai/flows/stream-explorer-simulation.ts:114-124 | The intended behaviour (see Findings): without a flow the mock is returned for every input. With one, the flow's outcome propagates with no reclassification or prefix. |
| StreamSimulation.SimulateCareerStreamAsWritten | src/ai/flows/stream-explorer-simulation.ts:9-124 | As written, importing `ai` throws without a provider, so the call fails with the start-up error; with a provider it behaves as `SimulateCareerStream`. |
| StreamSimulation.MockSimulationUnreachableAsWritten | src/ai/flows/stream-explorer-simulation.ts:114-124 | As written, the canned simulation is never returned unless the prompt itself returns it. |
| StreamSimulation.SimulateCareerStreamFromConfig | src/ai/flows/stream-explorer-simulation.ts:114-124 | With `ai` null instead of an exception, no provider gives the mock day, and with a provider it agrees with the as-written version. |
| Navigation.Advance | src/app/interest-profile/page.tsx:153-154 | Moving on goes to index+1 exactly when not on the last question, and the index stays in range. |
| Navigation.Back | src/app/interest-profile/page.tsx:175-181 | Back goes to index-1 exactly when the index is above 0, and otherwise leaves the page. |
| Navigation.AdvanceBackRoundTrip | src/app/quiz/page.tsx:67-84 | Back undoes a forward step and a forward step undoes Back. |
| InterestProfile.QuestionIds | src/app/interest-profile/page.tsx:26-98 | Five questions with distinct ids. |
| InterestProfile.ClickOption | src/app/interest-profile/page.tsx:128-144 | Each click case is pinned down: single choice gives exactly [option]; a selected option is removed alone by the order-keeping `Seqs.Remove`; a new option is refused at the cap and otherwise appended at the end. No duplicates are introduced, the cap is kept, and nothing but the option is added. |
| InterestProfile.ClickTwiceRestores | src/app/interest-profile/page.tsx:134-142 | On a multiple-choice question below its cap, clicking a new option twice restores the selection. |
| InterestProfile.Selection | src/app/interest-profile/page.tsx:119-125 | A restored selection has at most one element unless a list was saved. |
| InterestProfile.Restore | src/app/interest-profile/page.tsx:117-126 | A missing answer restores to an empty selection; a saved one restores through `Selection`. |
| InterestProfile.SavedValue | src/app/interest-profile/page.tsx:148 | Multiple-choice saves the whole list, single-choice the first element (nothing when empty). |
| InterestProfile.SaveRestoreRoundTrip | src/app/interest-profile/page.tsx:117-148 | Saving a selection that could have been clicked, then restoring it, gives it back. |
| InterestProfile.HandleNext | src/app/interest-profile/page.tsx:146-173 | The value is stored under the current question id only; other answers are unchanged. The index advances exactly when not on the last question, leaving `isSubmitting` as it was; otherwise it submits. The selection shown is restored for the question now current. |
| InterestProfile.EnabledNextSavesAnswer | src/app/interest-profile/page.tsx:146-156 | Through the Next button (enabled only with a selection and no save pending, line 254), the saved value is never `undefined` or an empty list, moving on leaves `isSubmitting` false, and after submitting the button is disabled. |
| InterestProfile.HandleBack | src/app/interest-profile/page.tsx:175-181 | Back moves to the previous question, keeping the answers and restoring that question's selection, exactly when not on the first. |
| InterestProfile.InitialStateValid | src/app/interest-profile/page.tsx:105-108 | The initial state satisfies the invariant: index in range, no duplicate selections, caps kept, saved answers of each question's kind. |
| InterestProfile.ClickPreservesValid | src/app/interest-profile/page.tsx:128-144 | Clicks preserve the invariant. |
| InterestProfile.RestoreFits | src/app/interest-profile/page.tsx:117-126 | A restored selection is duplicate-free and within its question's cap when the saved answers are. |
| InterestProfile.NextPreservesValid | src/app/interest-profile/page.tsx:146-173 | Next preserves the invariant, including every saved answer fitting its question. |
| InterestProfile.BackPreservesValid | src/app/interest-profile/page.tsx:175-181 | Back preserves the invariant. |
| InterestProfile.NextThenBackRestores | src/app/interest-profile/page.tsx:146-181 | Next followed by Back returns to the same question with the same selection and the same `isSubmitting`, the new answer kept. |
| ProfileSetup.InputChange | src/app/profile-setup/page.tsx:75-78 | An input change sets only the named field. |
| ProfileSetup.SelectChange | src/app/profile-setup/page.tsx:80-82 | A select change sets only gender. |
| ProfileSetup.ToggleInterest | src/app/profile-setup/page.tsx:84-91 | A new id is appended at the end; a present id is removed by the order-keeping `Seqs.Remove`. Toggling flips membership of the id only, keeps the list duplicate-free, and leaves name, age and gender alone. |
| ProfileSetup.ToggleTwiceRestores | src/app/profile-setup/page.tsx:84-91 | Toggling a new id twice restores the form exactly. |
| ProfileSetup.ToggleTwiceSameInterests | src/app/profile-setup/page.tsx:84-91 | Toggling any id twice restores the set of interests. |
| ProfileSetup.Step1ValidMeansNonBlankName | src/app/profile-setup/page.tsx:118 | Step 1 is valid exactly when the name is not all whitespace and age and gender are non-empty. |
| ProfileSetup.HandleContinue | src/app/profile-setup/page.tsx:93-116 | On step 1 it moves to step 2 exactly when name, age and gender are non-empty (untrimmed), changing nothing else. On step 2 it submits the form. |
| ProfileSetup.ContinueButton | src/app/profile-setup/page.tsx:217-222 | Through the button, step 1 advances exactly when `isStep1Valid`; step 2 submits. |
| ProfileSetup.BlankNameBlockedOnlyByButton | src/app/profile-setup/page.tsx:93-221 | A whitespace-only name would pass `handleContinue` but the disabled button stops it. |
| ProfileSetup.Back | src/app/profile-setup/page.tsx:212-213 | Back on step 2 returns to step 1 with the form untouched. |
| ProfileSetup.ContinueThenBack | src/app/profile-setup/page.tsx:93-213 | Continuing from step 1 and going back restores the state. |
| SequentialTest.RoundedSeconds | src/app/aptitude-test/page.tsx:115 | `Math.round(ms / 1000)` is the whole number of seconds within half a second of ms, halves rounding up. |
| SequentialTest.RoundedSecondsUnique | src/app/quiz/page.tsx:71 | No other whole number of seconds meets that bound. |
| SequentialTest.TimeTaken | src/app/aptitude-test/page.tsx:114-115 | The time is 0 without a start time, otherwise the rounded elapsed seconds, never negative for a start before now. |
| SequentialTest.AnswersArray | src/app/aptitude-test/page.tsx:117 | One entry per question in question order: the recorded answer, or '' when unanswered. |
| SequentialTest.HandleAnswer | src/app/aptitude-test/page.tsx:105-141 | The option is recorded under the current id only. The index advances exactly when not on the last question; otherwise the test completes with the answers array (the option last) and the time taken. |
| SequentialTest.HandleBack | src/app/aptitude-test/page.tsx:143-149 | Back decrements the index exactly when it is above 0, changing nothing else. |
| SequentialTest.InitialProgress | src/app/quiz/page.tsx:49-50 | The initial state satisfies the progress invariant: answered ids form a prefix of the question ids, in order. |
| SequentialTest.AnswerKeys | src/app/aptitude-test/page.tsx:106 | Answering keeps the answered ids a prefix of the question ids, growing by one only when answering a new question. |
| SequentialTest.AnswerKeepsProgress | src/app/aptitude-test/page.tsx:105-110 | Answering preserves the progress invariant. |
| SequentialTest.BackKeepsProgress | src/app/aptitude-test/page.tsx:143-149 | Back preserves the progress invariant. |
| SequentialTest.ValuesAreAnswersArray | src/app/aptitude-test/page.tsx:117-131 | An object keyed by the question ids in order has the answers array as its values. |
| SequentialTest.CompletedAnswersInOrder | src/app/aptitude-test/page.tsx:117-131 | On completion every question is answered, in order, and the stored object's values are exactly the answers array. |
| AptitudeTest.Ids | src/app/aptitude-test/page.tsx:13-62 | Eight questions with pairwise-distinct ids, in list order. |
| AptitudeTest.IdsAreDashboardIds | src/components/dashboard-client.tsx:165 | The i-th question's id is exactly the `q{i+1}` the dashboard looks up for the i-th answer. |
| AptitudeTest.WrittenTexts | src/app/aptitude-test/page.tsx:92-95 | Writing question documents in order leaves every id present, holding the text of the last question written under it. |
| AptitudeTest.SeededTexts | src/app/aptitude-test/page.tsx:87-103 | After seeding, each question id maps to its text. |
| AptitudeTest.DashboardRecoversQuestionTexts | src/components/dashboard-client.tsx:162-171 | The dashboard's rebuild of an aptitude-test answer list pairs each answer with the text of the question it answered. |
| AptitudeTest.LocalRecord | src/app/aptitude-test/page.tsx:120 | Local storage receives the ordered array and the time. |
| AptitudeTest.DatabaseRecord | src/app/aptitude-test/page.tsx:125-131 | The database receives the id-to-answer object and the time. |
| AptitudeTest.StoredFormsAgree | src/components/dashboard-client.tsx:91-94 | The database record, normalised by the dashboard, equals the local-storage record. |
| AptitudeTest.Submitted | src/app/aptitude-test/page.tsx:124-140 | Only a failed database save keeps the student on the test; otherwise the dashboard opens. |
| Quiz.Ids | src/app/quiz/page.tsx:12-43 | Five questions q1..q5 with distinct ids, each offering exactly two distinct options. |
| Quiz.CompletedRecord | src/app/quiz/page.tsx:63-79 | The completed record has exactly 5 answers in question order, the last being the final option, and it equals the stored object's values. The dashboard reads it back unchanged. |
| Dashboard.NormaliseAnswers | src/components/dashboard-client.tsx:93 | An array is kept, an object becomes its values in insertion order, and anything else becomes empty. |
| Dashboard.NormaliseResults | src/components/dashboard-client.tsx:92-94 | A missing time becomes 0. |
| Dashboard.QuestionId | src/components/dashboard-client.tsx:165 | `q${idx + 1}`: "q" followed by the decimal digits of i + 1, with no leading zero. |
| Dashboard.QuestionIdInjective | src/components/dashboard-client.tsx:165 | Different answer positions look up different question ids. |
| Dashboard.Reconstruct | src/components/dashboard-client.tsx:162-171 | Length and the i-th answer are preserved. The i-th question is the stored text for `q{i+1}`, or "Question {i+1}" when none is stored. |
| Dashboard.AnalyzeRequest | src/components/dashboard-client.tsx:173-176 | The analysis input has one pair per answer and the stored time. |
| Dashboard.RecommendedStreams | src/components/dashboard-client.tsx:346 | The analysis's `careerStreams`, or the empty list without an analysis (the `[]` fallback). |
| Dashboard.OtherStreams | src/components/dashboard-client.tsx:346-347 | The other streams are exactly the catalogue streams not recommended. Together with the recommended list they cover the catalogue, and they are distinct if the catalogue is. Without an analysis, it is the whole catalogue. |
| Dashboard.WithoutNothing | src/components/dashboard-client.tsx:347 | Filtering by an empty exclusion list changes nothing. |
| Dashboard.SelectStream | src/components/dashboard-client.tsx:201-206 | Selecting sets the stream and clears the simulation, feedback and report, and nothing else. |
| Dashboard.SelectStreamIdempotent | src/components/dashboard-client.tsx:201-206 | Selecting the same stream twice equals selecting it once. |
| Dashboard.SimulateRequest | src/components/dashboard-client.tsx:209-216 | A simulation is requested exactly when a non-empty stream and quiz results exist, and it passes the quiz answers as preferences. |
| Dashboard.HandleSimulate | src/components/dashboard-client.tsx:208-224 | It is a no-op without a request or on failure. Success stores the simulation and moves to 'simulated'. |
| Dashboard.SetFeedback | src/components/dashboard-client.tsx:226-228 | Feedback becomes 'positive' or 'negative', and nothing else changes. |
| Dashboard.ReportRequest | src/components/dashboard-client.tsx:231-238 | A report is requested exactly when stream, feedback and quiz results are all present, with those values. |
| Dashboard.HandleGenerateReport | src/components/dashboard-client.tsx:230-258 | It is a no-op without a request or on failure; success stores the report. |
| Dashboard.SelectThenGuards | src/components/dashboard-client.tsx:201-231 | Right after selecting a stream no report can be generated, and simulation is possible exactly when quiz results exist. |
| Dashboard.LoadedReport | src/components/dashboard-client.tsx:103-126 | The newest subcollection report wins whenever one exists, even if unusable. Otherwise the nested legacy report, otherwise the legacy field itself. A report is shown only when strengths and suitability are non-empty. |
| Dashboard.ApplyReport | src/components/dashboard-client.tsx:122-126 | A loaded report is set, and its stream is selected only when its name is non-empty. |
| Dashboard.CheckResults | src/components/dashboard-client.tsx:74-149 | A missing user document redirects to the test. A stored analysis shows 'results'. Otherwise stored quiz results start an analysis in 'analyzing'. Stored quiz results are kept, normalised, in both cases. Otherwise it redirects. The report is loaded whenever the document exists. |
| Dashboard.FinishAnalysis | src/components/dashboard-client.tsx:173-195 | Success stores the analysis and shows 'results'. A failure shows 'error' with its message and keeps the old analysis. A failed save after success still ends in 'error'. |
| Dashboard.AutoOpenReport | src/components/dashboard-client.tsx:56-60 | The report dialog opens when a report is present on the results page; nothing else changes. |
| Dashboard.LoadOpensReport | src/components/dashboard-client.tsx:56-149 | On a fresh page, the dialog opens after loading exactly when a stored analysis exists and a usable report was loaded. |
| Dashboard.LoadThenAnalyze | src/components/dashboard-client.tsx:74-195 | With stored quiz results but no analysis, a successful, saved analysis ends on 'results' with that analysis, no error and the stored answers. The dialog then opens exactly when a usable report was loaded. |
| Dashboard.ReturningStudentCanSimulate | src/components/dashboard-client.tsx:74-216 | With a stored analysis and quiz results, selecting any non-empty stream allows the simulation, with the stored answers as preferences. |
| CareerRoadmap.TableCoversCatalogue | src/components/career-roadmap.tsx:11-47 | The table's streams are exactly the seven catalogue streams of `getAptitudeAnalysis`, each once. |
| CareerRoadmap.ThreeMilestonesEach | src/components/career-roadmap.tsx:12-46 | Every entry has three milestones for each of year 1, year 5 and year 10. |
| CareerRoadmap.RoadmapFor | src/components/career-roadmap.tsx:71-72 | A known stream gets its own entry, and any other stream gets the Software Engineering entry. |
| CareerRoadmap.AnalysisStreamsHaveRoadmaps | src/components/career-roadmap.tsx:11-47 | Every stream `getAptitudeAnalysis` returns has its own roadmap. |
| CareerRoadmap.MockCivilEngineeringFallsBack | src/components/career-roadmap.tsx:72 | "Civil Engineering", recommended by the mock analysis, has no entry and shows the Software Engineering roadmap. |
| CareerRoadmap.Horizons | src/components/career-roadmap.tsx:76-88 | The horizons render in the order Year 1, Year 5, Year 10 with the looked-up milestones. |
| CareerPaths.Steps | src/app/career-paths/page.tsx:29-35 | The stored steps are shown when non-empty, otherwise the five default steps; never empty. |
| CareerPaths.NodeClassification | src/app/career-paths/page.tsx:48-51 | Index 0 gets BookOpen, the last index other than 0 gets Briefcase, the others get Milestone, and only the last node is green. |
| CareerPaths.SingleStepNode | src/app/career-paths/page.tsx:48-51 | A one-step roadmap shows BookOpen on green. |
| CareerPaths.GetRoadmapData | src/app/career-paths/page.tsx:103-106 | Absent ids give null. A returned roadmap is the one stored under the id. |
| CareerPaths.StoredRoadmapFound | src/app/career-paths/page.tsx:103-106 | Every stored document's roadmap is returned for its id. |
| CareerPaths.PopularIds | src/app/career-paths/page.tsx:15-24 | There are 8 popular streams with pairwise-distinct ids. |
| CareerPaths.StreamClick | src/app/career-paths/page.tsx:98-101 | A click selects exactly that stream and opens the sheet. |
| CareerPaths.SheetSteps | src/app/career-paths/page.tsx:189-192 | The sheet shows steps exactly when a stream is selected, never an empty list, and the default path when nothing is stored. |
| CareerPaths.ClickWithoutStoredRoadmap | src/app/career-paths/page.tsx:98-106 | Clicking a stream without a stored roadmap shows the default path. |

## Left out

- **I/O:** database and local-storage reads and writes, authentication, routing, and the question seeding loop are left out. Stored documents are input values. `AptitudeTest.SeededTexts` only states what the seeding leaves in the collection.
- **The AI SDK:** prompt rendering, `definePrompt`/`defineFlow`, provider calls, and the schema validation the SDK performs. A flow is a parameter `call: Result<…>`. The null `output!` case is not modelled.
- **The detailed report flow** (src/ai/flows/detailed-report-generation.ts) is a passthrough to the SDK. `Dashboard.HandleGenerateReport` takes its outcome as a parameter.
- **Module loading:** `require` of the provider plugins is a boolean "loads" parameter, and environment variables are parameters.
- **Timing and concurrency:** the 1.5 s mock delays, `useTransition` and effect scheduling are left out. Effects are applied as explicit functions (`InterestProfile.Restore`, `Dashboard.AutoOpenReport`).
- **Floating point:** progress percentages and map coordinates are left out. Times are integer milliseconds; float rounding error in `ms / 1000` is not modelled.
- **UI:** JSX rendering, styling, icons other than the roadmap node classification, and the report export (html2canvas/print). The roadmap badges (`title.substring(0, 2)`) are not modelled.
- Text.Lower: lower-cases ASCII only, so `toLowerCase` is modelled exactly on ASCII text. Non-ASCII letters that lower-case to ASCII are not mapped.
- CareerRoadmap.RoadmapFor: looks up own keys only; an inherited property name such as "constructor" is treated as absent.
- Dashboard.FinishAnalysis: the failure message is the thrown error's message. The "An unexpected error occurred." text for non-`Error` throwables is not modelled.
- Dashboard.CheckResults: a failing database read is treated like a missing user document (both redirect to the test); the early return when the database handle is missing is not modelled.
- Dashboard.LoadedReport: a report is a record with string fields, so a non-object legacy `report` value is not modelled.
- InterestProfile.HandleNext: the save to the database on the last question, and `isSubmitting` being reset when that save fails, are modelled only as the `submitting` flag.

## Findings

| source | as written | input that shows it | evidently intended | confidence | as-written member | corrected member |
|---|---|---|---|---|---|---|
| src/ai/genkit.ts:53-63 with src/ai/ai-career-analysis.ts:85-90 and src/ai/flows/stream-explorer-simulation.ts:9-124 | `export const ai = createFallbackAi()` throws while the module loads when no provider is available. Every caller of `analyzeAptitude` or `simulateCareerStream` then fails with "No AI providers available…". Their "Mock Mode" branches, guarded by a flow that is null only when `ai` is null, can never run. | `GROQ_API_KEY` and `GEMINI_API_KEY` both unset | Without a provider, `ai` is null and the flows answer with their mock results | not executed | CareerAnalysis.AnalyzeAptitudeAsWritten (shown by CareerAnalysis.MockModeUnreachableAsWritten); StreamSimulation.SimulateCareerStreamAsWritten (shown by StreamSimulation.MockSimulationUnreachableAsWritten) | CareerAnalysis.AnalyzeAptitudeFromConfig (with Genkit.AiOrNull); StreamSimulation.SimulateCareerStreamFromConfig with StreamSimulation.SimulateCareerStream |
