/** The dashboard client's pure logic: normalising stored quiz answers,
    rebuilding question/answer pairs, choosing the stored report to show,
    splitting streams, and the page-state transitions of its handlers. */
module Dashboard {
  import opened Wrappers
  import opened Text
  import Seqs
  import JsObject
  import CareerAnalysis
  import StreamSimulation

  /** The stored `answers` of `aptitudeResults`: an array (local-storage form),
      an id-to-answer object (database form), or anything else. */
  datatype StoredAnswers = ArrayValue(items: seq<string>) | ObjectValue(fields: JsObject.Obj<string>) | OtherValue

  /** `aptitudeResults` as stored; a missing or zero time is falsy. */
  datatype StoredResults = StoredResults(answers: StoredAnswers, timeTaken: Option<int>)

  datatype QuizResults = QuizResults(answers: seq<string>, timeTaken: int)

  /** An array is kept, an object becomes its values in insertion order, and
      anything else becomes the empty list. */
  function NormaliseAnswers(a: StoredAnswers): (r: seq<string>)
    ensures a.ArrayValue? ==> r == a.items
    ensures a.ObjectValue? ==> |r| == |a.fields| && forall i :: 0 <= i < |r| ==> r[i] == a.fields[i].1
    ensures a.OtherValue? ==> r == []
  {
    match a
    case ArrayValue(items) => items
    case ObjectValue(fields) => JsObject.Values(fields)
    case OtherValue => []
  }

  /** The quiz results the dashboard keeps: normalised answers and the time,
      0 when missing. */
  function NormaliseResults(s: StoredResults): (r: QuizResults)
    ensures r.answers == NormaliseAnswers(s.answers)
    ensures s.timeTaken.None? ==> r.timeTaken == 0
    ensures s.timeTaken.Some? ==> r.timeTaken == s.timeTaken.value
  {
    QuizResults(NormaliseAnswers(s.answers), s.timeTaken.GetOr(0))
  }

  /** The id `q{i+1}` of the i-th answer: "q" followed by the decimal digits
      of i + 1. */
  function QuestionId(i: nat): (r: string)
    ensures |r| >= 2 && r[0] == 'q' && r[1] != '0'
    ensures AllDigits(r[1..]) && DecimalValue(r[1..]) == i + 1
  {
    var r := "q" + NatToString(i + 1);
    assert r[1..] == NatToString(i + 1);
    r
  }

  /** Different answer positions look up different question ids. */
  lemma QuestionIdInjective(i: nat, j: nat)
    requires i != j
    ensures QuestionId(i) != QuestionId(j)
  {
  }

  /** The placeholder `Question {i+1}` used when no text is stored. */
  function PlaceholderQuestion(i: nat): string {
    "Question " + NatToString(i + 1)
  }

  /** Rebuilt `detailedAnswers`: one pair per answer, in order, whose question
      is the stored text for `q{i+1}`, or the placeholder when there is none. */
  function Reconstruct(answers: seq<string>, questions: map<string, string>): (r: seq<CareerAnalysis.QuestionAnswer>)
    ensures |r| == |answers|
    ensures forall i :: 0 <= i < |r| ==> r[i].answer == answers[i]
    ensures forall i :: 0 <= i < |r| && QuestionId(i) in questions ==> r[i].question == questions[QuestionId(i)]
    ensures forall i :: 0 <= i < |r| && QuestionId(i) !in questions ==> r[i].question == PlaceholderQuestion(i)
  {
    seq(|answers|, i requires 0 <= i < |answers| =>
      CareerAnalysis.QuestionAnswer(
        if QuestionId(i) in questions then questions[QuestionId(i)] else PlaceholderQuestion(i),
        answers[i]))
  }

  /** The input handed to the analysis action. */
  function AnalyzeRequest(results: QuizResults, questions: map<string, string>): (r: CareerAnalysis.AnalyzeInput)
    ensures |r.detailedAnswers| == |results.answers| && r.timeTaken == results.timeTaken
  {
    CareerAnalysis.AnalyzeInput(Reconstruct(results.answers, questions), results.timeTaken)
  }

  /** `analysis?.careerStreams || []`. */
  function RecommendedStreams(analysis: Option<CareerAnalysis.AnalyzeOutput>): (r: seq<string>)
    ensures analysis.None? ==> r == []
    ensures analysis.Some? ==> r == analysis.value.careerStreams
  {
    if analysis.Some? then analysis.value.careerStreams else []
  }

  /** `otherStreams`: the catalogue minus the recommended streams, in catalogue
      order; together with the recommended list it covers the catalogue. */
  function OtherStreams(all: seq<string>, analysis: Option<CareerAnalysis.AnalyzeOutput>): (r: seq<string>)
    ensures forall s :: s in r <==> s in all && s !in RecommendedStreams(analysis)
    ensures forall s :: s in all ==> s in r || s in RecommendedStreams(analysis)
    ensures Seqs.NoDup(all) ==> Seqs.NoDup(r)
    ensures analysis.None? ==> r == all
  {
    var r := Seqs.Without(all, RecommendedStreams(analysis));
    if analysis.None? then
      assert forall s :: s !in RecommendedStreams(analysis);
      WithoutNothing(all, RecommendedStreams(analysis));
      r
    else r
  }

  lemma {:induction false} WithoutNothing(all: seq<string>, excluded: seq<string>)
    requires forall s :: s !in excluded
    ensures Seqs.Without(all, excluded) == all
  {
    if |all| > 0 {
      WithoutNothing(all[1..], excluded);
      assert [all[0]] + all[1..] == all;
    }
  }

  datatype PageState = Loading | Analyzing | Results | Simulated | Failed

  /** The fields of a detailed report the dashboard reads; a missing text
      field is the empty string (both falsy). */
  datatype Report = Report(strengths: string, suitability: string, jobProspects: seq<string>)

  datatype DashState = DashState(
    quizResults: Option<QuizResults>,
    analysis: Option<CareerAnalysis.AnalyzeOutput>,
    selectedStream: Option<string>,
    simulation: Option<StreamSimulation.SimulateOutput>,
    feedback: Option<string>,
    finalReport: Option<Report>,
    pageState: PageState,
    error: Option<string>,
    reportOpen: bool)

  const InitialState: DashState := DashState(None, None, None, None, None, None, Loading, None, false)

  /** A present, non-empty string. */
  predicate Truthy(s: Option<string>) {
    s.Some? && s.value != ""
  }

  /** `handleSelectStream(stream)`: select the stream and clear the simulation,
      the feedback and the report; nothing else changes. */
  function SelectStream(s: DashState, stream: string): (r: DashState)
    ensures r.selectedStream == Some(stream)
    ensures r.simulation.None? && r.feedback.None? && r.finalReport.None?
    ensures r.(selectedStream := s.selectedStream, simulation := s.simulation,
               feedback := s.feedback, finalReport := s.finalReport) == s
  {
    s.(selectedStream := Some(stream), simulation := None, feedback := None, finalReport := None)
  }

  /** Selecting the same stream again changes nothing more. */
  lemma SelectStreamIdempotent(s: DashState, stream: string)
    ensures SelectStream(SelectStream(s, stream), stream) == SelectStream(s, stream)
  {
  }

  /** The simulation request `handleSimulate` sends, if any: it needs a
      selected stream and quiz results, and passes the quiz answers as the
      user's preferences. */
  function SimulateRequest(s: DashState): (r: Option<StreamSimulation.SimulateInput>)
    ensures r.Some? <==> Truthy(s.selectedStream) && s.quizResults.Some?
    ensures r.Some? ==>
      r.value.careerStream == s.selectedStream.value && r.value.userPreferences == s.quizResults.value.answers
  {
    if Truthy(s.selectedStream) && s.quizResults.Some? then
      Some(StreamSimulation.SimulateInput(s.selectedStream.value, s.quizResults.value.answers))
    else None
  }

  /** `handleSimulate()` given what the simulation call returns or throws: a
      success stores the simulation and moves to 'simulated'; a failure is only
      logged; without a request nothing happens. */
  function HandleSimulate(s: DashState, outcome: Result<StreamSimulation.SimulateOutput>): (r: DashState)
    ensures SimulateRequest(s).None? || outcome.Error? ==> r == s
    ensures SimulateRequest(s).Some? && outcome.Ok? ==>
      r == s.(simulation := Some(outcome.value), pageState := Simulated)
  {
    if SimulateRequest(s).None? then s
    else match outcome
      case Ok(sim) => s.(simulation := Some(sim), pageState := Simulated)
      case Error(_) => s
  }

  /** `handleSimulationFeedback`. */
  function SetFeedback(s: DashState, positive: bool): (r: DashState)
    ensures Truthy(r.feedback)
    ensures r.(feedback := s.feedback) == s
  {
    s.(feedback := Some(if positive then "positive" else "negative"))
  }

  datatype ReportInput = ReportInput(careerStream: string, userFeedback: string, quizAnswers: seq<string>)

  /** The report request `handleGenerateReport` sends, if any: it needs the
      stream, the feedback and the quiz results. */
  function ReportRequest(s: DashState): (r: Option<ReportInput>)
    ensures r.Some? <==> Truthy(s.selectedStream) && Truthy(s.feedback) && s.quizResults.Some?
    ensures r.Some? ==> r.value == ReportInput(s.selectedStream.value, s.feedback.value, s.quizResults.value.answers)
  {
    if Truthy(s.selectedStream) && Truthy(s.feedback) && s.quizResults.Some? then
      Some(ReportInput(s.selectedStream.value, s.feedback.value, s.quizResults.value.answers))
    else None
  }

  /** `handleGenerateReport()` given what the report call returns or throws. */
  function HandleGenerateReport(s: DashState, outcome: Result<Report>): (r: DashState)
    ensures ReportRequest(s).None? || outcome.Error? ==> r == s
    ensures ReportRequest(s).Some? && outcome.Ok? ==> r == s.(finalReport := Some(outcome.value))
  {
    if ReportRequest(s).None? then s
    else match outcome
      case Ok(rep) => s.(finalReport := Some(rep))
      case Error(_) => s
  }

  /** After a stream is selected, no report can be generated until feedback is
      given again, and a simulation is possible exactly when quiz results exist. */
  lemma SelectThenGuards(s: DashState, stream: string, outcome: Result<Report>)
    requires stream != ""
    ensures ReportRequest(SelectStream(s, stream)).None?
    ensures HandleGenerateReport(SelectStream(s, stream), outcome) == SelectStream(s, stream)
    ensures SimulateRequest(SelectStream(s, stream)).Some? <==> s.quizResults.Some?
  {
  }

  /** The newest document of the reports subcollection. */
  datatype LatestReportDoc = LatestReportDoc(report: Option<Report>, stream: Option<string>)

  /** The legacy `report` field of the user document: a wrapper with a nested
      `report`, or the report object itself. */
  datatype LegacyReport = Nested(inner: Report, stream: Option<string>) | Direct(direct: Report)

  /** A report is shown only when its strengths and suitability are non-empty. */
  predicate Acceptable(rep: Report) {
    rep.strengths != "" && rep.suitability != ""
  }

  /** The report to show and the stream name recorded with it: the newest
      subcollection document when there is one (even if its report is
      unusable), else the nested legacy report, else the legacy field itself. */
  function LoadedReport(latest: Option<LatestReportDoc>, legacy: Option<LegacyReport>): (r: Option<(Report, Option<string>)>)
    ensures r.Some? ==> Acceptable(r.value.0)
    ensures latest.Some? ==>
      (r.Some? <==> latest.value.report.Some? && Acceptable(latest.value.report.value))
    ensures latest.Some? && r.Some? ==> r.value == (latest.value.report.value, latest.value.stream)
    ensures latest.None? && legacy.Some? && legacy.value.Nested? ==>
      r == (if Acceptable(legacy.value.inner) then Some((legacy.value.inner, legacy.value.stream)) else None)
    ensures latest.None? && legacy.Some? && legacy.value.Direct? ==>
      r == (if Acceptable(legacy.value.direct) then Some((legacy.value.direct, None)) else None)
    ensures latest.None? && legacy.None? ==> r.None?
  {
    var (data, stream) :=
      if latest.Some? then (latest.value.report, latest.value.stream)
      else if legacy.Some? then
        match legacy.value
        case Nested(inner, st) => (Some(inner), st)
        case Direct(rep) => (Some(rep), None)
      else (None, None);
    if data.Some? && Acceptable(data.value) then Some((data.value, stream)) else None
  }

  /** Apply a loaded report: set it, and select its stream when the name is truthy. */
  function ApplyReport(s: DashState, loaded: Option<(Report, Option<string>)>): (r: DashState)
    ensures loaded.None? ==> r == s
    ensures loaded.Some? ==> r.finalReport == Some(loaded.value.0)
    ensures loaded.Some? ==>
      r.selectedStream == (if Truthy(loaded.value.1) then loaded.value.1 else s.selectedStream)
  {
    match loaded
    case None => s
    case Some((rep, stream)) =>
      var t := s.(finalReport := Some(rep));
      if Truthy(stream) then t.(selectedStream := stream) else t
  }

  /** The report field once a loaded report, if any, is applied. */
  function ReportAfterLoad(current: Option<Report>, loaded: Option<(Report, Option<string>)>): Option<Report> {
    if loaded.Some? then Some(loaded.value.0) else current
  }

  /** The user document fields the dashboard reads. */
  datatype UserDoc = UserDoc(careerAnalysis: Option<CareerAnalysis.AnalyzeOutput>,
                             aptitudeResults: Option<StoredResults>, report: Option<LegacyReport>)

  datatype LoadAction = ShowDashboard | StartAnalysis(results: QuizResults) | RedirectToTest

  datatype LoadOutcome = LoadOutcome(state: DashState, action: LoadAction)

  /** `checkResults()` given the user document (if it exists) and the newest
      report document (if any): a stored analysis shows the results; otherwise
      stored quiz results start an analysis; otherwise the user is sent to the
      aptitude test. */
  function CheckResults(s: DashState, doc: Option<UserDoc>, latest: Option<LatestReportDoc>): (r: LoadOutcome)
    ensures doc.None? ==> r == LoadOutcome(s, RedirectToTest)
    ensures doc.Some? && doc.value.careerAnalysis.Some? ==>
      r.action == ShowDashboard && r.state.pageState == Results && r.state.analysis == doc.value.careerAnalysis
    ensures doc.Some? && doc.value.careerAnalysis.None? && doc.value.aptitudeResults.Some? ==>
      r.action == StartAnalysis(NormaliseResults(doc.value.aptitudeResults.value))
      && r.state.pageState == Analyzing
      && r.state.quizResults == Some(NormaliseResults(doc.value.aptitudeResults.value))
    ensures doc.Some? && doc.value.aptitudeResults.Some? ==>
      r.state.quizResults == Some(NormaliseResults(doc.value.aptitudeResults.value))
    ensures doc.Some? && doc.value.careerAnalysis.None? && doc.value.aptitudeResults.None? ==>
      r.action == RedirectToTest && r.state.pageState == s.pageState
    ensures doc.Some? ==>
      r.state.finalReport == ReportAfterLoad(s.finalReport, LoadedReport(latest, doc.value.report))
  {
    match doc
    case None => LoadOutcome(s, RedirectToTest)
    case Some(d) =>
      var s1 := if d.careerAnalysis.Some? then s.(analysis := d.careerAnalysis, pageState := Results) else s;
      var s2 := if d.aptitudeResults.Some? then s1.(quizResults := Some(NormaliseResults(d.aptitudeResults.value))) else s1;
      var s3 := ApplyReport(s2, LoadedReport(latest, d.report));
      if d.careerAnalysis.Some? then LoadOutcome(s3, ShowDashboard)
      else if d.aptitudeResults.Some? then
        var results := NormaliseResults(d.aptitudeResults.value);
        LoadOutcome(s3.(quizResults := Some(results), pageState := Analyzing), StartAnalysis(results))
      else LoadOutcome(s3, RedirectToTest)
  }

  /** The end of `fetchQuestionsAndAnalyze`: `outcome` is what fetching the
      questions and the analysis action return or throw, `saveError` what
      persisting the analysis throws, if anything. Success shows 'results'; a
      failure shows 'error' with the thrown message. */
  function FinishAnalysis(s: DashState, outcome: Result<CareerAnalysis.AnalyzeOutput>, saveError: Option<string>)
    : (r: DashState)
    ensures outcome.Ok? ==> r.analysis == Some(outcome.value)
    ensures outcome.Ok? && saveError.None? ==> r.pageState == Results && r.error == s.error
    ensures outcome.Error? ==> r.pageState == Failed && r.error == Some(outcome.message) && r.analysis == s.analysis
    ensures outcome.Ok? && saveError.Some? ==> r.pageState == Failed && r.error == saveError
  {
    match outcome
    case Ok(a) =>
      var shown := s.(analysis := Some(a), pageState := Results);
      if saveError.Some? then shown.(error := saveError, pageState := Failed) else shown
    case Error(msg) => s.(error := Some(msg), pageState := Failed)
  }

  /** The auto-open effect: a report present on the results page opens the dialog. */
  function AutoOpenReport(s: DashState): (r: DashState)
    ensures r.reportOpen <==> s.reportOpen || (s.finalReport.Some? && s.pageState == Results)
    ensures r.(reportOpen := s.reportOpen) == s
  {
    if s.finalReport.Some? && s.pageState == Results then s.(reportOpen := true) else s
  }

  /** Loading a fresh page, the report dialog opens by itself exactly when a
      stored analysis exists and a usable report was loaded. */
  lemma {:induction false} LoadOpensReport(doc: Option<UserDoc>, latest: Option<LatestReportDoc>)
    ensures AutoOpenReport(CheckResults(InitialState, doc, latest).state).reportOpen
        <==> doc.Some? && doc.value.careerAnalysis.Some? && LoadedReport(latest, doc.value.report).Some?
  {
    var r := CheckResults(InitialState, doc, latest);
    if doc.Some? {
      assert r.state.finalReport.Some? <==> LoadedReport(latest, doc.value.report).Some?;
    }
  }

  /** A student with stored quiz results but no analysis: once the analysis
      succeeds and is saved, the results page shows it with the stored answers,
      and the report dialog opens exactly when a usable report was loaded. */
  lemma {:induction false} LoadThenAnalyze(doc: UserDoc, latest: Option<LatestReportDoc>,
                                           a: CareerAnalysis.AnalyzeOutput)
    requires doc.careerAnalysis.None? && doc.aptitudeResults.Some?
    ensures var t := FinishAnalysis(CheckResults(InitialState, Some(doc), latest).state, Ok(a), None);
      && t.pageState == Results && t.analysis == Some(a) && t.error.None?
      && t.quizResults == Some(NormaliseResults(doc.aptitudeResults.value))
      && (AutoOpenReport(t).reportOpen <==> LoadedReport(latest, doc.report).Some?)
  {
    var r := CheckResults(InitialState, Some(doc), latest);
    assert r.state.finalReport.Some? <==> LoadedReport(latest, doc.report).Some?;
    assert r.state.error.None?;
  }

  /** A returning student whose analysis and quiz results are stored can run
      the simulation for any stream they select. */
  lemma {:induction false} ReturningStudentCanSimulate(doc: UserDoc, latest: Option<LatestReportDoc>, stream: string)
    requires doc.careerAnalysis.Some? && doc.aptitudeResults.Some? && stream != ""
    ensures var t := SelectStream(CheckResults(InitialState, Some(doc), latest).state, stream);
      SimulateRequest(t) == Some(StreamSimulation.SimulateInput(stream, NormaliseResults(doc.aptitudeResults.value).answers))
  {
    var r := CheckResults(InitialState, Some(doc), latest);
    assert r.state.quizResults == Some(NormaliseResults(doc.aptitudeResults.value));
  }
}
