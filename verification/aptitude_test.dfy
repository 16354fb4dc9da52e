/** The aptitude test page: eight multiple-choice questions answered in turn
    through the shared sequential flow. On completion the answers are stored
    twice: as an array in local storage and as an id-to-answer object in the
    user's database document. The question texts are also seeded into the
    `questions` collection, where the dashboard looks them up. */
module AptitudeTest {
  import opened Wrappers
  import Seqs
  import JsObject
  import SequentialTest
  import Dashboard

  datatype Question = Question(id: string, text: string, options: seq<string>)

  const Q1: string := "'Ocean' is to 'Water' as 'Desert' is to...?"
  const Q2: string := "If a notebook and a pencil cost $1.10 in total, and the notebook costs $1.00 more than the pencil, how much does the pencil cost?"
  const Q3: string := "You have a square piece of paper. You fold it in half once, then in half again to make a smaller square. If you cut off one corner of the folded square and then unfold it, how many holes will be in the paper?"
  const Q4: string := "If today is Monday, what day will it be in 63 days?"
  const Q5: string := "Which number comes next? 1, 2, 4, 7, 11, ..."
  const Q6: string := "If Gear A is turning clockwise and is touching Gear B, which way is Gear B turning?"
  const Q7: string := "Which word is the most 'different' from the others?"
  const Q8: string := "A farmer has 17 sheep. All but 9 run away. How many sheep are left?"

  const Questions: seq<Question> := [
    Question("q1", Q1, ["Cactus", "Sand", "Heat", "Camel"]),
    Question("q2", Q2, ["$0.10", "$0.05", "$0.01", "$0.15"]),
    Question("q3", Q3, ["1", "2", "4", "8"]),
    Question("q4", Q4, ["Monday", "Tuesday", "Sunday", "Wednesday"]),
    Question("q5", Q5, ["14", "15", "16", "17"]),
    Question("q6", Q6, ["Clockwise", "Counter-clockwise", "It won't move"]),
    Question("q7", Q7, ["Happy", "Excited", "Cheerful", "Calm"]),
    Question("q8", Q8, ["8", "9", "17", "0"])
  ]

  /** The question ids in order: `q1` to `q8`, the same ids the dashboard
      derives from answer positions. */
  function Ids(): (r: seq<string>)
    ensures |r| == |Questions| == 8
    ensures forall i :: 0 <= i < |r| ==> r[i] == Questions[i].id
    ensures Seqs.NoDup(r)
  {
    seq(|Questions|, i requires 0 <= i < |Questions| => Questions[i].id)
  }

  /** The i-th id is the `q{i+1}` the dashboard looks up for the i-th answer. */
  lemma IdsAreDashboardIds()
    ensures forall i :: 0 <= i < |Questions| ==> Questions[i].id == Dashboard.QuestionId(i)
  {
  }

  /** The question texts of the `questions` collection after writing `qs` in
      order, one document per id: every id is present, and holds the text of
      the last question written under it. */
  function WrittenTexts(qs: seq<Question>): (r: map<string, string>)
    ensures forall i :: 0 <= i < |qs| ==> qs[i].id in r
    ensures forall i :: 0 <= i < |qs| && (forall j :: i < j < |qs| ==> qs[j].id != qs[i].id) ==>
      r[qs[i].id] == qs[i].text
  {
    if |qs| == 0 then map[]
    else
      var last := qs[|qs| - 1];
      var before := WrittenTexts(qs[..|qs| - 1]);
      var r := before[last.id := last.text];
      assert forall i :: 0 <= i < |qs| - 1 ==> qs[..|qs| - 1][i] == qs[i];
      assert forall i :: 0 <= i < |qs| - 1 && qs[i].id != last.id ==> r[qs[i].id] == before[qs[i].id];
      r
  }

  /** The `questions` collection after seeding: each id maps to its text. */
  function SeededTexts(): (r: map<string, string>)
    ensures forall i :: 0 <= i < |Questions| ==> Questions[i].id in r && r[Questions[i].id] == Questions[i].text
  {
    var ids := Ids();
    assert forall i, j :: 0 <= i < j < |Questions| ==> Questions[j].id != Questions[i].id by {
      forall i, j | 0 <= i < j < |Questions| ensures Questions[j].id != Questions[i].id {
        assert ids[i] == Questions[i].id && ids[j] == Questions[j].id;
      }
    }
    WrittenTexts(Questions)
  }

  /** The dashboard rebuilding an aptitude-test answer list against the seeded
      collection pairs every answer with the text of the question it answered. */
  lemma DashboardRecoversQuestionTexts(answers: seq<string>)
    requires |answers| == |Questions|
    ensures var pairs := Dashboard.Reconstruct(answers, SeededTexts());
      forall i :: 0 <= i < |pairs| ==> pairs[i].question == Questions[i].text && pairs[i].answer == answers[i]
  {
    var texts := SeededTexts();
    IdsAreDashboardIds();
    forall i | 0 <= i < |answers|
      ensures Dashboard.QuestionId(i) in texts && texts[Dashboard.QuestionId(i)] == Questions[i].text
    {
      assert Questions[i].id == Dashboard.QuestionId(i);
    }
  }

  /** The local-storage record `{ answers: answersArray, timeTaken }`. */
  function LocalRecord(done: SequentialTest.AnswerOutcome): (r: Dashboard.QuizResults)
    requires done.Completed?
    ensures r.answers == done.answersArray && r.timeTaken == done.timeTaken
  {
    Dashboard.QuizResults(done.answersArray, done.timeTaken)
  }

  /** The database record `aptitudeResults`: the answers object and the time. */
  function DatabaseRecord(done: SequentialTest.AnswerOutcome): (r: Dashboard.StoredResults)
    requires done.Completed?
    ensures r.answers == Dashboard.ObjectValue(done.state.answers) && r.timeTaken == Some(done.timeTaken)
  {
    Dashboard.StoredResults(Dashboard.ObjectValue(done.state.answers), Some(done.timeTaken))
  }

  /** A completed test read back by the dashboard from the database gives the
      same answers, in the same order, and the same time as the local-storage
      record. */
  lemma StoredFormsAgree(s: SequentialTest.State, option: string, now: int, startTime: Option<int>)
    requires SequentialTest.Progress(Ids(), s)
    requires s.index == |Ids()| - 1
    ensures var done := SequentialTest.HandleAnswer(Ids(), s, option, now, startTime);
      Dashboard.NormaliseResults(DatabaseRecord(done)) == LocalRecord(done)
  {
    SequentialTest.CompletedAnswersInOrder(Ids(), s, option, now, startTime);
  }

  datatype AfterSubmit = GoToDashboard | StayOnTest

  /** Where a completed test leads: without a database the dashboard is opened
      at once; with one, only after the record is saved, and a failed save
      leaves the user on the test with submitting switched off. */
  function Submitted(databaseAvailable: bool, saveFailed: bool): (r: AfterSubmit)
    ensures r == StayOnTest <==> databaseAvailable && saveFailed
  {
    if databaseAvailable && saveFailed then StayOnTest else GoToDashboard
  }
}
