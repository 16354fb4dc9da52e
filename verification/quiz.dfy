/** The short interest quiz: five two-option questions answered in turn
    through the shared sequential flow; on completion only the local-storage
    record is written. */
module Quiz {
  import opened Wrappers
  import Seqs
  import JsObject
  import SequentialTest
  import Dashboard

  datatype Question = Question(id: string, text: string, options: seq<string>)

  const Questions: seq<Question> := [
    Question("q1", "Which subject do you enjoy more?",
      ["Science (Physics, Chemistry, Biology)", "Maths and Accountancy"]),
    Question("q2", "You prefer to learn by:",
      ["Reading theories and historical accounts", "Doing hands-on experiments and building things"]),
    Question("q3", "In your free time, you are more likely to:",
      ["Sketch, paint, or write stories", "Solve puzzles or play strategy games"]),
    Question("q4", "When planning a project, you focus on:",
      ["The budget and economic viability", "The creative vision and final look"]),
    Question("q5", "Your friends would describe you as more:",
      ["Analytical and logical", "Imaginative and artistic"])
  ]

  /** The question ids in order: `q1` to `q5`, each question offering two
      distinct options. */
  function Ids(): (r: seq<string>)
    ensures |r| == |Questions| == 5
    ensures forall i :: 0 <= i < |r| ==> r[i] == Questions[i].id == Dashboard.QuestionId(i)
    ensures Seqs.NoDup(r)
    ensures forall i :: 0 <= i < |Questions| ==>
      |Questions[i].options| == 2 && Questions[i].options[0] != Questions[i].options[1]
  {
    seq(|Questions|, i requires 0 <= i < |Questions| => Questions[i].id)
  }

  /** Finishing the quiz after answering in order: the stored record has one
      answer per question, in question order, the last being the option just
      chosen, and it reads back through the dashboard unchanged. */
  lemma CompletedRecord(s: SequentialTest.State, option: string, now: int, startTime: Option<int>)
    requires SequentialTest.Progress(Ids(), s)
    requires s.index == |Ids()| - 1
    ensures var done := SequentialTest.HandleAnswer(Ids(), s, option, now, startTime);
      var record := Dashboard.QuizResults(done.answersArray, done.timeTaken);
      |record.answers| == 5 && record.answers[4] == option
      && record.answers == JsObject.Values(done.state.answers)
      && Dashboard.NormaliseResults(Dashboard.StoredResults(Dashboard.ArrayValue(record.answers), Some(record.timeTaken))) == record
  {
    SequentialTest.CompletedAnswersInOrder(Ids(), s, option, now, startTime);
  }
}
