/** The one-question-at-a-time flow shared by the aptitude test and the quiz:
    each answer is recorded under the current question's id, the last answer
    finishes the test with the answers laid out in question order and the
    elapsed time in whole seconds, and Back steps to the previous question. */
module SequentialTest {
  import opened Wrappers
  import Seqs
  import JsObject
  import Navigation

  datatype State = State(index: nat, answers: JsObject.Obj<string>)

  const InitialState: State := State(0, [])

  /** `Math.round(ms / 1000)`: the whole number of seconds nearest to `ms`
      milliseconds, halves rounding up. The bounds pin the result down. */
  function RoundedSeconds(ms: int): (r: int)
    ensures r * 1000 - 500 <= ms < r * 1000 + 500
  {
    (ms + 500) / 1000
  }

  /** Any whole number of seconds within half a second of `ms` is the one
      `RoundedSeconds` returns. */
  lemma RoundedSecondsUnique(ms: int, secs: int)
    requires secs * 1000 - 500 <= ms < secs * 1000 + 500
    ensures RoundedSeconds(ms) == secs
  {
  }

  /** The time taken at `now`; without a recorded start time the start is
      taken to be `now` itself. */
  function TimeTaken(now: int, startTime: Option<int>): (r: int)
    ensures startTime.None? ==> r == 0
    ensures startTime.Some? ==> r * 1000 - 500 <= now - startTime.value < r * 1000 + 500
    ensures startTime.Some? && startTime.value <= now ==> r >= 0
  {
    RoundedSeconds(now - startTime.GetOr(now))
  }

  /** `questions.map(q => answers[q.id] || '')`: one entry per question, in
      question order, the empty string for an unanswered question. */
  function AnswersArray(ids: seq<string>, answers: JsObject.Obj<string>): (r: seq<string>)
    ensures |r| == |ids|
    ensures forall i :: 0 <= i < |ids| && ids[i] !in JsObject.Keys(answers) ==> r[i] == ""
    ensures forall i :: 0 <= i < |ids| && ids[i] in JsObject.Keys(answers) ==>
      Some(r[i]) == JsObject.Get(answers, ids[i])
  {
    seq(|ids|, i requires 0 <= i < |ids| => JsObject.Get(answers, ids[i]).GetOr(""))
  }

  datatype AnswerOutcome =
    | Advanced(state: State)
    | Completed(state: State, answersArray: seq<string>, timeTaken: int)

  /** `handleAnswer(option)` on a test whose question ids are `ids`: record the
      option under the current question; then move on, or on the last question
      finish with the answers array and the time taken. */
  function HandleAnswer(ids: seq<string>, s: State, option: string, now: int, startTime: Option<int>)
    : (r: AnswerOutcome)
    requires s.index < |ids|
    ensures JsObject.Get(r.state.answers, ids[s.index]) == Some(option)
    ensures forall k :: k != ids[s.index] ==> JsObject.Get(r.state.answers, k) == JsObject.Get(s.answers, k)
    ensures r.Advanced? <==> s.index < |ids| - 1
    ensures r.Advanced? ==> r.state.index == s.index + 1
    ensures r.Completed? ==> r.state.index == s.index
    ensures r.Completed? ==> r.answersArray == AnswersArray(ids, r.state.answers) && r.answersArray[s.index] == option
    ensures r.Completed? ==> r.timeTaken == TimeTaken(now, startTime)
  {
    var answers := JsObject.Set(s.answers, ids[s.index], option);
    JsObject.SetGetAll(s.answers, ids[s.index], option);
    match Navigation.Advance(s.index, |ids|)
    case NextQuestion(next) => Advanced(State(next, answers))
    case Finished =>
      Completed(State(s.index, answers), AnswersArray(ids, answers), TimeTaken(now, startTime))
  }

  /** `handleBack()`: the previous question, or `None` when the page is left. */
  function HandleBack(s: State): (r: Option<State>)
    ensures r.Some? <==> s.index > 0
    ensures r.Some? ==> r.value == s.(index := s.index - 1)
  {
    match Navigation.Back(s.index)
    case PreviousQuestion(prev) => Some(s.(index := prev))
    case LeavePage => None
  }

  /** What holds at every reachable point of a test with distinct question ids:
      the index is a question, answers exist for a prefix of the questions, in
      question order, and the current question is at most one past that prefix. */
  predicate Progress(ids: seq<string>, s: State) {
    Seqs.NoDup(ids)
    && s.index < |ids|
    && s.index <= |s.answers| <= |ids|
    && JsObject.Keys(s.answers) == ids[..|s.answers|]
  }

  lemma InitialProgress(ids: seq<string>)
    requires Seqs.NoDup(ids) && |ids| > 0
    ensures Progress(ids, InitialState)
  {
  }

  /** Answering keeps the answered questions a prefix in question order. */
  lemma AnswerKeys(ids: seq<string>, s: State, option: string)
    requires Progress(ids, s)
    ensures var answers := JsObject.Set(s.answers, ids[s.index], option);
      |answers| == if s.index < |s.answers| then |s.answers| else |s.answers| + 1
    ensures JsObject.Keys(JsObject.Set(s.answers, ids[s.index], option))
      == ids[..if s.index < |s.answers| then |s.answers| else |s.answers| + 1]
  {
    var keys := JsObject.Keys(s.answers);
    if s.index < |s.answers| {
      assert keys[s.index] == ids[s.index];
      assert ids[s.index] in keys;
    } else {
      assert ids[..|s.answers| + 1] == ids[..|s.answers|] + [ids[s.index]];
      assert ids[s.index] !in ids[..|s.answers|] by {
        forall j | 0 <= j < |s.answers|
          ensures ids[..|s.answers|][j] != ids[s.index]
        {
          assert ids[j] != ids[s.index];
        }
      }
    }
  }

  lemma AnswerKeepsProgress(ids: seq<string>, s: State, option: string, now: int, startTime: Option<int>)
    requires Progress(ids, s)
    ensures Progress(ids, HandleAnswer(ids, s, option, now, startTime).state)
  {
    AnswerKeys(ids, s, option);
  }

  lemma BackKeepsProgress(ids: seq<string>, s: State)
    requires Progress(ids, s) && HandleBack(s).Some?
    ensures Progress(ids, HandleBack(s).value)
  {
  }

  /** When the object's keys are the question ids in order, its values are
      the answers array. */
  lemma ValuesAreAnswersArray(ids: seq<string>, answers: JsObject.Obj<string>)
    requires Seqs.NoDup(ids) && JsObject.Keys(answers) == ids
    ensures JsObject.Values(answers) == AnswersArray(ids, answers)
  {
    forall i | 0 <= i < |ids|
      ensures JsObject.Values(answers)[i] == AnswersArray(ids, answers)[i]
    {
      JsObject.GetAt(answers, i);
    }
  }

  /** On completion every question has been answered, the stored object holds
      the answers in question order, and its values are exactly the answers
      array: the object form and the array form carry the same list. */
  lemma CompletedAnswersInOrder(ids: seq<string>, s: State, option: string, now: int,
                                startTime: Option<int>)
    requires Progress(ids, s)
    requires s.index == |ids| - 1
    ensures var r := HandleAnswer(ids, s, option, now, startTime);
      JsObject.Keys(r.state.answers) == ids && JsObject.Values(r.state.answers) == r.answersArray
  {
    var r := HandleAnswer(ids, s, option, now, startTime);
    AnswerKeys(ids, s, option);
    assert ids[..|ids|] == ids;
    ValuesAreAnswersArray(ids, r.state.answers);
  }
}
