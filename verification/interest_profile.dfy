/** The interest-profile questionnaire: five questions, single- or
    multiple-choice, with an optional cap on the number of selections; the
    current selection is saved on Next and restored whenever the question or
    the saved answers change. */
module InterestProfile {
  import opened Wrappers
  import Seqs
  import JsObject
  import Navigation

  datatype QuestionType = Single | Multiple

  /** A question; `maxSelections` only matters for multiple choice. */
  datatype Question = Question(id: string, kind: QuestionType, options: seq<string>, maxSelections: Option<int>)

  const Questions: seq<Question> := [
    Question("interests", Multiple, [
      "Exploring how things work (science, tech, experiments)",
      "Solving problems, puzzles, or working with numbers",
      "Creating (drawing, writing, editing, designing)",
      "Helping, teaching, or working with people",
      "Thinking about business, money, or leadership ideas"], Some(2)),
    Question("subjects", Multiple, [
      "Mathematics", "Science", "Social Studies / Humanities",
      "Languages (English, regional languages)", "Computer / Practical subjects"], None),
    Question("style", Single, [
      "Logical, step-by-step thinking", "Creative or trial-and-error ideas", "Discussing with others",
      "Looking at real-life examples", "I need guidance first"], None),
    Question("motivation", Single, [
      "High income & stability", "Creativity & self-expression", "Solving challenging problems",
      "Helping society or people", "Leadership & decision-making"], None),
    Question("stream", Single, [
      "Science", "Commerce", "Arts / Humanities", "Skill-based / Vocational", "Not sure"], None)
  ]

  /** The question ids, in order; they are pairwise distinct. */
  function QuestionIds(): (r: seq<string>)
    ensures |r| == |Questions| == 5
    ensures forall i :: 0 <= i < |Questions| ==> r[i] == Questions[i].id
    ensures Seqs.NoDup(r)
  {
    ["interests", "subjects", "style", "motivation", "stream"]
  }

  /** A saved answer: the list for multiple choice, the first selection for
      single choice, or `undefined` when a single-choice question was saved
      with nothing selected. */
  datatype Answer = OneAnswer(option: string) | ManyAnswers(options: seq<string>) | NoAnswer

  datatype State = State(index: nat, answers: JsObject.Obj<Answer>, selections: seq<string>, submitting: bool)

  const InitialState: State := State(0, [], [], false)

  /** A cap is active when `maxSelections` is present and truthy (not 0). */
  predicate CapActive(q: Question) {
    q.maxSelections.Some? && q.maxSelections.value != 0
  }

  /** Adding a new option is refused once the cap is reached. */
  predicate CapReached(q: Question, sel: seq<string>) {
    CapActive(q) && |sel| >= q.maxSelections.value
  }

  /** The selection sizes a question allows. */
  predicate WithinLimit(q: Question, sel: seq<string>) {
    if q.kind == Single then |sel| <= 1
    else CapActive(q) ==> |sel| <= q.maxSelections.value
  }

  /** `handleOptionClick(option)` on the selection list. Single choice replaces
      the selection; multiple choice removes a selected option, keeping the
      others in order (see `Seqs.RemoveDistributes`), and appends an unselected
      one at the end unless the cap is reached. No duplicates and the size
      limit are preserved, and nothing but `option` enters the selection. */
  function ClickOption(q: Question, sel: seq<string>, option: string): (r: seq<string>)
    ensures q.kind == Single ==> r == [option]
    ensures q.kind == Multiple && option in sel ==> r == Seqs.Remove(sel, option)
    ensures q.kind == Multiple && option in sel ==>
      option !in r && forall o :: o != option ==> (o in r <==> o in sel)
    ensures q.kind == Multiple && option !in sel && CapReached(q, sel) ==> r == sel
    ensures q.kind == Multiple && option !in sel && !CapReached(q, sel) ==> r == sel + [option]
    ensures Seqs.NoDup(sel) ==> Seqs.NoDup(r)
    ensures WithinLimit(q, sel) ==> WithinLimit(q, r)
    ensures forall o :: o in r ==> o in sel || o == option
  {
    if q.kind == Single then [option]
    else if option in sel then Seqs.Remove(sel, option)
    else if CapReached(q, sel) then sel
    else sel + [option]
  }

  /** Clicking an unselected option twice below the cap restores the selection. */
  lemma ClickTwiceRestores(q: Question, sel: seq<string>, option: string)
    requires q.kind == Multiple && option !in sel && !CapReached(q, sel)
    ensures ClickOption(q, ClickOption(q, sel, option), option) == sel
  {
    Seqs.RemoveAppended(sel, option);
  }

  /** The selection a saved answer restores: a list as-is, a non-empty string
      as a singleton, anything falsy as nothing. */
  function Selection(a: Answer): (r: seq<string>)
    ensures |r| <= 1 || a.ManyAnswers?
  {
    match a
    case ManyAnswers(l) => l
    case OneAnswer(o) => if o != "" then [o] else []
    case NoAnswer => []
  }

  /** The selection-restore effect for question `id`. */
  function Restore(answers: JsObject.Obj<Answer>, id: string): (r: seq<string>)
    ensures JsObject.Get(answers, id).None? ==> r == []
    ensures JsObject.Get(answers, id).Some? ==> r == Selection(JsObject.Get(answers, id).value)
  {
    match JsObject.Get(answers, id)
    case Some(a) => Selection(a)
    case None => []
  }

  /** What Next saves for question `q`. */
  function SavedValue(q: Question, sel: seq<string>): (r: Answer)
    ensures q.kind == Multiple ==> r == ManyAnswers(sel)
    ensures q.kind == Single && |sel| > 0 ==> r == OneAnswer(sel[0])
    ensures q.kind == Single && |sel| == 0 ==> r == NoAnswer
  {
    if q.kind == Multiple then ManyAnswers(sel)
    else if |sel| > 0 then OneAnswer(sel[0]) else NoAnswer
  }

  /** Saving and restoring a selection is the identity for every selection
      the question allows, except a single empty-string option. */
  lemma SaveRestoreRoundTrip(q: Question, sel: seq<string>)
    requires WithinLimit(q, sel)
    requires q.kind == Single ==> sel != [""]
    ensures Selection(SavedValue(q, sel)) == sel
  {
  }

  datatype NextOutcome = Moved(state: State) | Submitted(state: State, interestProfile: JsObject.Obj<Answer>)

  /** `handleNext()`: save the selection under the current question's id only,
      then move to the next question (leaving `isSubmitting` as it was), or
      submit the answers on the last one. The selection is then restored from
      the saved answers. */
  function HandleNext(s: State): (r: NextOutcome)
    requires s.index < |Questions|
    ensures JsObject.Get(r.state.answers, Questions[s.index].id)
         == Some(SavedValue(Questions[s.index], s.selections))
    ensures forall k :: k != Questions[s.index].id ==>
      JsObject.Get(r.state.answers, k) == JsObject.Get(s.answers, k)
    ensures r.Moved? <==> s.index < |Questions| - 1
    ensures r.Moved? ==> r.state.index == s.index + 1 && r.state.submitting == s.submitting
    ensures r.Submitted? ==>
      r.state.index == s.index && r.state.submitting && r.interestProfile == r.state.answers
    ensures r.state.selections == Restore(r.state.answers, Questions[r.state.index].id)
  {
    var q := Questions[s.index];
    var answers := JsObject.Set(s.answers, q.id, SavedValue(q, s.selections));
    JsObject.SetGetAll(s.answers, q.id, SavedValue(q, s.selections));
    match Navigation.Advance(s.index, |Questions|)
    case NextQuestion(j) => Moved(State(j, answers, Restore(answers, Questions[j].id), s.submitting))
    case Finished =>
      var done := State(s.index, answers, Restore(answers, q.id), true);
      Submitted(done, answers)
  }

  /** The Next button is enabled only with something selected and no save in
      progress. */
  predicate NextEnabled(s: State) {
    |s.selections| > 0 && !s.submitting
  }

  /** A Next taken through the enabled button saves a real answer (never
      `undefined` for single choice, never an empty list for multiple choice),
      keeps `isSubmitting` false when it moves on, and once it submits the
      button is disabled, so the answers cannot be submitted twice. */
  lemma EnabledNextSavesAnswer(s: State)
    requires s.index < |Questions| && NextEnabled(s)
    ensures JsObject.Get(HandleNext(s).state.answers, Questions[s.index].id).Some?
    ensures JsObject.Get(HandleNext(s).state.answers, Questions[s.index].id).value !in {NoAnswer, ManyAnswers([])}
    ensures HandleNext(s).Moved? ==> !HandleNext(s).state.submitting
    ensures HandleNext(s).Submitted? ==> !NextEnabled(HandleNext(s).state)
  {
  }

  /** `handleBack()`: the previous question with its saved selection restored,
      or `None` when the page is left. */
  function HandleBack(s: State): (r: Option<State>)
    requires s.index < |Questions|
    ensures r.Some? <==> s.index > 0
    ensures r.Some? ==> r.value.index + 1 == s.index && r.value.answers == s.answers
    ensures r.Some? ==> r.value.selections == Restore(s.answers, Questions[r.value.index].id)
    ensures r.Some? ==> r.value.submitting == s.submitting
  {
    match Navigation.Back(s.index)
    case PreviousQuestion(j) => Some(s.(index := j, selections := Restore(s.answers, Questions[j].id)))
    case LeavePage => None
  }

  /** The option click on the current question. */
  function Click(s: State, option: string): State
    requires s.index < |Questions|
  {
    s.(selections := ClickOption(Questions[s.index], s.selections, option))
  }

  /** A saved answer restores a selection the question allows, without duplicates. */
  predicate Fits(q: Question, a: Option<Answer>) {
    a.Some? ==> Seqs.NoDup(Selection(a.value)) && WithinLimit(q, Selection(a.value))
  }

  /** The invariant of the page: the index is in range, the selection has no
      duplicates and respects the current question's limit, and every saved
      answer restores such a selection for its question. */
  predicate Valid(s: State) {
    && s.index < |Questions|
    && Seqs.NoDup(s.selections)
    && WithinLimit(Questions[s.index], s.selections)
    && forall j :: 0 <= j < |Questions| ==> Fits(Questions[j], JsObject.Get(s.answers, Questions[j].id))
  }

  lemma InitialStateValid()
    ensures Valid(InitialState)
  {
  }

  /** Clicks keep the invariant. */
  lemma ClickPreservesValid(s: State, option: string)
    requires Valid(s)
    ensures Valid(Click(s, option))
  {
  }

  lemma RestoreFits(answers: JsObject.Obj<Answer>, j: nat)
    requires j < |Questions|
    requires forall i :: 0 <= i < |Questions| ==> Fits(Questions[i], JsObject.Get(answers, Questions[i].id))
    ensures Seqs.NoDup(Restore(answers, Questions[j].id))
    ensures WithinLimit(Questions[j], Restore(answers, Questions[j].id))
  {
    assert Fits(Questions[j], JsObject.Get(answers, Questions[j].id));
  }

  /** Next keeps the invariant, whether it moves on or submits. */
  lemma {:induction false} NextPreservesValid(s: State)
    requires Valid(s)
    ensures Valid(HandleNext(s).state)
  {
    var q := Questions[s.index];
    var r := HandleNext(s).state;
    var ids := QuestionIds();
    forall j | 0 <= j < |Questions|
      ensures Fits(Questions[j], JsObject.Get(r.answers, Questions[j].id))
    {
      if j == s.index {
        assert JsObject.Get(r.answers, q.id) == Some(SavedValue(q, s.selections));
      } else {
        assert ids[j] != ids[s.index];
        assert JsObject.Get(s.answers, Questions[j].id) == JsObject.Get(r.answers, Questions[j].id);
      }
    }
    RestoreFits(r.answers, r.index);
  }

  /** Back keeps the invariant. */
  lemma {:induction false} BackPreservesValid(s: State)
    requires Valid(s) && s.index > 0
    ensures Valid(HandleBack(s).value)
  {
    RestoreFits(s.answers, s.index - 1);
  }

  /** Next then Back returns to the same question showing the same selection. */
  lemma {:induction false} NextThenBackRestores(s: State)
    requires Valid(s) && s.index < |Questions| - 1
    requires Questions[s.index].kind == Single ==> s.selections != [""]
    ensures HandleBack(HandleNext(s).state) == Some(s.(answers := HandleNext(s).state.answers))
  {
    var q := Questions[s.index];
    var t := HandleNext(s).state;
    assert t.index == s.index + 1 && t.submitting == s.submitting;
    SaveRestoreRoundTrip(q, s.selections);
    assert Restore(t.answers, q.id) == s.selections;
    var back := HandleBack(t).value;
    assert back.index == s.index && back.answers == t.answers;
    assert back.selections == s.selections && back.submitting == s.submitting;
  }
}
