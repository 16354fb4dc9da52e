/** Question-index stepping shared by the interest profile, the aptitude test
    and the quiz: Next/answer moves forward until the last question, Back moves
    backward until the first. */
module Navigation {

  datatype Forward = NextQuestion(index: nat) | Finished
  datatype Backward = PreviousQuestion(index: nat) | LeavePage

  /** Moving on from question `index` of `count`: the next index, or finishing
      on the last question. The index stays in range. */
  function Advance(index: nat, count: nat): (r: Forward)
    requires index < count
    ensures r.NextQuestion? <==> index < count - 1
    ensures r.NextQuestion? ==> r.index == index + 1 && r.index < count
  {
    if index < count - 1 then NextQuestion(index + 1) else Finished
  }

  /** Going back from question `index`: the previous index, or leaving the
      page (`router.back()`) on the first question. */
  function Back(index: nat): (r: Backward)
    ensures r.PreviousQuestion? <==> index > 0
    ensures r.PreviousQuestion? ==> r.index + 1 == index
  {
    if index > 0 then PreviousQuestion(index - 1) else LeavePage
  }

  /** Back undoes a forward step, and a forward step undoes Back. */
  lemma AdvanceBackRoundTrip(index: nat, count: nat)
    requires index < count
    ensures Advance(index, count).NextQuestion? ==>
      Back(Advance(index, count).index) == PreviousQuestion(index)
    ensures Back(index).PreviousQuestion? ==>
      Advance(Back(index).index, count) == NextQuestion(index)
  {
  }
}
