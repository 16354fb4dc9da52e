/** The two-step profile form: step 1 asks for name, age and gender, step 2
    toggles interests and submits. */
module ProfileSetup {
  import opened Text
  import Seqs

  datatype Form = Form(name: string, age: string, gender: string, interests: seq<string>)

  datatype Step = Step1 | Step2

  datatype State = State(step: Step, form: Form)

  const InitialState: State := State(Step1, Form("", "", "", []))

  /** The two text inputs; their `name` attributes pick the field. */
  datatype InputField = NameInput | AgeInput

  /** `handleInputChange`: only the named field changes. */
  function InputChange(f: Form, field: InputField, value: string): (r: Form)
    ensures field == NameInput ==> r.name == value && r.age == f.age
    ensures field == AgeInput ==> r.age == value && r.name == f.name
    ensures r.gender == f.gender && r.interests == f.interests
  {
    match field
    case NameInput => f.(name := value)
    case AgeInput => f.(age := value)
  }

  /** `handleSelectChange`: only the gender changes. */
  function SelectChange(f: Form, value: string): (r: Form)
    ensures r.gender == value
    ensures r.name == f.name && r.age == f.age && r.interests == f.interests
  {
    f.(gender := value)
  }

  /** `toggleInterest(id)`: remove `id` if selected, append it at the end
      otherwise. The membership of `id` flips, no other interest is affected,
      the others keep their order (see `Seqs.RemoveDistributes`), no duplicate
      appears, and name, age and gender are untouched. */
  function ToggleInterest(f: Form, id: string): (r: Form)
    ensures id !in f.interests ==> r.interests == f.interests + [id]
    ensures id in f.interests ==> r.interests == Seqs.Remove(f.interests, id)
    ensures id in r.interests <==> id !in f.interests
    ensures forall x :: x != id ==> (x in r.interests <==> x in f.interests)
    ensures Seqs.NoDup(f.interests) ==> Seqs.NoDup(r.interests)
    ensures r.name == f.name && r.age == f.age && r.gender == f.gender
  {
    var interests := if id in f.interests then Seqs.Remove(f.interests, id) else f.interests + [id];
    f.(interests := interests)
  }

  /** Toggling the same interest twice restores the form when the interest was
      not selected. */
  lemma ToggleTwiceRestores(f: Form, id: string)
    requires id !in f.interests
    ensures ToggleInterest(ToggleInterest(f, id), id) == f
  {
    Seqs.RemoveAppended(f.interests, id);
  }

  /** Toggling twice always restores the set of interests; a selected interest
      that was not last moves to the end. */
  lemma ToggleTwiceSameInterests(f: Form, id: string)
    ensures forall x :: x in ToggleInterest(ToggleInterest(f, id), id).interests <==> x in f.interests
  {
  }

  /** `isStep1Valid`: a name that is not blank after trimming, an age and a gender. */
  predicate IsStep1Valid(f: Form) {
    Trim(f.name) != "" && f.age != "" && f.gender != ""
  }

  /** `isStep1Valid` rejects exactly blank names, besides empty age or gender. */
  lemma Step1ValidMeansNonBlankName(f: Form)
    ensures IsStep1Valid(f) <==> !AllWhitespace(f.name) && f.age != "" && f.gender != ""
  {
    TrimEmptyIffBlank(f.name);
  }

  datatype ContinueOutcome = Stay(state: State) | Submit(profile: Form)

  /** `handleContinue()`: on step 1 move to step 2 when name, age and gender
      are non-empty (the name is not trimmed here); on step 2 submit the form. */
  function HandleContinue(s: State): (r: ContinueOutcome)
    ensures s.step == Step1 ==> r.Stay? && r.state.form == s.form
    ensures s.step == Step1 ==>
      (r.state.step == Step2 <==> s.form.name != "" && s.form.age != "" && s.form.gender != "")
    ensures s.step == Step2 ==> r == Submit(s.form)
  {
    if s.step == Step1 then
      if s.form.name != "" && s.form.age != "" && s.form.gender != "" then Stay(s.(step := Step2))
      else Stay(s)
    else Submit(s.form)
  }

  /** The Continue button: disabled on step 1 unless `isStep1Valid`. */
  function ContinueButton(s: State): (r: ContinueOutcome)
    ensures s.step == Step1 ==> r.Stay? && (r.state.step == Step2 <==> IsStep1Valid(s.form))
    ensures s.step == Step2 ==> r == Submit(s.form)
  {
    if s.step == Step1 && !IsStep1Valid(s.form) then Stay(s)
    else HandleContinue(s)
  }

  /** A whitespace-only name gets past `handleContinue` but not past the
      button, so it cannot advance through the page. */
  lemma BlankNameBlockedOnlyByButton(age: string, gender: string)
    requires age != "" && gender != ""
    ensures HandleContinue(State(Step1, Form(" ", age, gender, []))).state.step == Step2
    ensures ContinueButton(State(Step1, Form(" ", age, gender, []))).state.step == Step1
  {
    TrimEmptyIffBlank(" ");
  }

  /** The Back button on step 2. */
  function Back(s: State): (r: State)
    requires s.step == Step2
    ensures r.step == Step1 && r.form == s.form
  {
    s.(step := Step1)
  }

  /** Back undoes a successful Continue. */
  lemma ContinueThenBack(s: State)
    requires s.step == Step1 && IsStep1Valid(s.form)
    ensures Back(ContinueButton(s).state) == s
  {
  }
}
