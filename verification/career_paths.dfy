/** The career paths page: a grid of popular streams, and for the clicked
    stream a sheet with its roadmap steps, taken from the stored career paths
    when present and otherwise a generic five-step path. */
module CareerPaths {
  import opened Wrappers
  import Seqs
  import JsObject

  datatype Step = Step(year: string, milestone: string, details: string)

  /** The generic path shown when no non-empty roadmap is stored. */
  const DefaultSteps: seq<Step> := [
    Step("Foundation", "Class 11 & 12", "Focus on core subjects. Build strong basics."),
    Step("Entrance", "Competitive Exams", "Prepare for national/state level entrance tests."),
    Step("Undergrad", "Bachelor Degree", "3-4 years of intense academic and practical learning."),
    Step("Skill Up", "Internships & Projects", "Gain real-world experience and build a portfolio."),
    Step("Professional", "First Job / Higher Ed", "Enter the workforce or pursue Masters.")
  ]

  /** The steps the roadmap shows for `data`: the stored steps when there are
      any, else the default path; never empty. */
  function Steps(data: Option<seq<Step>>): (r: seq<Step>)
    ensures data.Some? && |data.value| > 0 ==> r == data.value
    ensures data.None? || |data.value| == 0 ==> r == DefaultSteps
    ensures |r| > 0
  {
    if data.Some? && |data.value| > 0 then data.value else DefaultSteps
  }

  datatype Icon = BookOpen | Briefcase | MilestoneIcon

  /** The icon of node `index` of `count`: the first node opens the book,
      the last one (when not also the first) is the briefcase. */
  function NodeIcon(index: nat, count: nat): Icon {
    if index == 0 then BookOpen
    else if index == count - 1 then Briefcase
    else MilestoneIcon
  }

  /** Only the last node is drawn green. */
  predicate NodeIsGreen(index: nat, count: nat) {
    index == count - 1
  }

  /** On a roadmap of `count` steps: the first node alone has the book, the
      last node alone has the briefcase unless it is also the first, the rest
      are milestones, and exactly the last node is green. */
  lemma NodeClassification(index: nat, count: nat)
    requires index < count
    ensures NodeIcon(index, count) == BookOpen <==> index == 0
    ensures NodeIcon(index, count) == Briefcase <==> index == count - 1 && index != 0
    ensures NodeIcon(index, count) == MilestoneIcon <==> 0 < index < count - 1
    ensures NodeIsGreen(index, count) <==> index == count - 1
  {
  }

  /** A single-step roadmap shows the book on a green node. */
  lemma SingleStepNode()
    ensures NodeIcon(0, 1) == BookOpen && NodeIsGreen(0, 1)
  {
  }

  /** A stored `careerPaths` document; `roadmap` may be missing. */
  datatype CareerPathDoc = CareerPathDoc(roadmap: Option<seq<Step>>)

  /** `getRoadmapData(id)`: the stored roadmap of `id`, or nothing when the
      document or its roadmap is missing. */
  function GetRoadmapData(db: JsObject.Obj<CareerPathDoc>, id: string): (r: Option<seq<Step>>)
    ensures id !in JsObject.Keys(db) ==> r.None?
    ensures r.Some? ==> (id, CareerPathDoc(r)) in db
  {
    match JsObject.Get(db, id)
    case Some(doc) => doc.roadmap
    case None => None
  }

  /** Every stored document's roadmap is what `getRoadmapData` returns for
      its id. */
  lemma StoredRoadmapFound(db: JsObject.Obj<CareerPathDoc>, i: nat)
    requires JsObject.WellFormed(db) && i < |db|
    ensures GetRoadmapData(db, db[i].0) == db[i].1.roadmap
  {
    JsObject.GetAt(db, i);
  }

  datatype PopularStream = PopularStream(id: string, title: string, description: string, pivot: string)

  const PopularStreams: seq<PopularStream> := [
    PopularStream("science_eng", "Engineering & Tech",
      "For the innovators and problem solvers building the future.",
      "Can pivot to: MBA, Product Management, Design"),
    PopularStream("science_med", "Medical & Healthcare",
      "Dedicated to saving lives and advancing health sciences.",
      "Can pivot to: Hospital Admin, Research, Public Health"),
    PopularStream("commerce_ca", "Finance & Commerce",
      "Driving the economy through finance, trade, and business.",
      "Can pivot to: Law, Data Analysis, Entrepreneurship"),
    PopularStream("arts_law", "Law & Humanities",
      "Championing justice, policy, and social understanding.",
      "Can pivot to: Journalism, Politics, Corporate Consultant"),
    PopularStream("vocational_design", "Design & Creative",
      "Shaping the visual world through art, design, and media.",
      "Can pivot to: Marketing, UI/UX, Direction"),
    PopularStream("defense_nda", "Defense & Public Service",
      "Serving the nation with honor, discipline, and leadership.",
      "Can pivot to: Security Consulting, Admin Services"),
    PopularStream("tech_ai", "AI & Data Science",
      "Leading the AI revolution with data and algorithms.",
      "Can pivot to: Research, FinTech, Robotics"),
    PopularStream("comm_marketing", "Marketing & Media",
      "Connecting brands with people through storytelling.",
      "Can pivot to: Sales, PR, Event Management")
  ]

  /** The grid's stream ids, in order; eight of them, all different, so each
      card has its own key and its own stored roadmap. */
  function PopularIds(): (r: seq<string>)
    ensures |r| == |PopularStreams| == 8
    ensures forall i :: 0 <= i < |r| ==> r[i] == PopularStreams[i].id
    ensures Seqs.NoDup(r)
  {
    seq(|PopularStreams|, i requires 0 <= i < |PopularStreams| => PopularStreams[i].id)
  }

  datatype PageState = PageState(selected: Option<PopularStream>, sheetOpen: bool,
                                 roadmaps: JsObject.Obj<CareerPathDoc>)

  /** `handleStreamClick(stream)`: select exactly that stream and open the
      sheet; the loaded roadmaps are untouched. */
  function StreamClick(s: PageState, stream: PopularStream): (r: PageState)
    ensures r.selected == Some(stream) && r.sheetOpen
    ensures r.roadmaps == s.roadmaps
  {
    s.(selected := Some(stream), sheetOpen := true)
  }

  /** The steps the open sheet shows for the selected stream, if any. */
  function SheetSteps(s: PageState): (r: Option<seq<Step>>)
    ensures r.Some? <==> s.selected.Some?
    ensures r.Some? ==> |r.value| > 0
    ensures r.Some? && s.selected.value.id !in JsObject.Keys(s.roadmaps) ==> r.value == DefaultSteps
  {
    if s.selected.Some? then Some(Steps(GetRoadmapData(s.roadmaps, s.selected.value.id))) else None
  }

  /** Clicking a stream without a stored roadmap shows the default path. */
  lemma ClickWithoutStoredRoadmap(s: PageState, stream: PopularStream)
    requires stream.id !in JsObject.Keys(s.roadmaps)
    ensures SheetSteps(StreamClick(s, stream)) == Some(DefaultSteps)
  {
  }
}
