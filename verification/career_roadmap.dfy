/** The career roadmap card: a fixed table of 1-, 5- and 10-year milestones
    per career stream, looked up by stream name with the Software Engineering
    roadmap as the fallback. */
module CareerRoadmap {
  import opened Wrappers
  import Seqs
  import JsObject
  import AptitudeAnalysis
  import CareerAnalysis

  datatype Roadmap = Roadmap(year1: seq<string>, year5: seq<string>, year10: seq<string>)

  const SoftwareEngineering: Roadmap := Roadmap(
    ["Land a Junior Developer role", "Master a core programming language (e.g., JavaScript, Python)",
     "Contribute to a production codebase"],
    ["Achieve a Senior Developer position", "Lead a small project or feature", "Mentor junior developers"],
    ["Become a Principal Engineer or Architect", "Design and own major systems", "Influence technical strategy"])

  const DataScience: Roadmap := Roadmap(
    ["Secure a Junior Data Scientist/Analyst role", "Master Python/R for data analysis",
     "Build and deploy your first predictive model"],
    ["Become a Senior Data Scientist", "Specialize in an area like NLP or Computer Vision",
     "Lead data-driven projects with business impact"],
    ["Become a Lead/Principal Data Scientist or Head of Data", "Drive AI strategy for the company",
     "Publish research or speak at conferences"])

  const UxUiDesign: Roadmap := Roadmap(
    ["Get a Junior UX/UI Designer position", "Build a strong portfolio with 3-5 projects",
     "Master design tools like Figma or Sketch"],
    ["Transition to a Senior Designer role", "Lead the design of a significant product feature",
     "Conduct and present user research findings"],
    ["Become a Design Lead, Manager, or Principal Designer", "Define the design vision for a product line",
     "Mentor and grow a design team"])

  const GraphicDesign: Roadmap := Roadmap(
    ["Work as a Junior Graphic Designer", "Develop a diverse portfolio (branding, web, print)",
     "Become proficient in Adobe Creative Suite"],
    ["Become a Senior Graphic Designer or Art Director", "Manage branding for key clients or products",
     "Win a design award or get featured"],
    ["Creative Director or Head of Design", "Lead a creative agency or in-house team",
     "Shape the visual identity of major brands"])

  const Marketing: Roadmap := Roadmap(
    ["Start as a Marketing Coordinator or Specialist", "Learn SEO, SEM, and content marketing basics",
     "Run your first successful campaign"],
    ["Become a Marketing Manager", "Develop and execute a full marketing strategy",
     "Manage a budget and a small team"],
    ["Director of Marketing, VP, or CMO", "Drive the overall growth strategy of the company",
     "Become a thought leader in the industry"])

  const FinancialAnalysis: Roadmap := Roadmap(
    ["Join as a Junior Financial Analyst", "Master Excel and financial modeling",
     "Assist in quarterly earnings reports"],
    ["Become a Senior Financial Analyst", "Manage budgeting and forecasting for a business unit",
     "Earn a certification like CFA"],
    ["Finance Manager or Director", "Provide strategic financial guidance to leadership",
     "Oversee major investment decisions"])

  const SystemsAdministration: Roadmap := Roadmap(
    ["Entry-level IT Support or SysAdmin role", "Earn certifications (e.g., CompTIA A+, Network+)",
     "Manage user accounts and maintain servers"],
    ["Become a Senior Systems or Cloud Engineer", "Automate infrastructure with scripts",
     "Manage cloud resources (AWS, Azure, GCP)"],
    ["IT Architect or Manager", "Design and implement entire IT infrastructures",
     "Ensure security and compliance across the organization"])

  /** `roadmapData`, in declaration order. */
  const Table: JsObject.Obj<Roadmap> := [
    ("Software Engineering", SoftwareEngineering),
    ("Data Science", DataScience),
    ("UX/UI Design", UxUiDesign),
    ("Graphic Design", GraphicDesign),
    ("Marketing", Marketing),
    ("Financial Analysis", FinancialAnalysis),
    ("Systems Administration", SystemsAdministration)
  ]

  /** The table's streams are exactly the catalogue `getAptitudeAnalysis`
      draws from, in the same order, each once. */
  lemma TableCoversCatalogue()
    ensures JsObject.Keys(Table) == AptitudeAnalysis.AllStreams
    ensures JsObject.WellFormed(Table)
  {
    assert JsObject.Keys(Table) == AptitudeAnalysis.AllStreams;
  }

  /** Every roadmap lists three milestones for each horizon. */
  lemma ThreeMilestonesEach()
    ensures forall i :: 0 <= i < |Table| ==>
      |Table[i].1.year1| == 3 && |Table[i].1.year5| == 3 && |Table[i].1.year10| == 3
  {
  }

  /** `roadmapData[stream] || roadmapData["Software Engineering"]`: the
      stream's own roadmap when the table has one, otherwise the Software
      Engineering roadmap. */
  function RoadmapFor(stream: string): (r: Roadmap)
    ensures stream in JsObject.Keys(Table) ==> (stream, r) in Table
    ensures stream !in JsObject.Keys(Table) ==> r == SoftwareEngineering
  {
    JsObject.Get(Table, stream).GetOr(SoftwareEngineering)
  }

  /** Every stream the mock aptitude analysis recommends has a roadmap of its
      own; none falls back. */
  lemma AnalysisStreamsHaveRoadmaps(answers: seq<string>)
    ensures forall s :: s in AptitudeAnalysis.GetAptitudeAnalysis(answers).careerStreams ==>
      s in JsObject.Keys(Table) && JsObject.Get(Table, s) == Some(RoadmapFor(s))
  {
    TableCoversCatalogue();
  }

  /** The canned analysis result recommends "Civil Engineering", which has no
      entry, so its card shows the Software Engineering roadmap. */
  lemma MockCivilEngineeringFallsBack()
    ensures "Civil Engineering" in CareerAnalysis.MockAptitudeResult().careerStreams
    ensures "Civil Engineering" !in JsObject.Keys(Table)
    ensures RoadmapFor("Civil Engineering") == SoftwareEngineering
  {
    TableCoversCatalogue();
    assert CareerAnalysis.MockStreams[2] == "Civil Engineering";
  }

  /** The horizons in the order the card shows them, with their titles. */
  function Horizons(stream: string): (r: seq<(string, seq<string>)>)
    ensures |r| == 3
    ensures r[0].0 == "Year 1" && r[1].0 == "Year 5" && r[2].0 == "Year 10"
    ensures [r[0].1, r[1].1, r[2].1] == [RoadmapFor(stream).year1, RoadmapFor(stream).year5, RoadmapFor(stream).year10]
  {
    var data := RoadmapFor(stream);
    [("Year 1", data.year1), ("Year 5", data.year5), ("Year 10", data.year10)]
  }
}
