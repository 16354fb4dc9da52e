/** The deterministic aptitude analysis of the dashboard page: count the
    "creative" answers, pick one of three canned stream triples by a threshold
    on that count, and pad the triple with the stream catalogue before keeping
    three distinct streams. */
module AptitudeAnalysis {
  import opened Text
  import Seqs

  /** An answer counts as creative when, lower-cased, it mentions one of three keywords. */
  predicate IsCreative(answer: string) {
    var a := Lower(answer);
    Contains(a, "creative") || Contains(a, "ideas") || Contains(a, "designing")
  }

  /** The number of creative answers. It is 0 exactly when no answer is
      creative and the number of answers exactly when every answer is. */
  function CreativityScore(answers: seq<string>): (r: nat)
    ensures r <= |answers|
    ensures r == 0 <==> forall i :: 0 <= i < |answers| ==> !IsCreative(answers[i])
    ensures r == |answers| <==> forall i :: 0 <= i < |answers| ==> IsCreative(answers[i])
  {
    if |answers| == 0 then 0
    else
      var rest := CreativityScore(answers[1..]);
      assert forall i :: 1 <= i < |answers| ==> answers[i] == answers[1..][i - 1];
      (if IsCreative(answers[0]) then 1 else 0) + rest
  }

  /** The score of a concatenation is the sum of the scores of its parts. */
  lemma {:induction false} CreativityScoreAppend(a: seq<string>, b: seq<string>)
    ensures CreativityScore(a + b) == CreativityScore(a) + CreativityScore(b)
  {
    if |a| == 0 {
      assert a + b == b;
    } else {
      assert (a + b)[1..] == a[1..] + b;
      CreativityScoreAppend(a[1..], b);
    }
  }

  /** The stream catalogue the chosen triple is padded with. */
  const AllStreams: seq<string> := ["Software Engineering", "Data Science", "UX/UI Design",
    "Graphic Design", "Marketing", "Financial Analysis", "Systems Administration"]

  const BalancedStreams: seq<string> := ["Software Engineering", "Data Science", "UX/UI Design"]
  const CreativeStreams: seq<string> := ["UX/UI Design", "Graphic Design", "Marketing"]
  const LogicalStreams: seq<string> :=
    ["Software Engineering", "Financial Analysis", "Systems Administration"]

  const BalancedText: string := "You seem to have a balanced blend of logical and creative thinking. This versatility opens up several exciting career paths. Here are a few streams where you could thrive:"
  const CreativeText: string := "Your creative spark is strong! You're drawn to innovation and design. Consider roles where you can build, innovate, and bring new ideas to life."
  const LogicalText: string := "Your logical and structured approach is a powerful asset. You'll excel in roles that involve deep problem-solving, data analysis, and building robust systems."

  datatype Analysis = Analysis(recommendation: string, careerStreams: seq<string>)

  /** The canned triple and text for a score, before padding. */
  function Choice(score: nat): (r: Analysis)
    ensures |r.careerStreams| == 3 && Seqs.NoDup(r.careerStreams)
    ensures forall s :: s in r.careerStreams ==> s in AllStreams
  {
    if score >= 3 then Analysis(CreativeText, CreativeStreams)
    else if score <= 1 then Analysis(LogicalText, LogicalStreams)
    else Analysis(BalancedText, BalancedStreams)
  }

  /** `getAptitudeAnalysis(answers)`. Padding with the catalogue and
      deduplicating never changes the chosen triple, because the triple is
      already distinct and comes first. */
  function GetAptitudeAnalysis(answers: seq<string>): (r: Analysis)
    ensures |r.careerStreams| == 3
    ensures Seqs.NoDup(r.careerStreams)
    ensures forall s :: s in r.careerStreams ==> s in AllStreams
    ensures CreativityScore(answers) >= 3 ==> r == Analysis(CreativeText, CreativeStreams)
    ensures CreativityScore(answers) <= 1 ==> r == Analysis(LogicalText, LogicalStreams)
    ensures CreativityScore(answers) == 2 ==> r == Analysis(BalancedText, BalancedStreams)
  {
    var chosen := Choice(CreativityScore(answers));
    var finalStreams := Seqs.Dedup(chosen.careerStreams + AllStreams);
    Seqs.DedupKeepsDistinctPrefix(chosen.careerStreams, AllStreams);
    Analysis(chosen.recommendation, Seqs.Take(finalStreams, 3))
  }

  /** Answers are read as a multiset of texts: reordering two blocks of answers
      changes nothing. */
  lemma AnalysisIgnoresOrder(a: seq<string>, b: seq<string>)
    ensures GetAptitudeAnalysis(a + b) == GetAptitudeAnalysis(b + a)
  {
    CreativityScoreAppend(a, b);
    CreativityScoreAppend(b, a);
  }
}
