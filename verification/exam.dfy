/** The husband exam: three questions, each answer adding its option's score;
    after the last one the result is shown with a rank and a pass mark. */
module Exam {

  datatype AnswerOption = AnswerOption(id: char, score: int)

  /** A question of the bank; the question and option texts are left out. */
  datatype Question = Question(id: nat, options: seq<AnswerOption>)

  const QUESTIONS: seq<Question> := [
    Question(1, [AnswerOption('A', 10), AnswerOption('B', 0), AnswerOption('C', 100), AnswerOption('D', -50)]),
    Question(2, [AnswerOption('A', 20), AnswerOption('B', 100), AnswerOption('C', -100), AnswerOption('D', 10)]),
    Question(3, [AnswerOption('A', 0), AnswerOption('B', -200), AnswerOption('C', 100), AnswerOption('D', 30)])
  ]

  /** The score needed to pass. */
  const PASS_MARK: int := 200

  // ------------------------------------------------------------ ranking

  datatype Rank = Master | Survivor | Patient | Doomed {
    /** Higher is better. */
    function Tier(): nat {
      match this
      case Master => 3
      case Survivor => 2
      case Patient => 1
      case Doomed => 0
    }

    function Title(): string {
      match this
      case Master => "👑 생존 고수 (만렙)"
      case Survivor => "🛡️ 중급 생존자"
      case Patient => "🚑 응급 환자"
      case Doomed => "☠️ 사망 확정"
    }
  }

  /** `getRank(finalScore)`: a ladder of thresholds at 300, 200 and 100. */
  function GetRank(finalScore: int): (r: Rank)
    ensures r.Tier() >= 1 <==> finalScore >= 100
    ensures r.Tier() >= 2 <==> finalScore >= 200
    ensures r.Tier() == 3 <==> finalScore >= 300
  {
    if finalScore >= 300 then Master
    else if finalScore >= 200 then Survivor
    else if finalScore >= 100 then Patient
    else Doomed
  }

  /** `isPassed`: the pass mark is the threshold of the second rank. */
  predicate IsPassed(score: int)
    ensures IsPassed(score) <==> GetRank(score).Tier() >= 2
  {
    score >= PASS_MARK
  }

  /** A higher score never earns a lower rank. */
  lemma RankMonotone(s: int, t: int)
    requires s <= t
    ensures GetRank(s).Tier() <= GetRank(t).Tier()
  {
  }

  /** Passing is exactly reaching one of the two top ranks. */
  lemma PassedIffTopRank(score: int)
    ensures IsPassed(score) <==> GetRank(score).Tier() >= 2
  {
  }

  // ------------------------------------------------------ whole exams

  /** `choices[i]` is an option index of question `i`. */
  predicate ValidChoices(choices: seq<nat>) {
    |choices| <= |QUESTIONS| && forall i :: 0 <= i < |choices| ==> choices[i] < |QUESTIONS[i].options|
  }

  /** The sum of the chosen options' scores. */
  function TotalScore(choices: seq<nat>): int
    requires ValidChoices(choices)
  {
    if choices == [] then 0
    else
      var n := |choices| - 1;
      TotalScore(choices[..n]) + QUESTIONS[n].options[choices[n]].score
  }

  /** The lowest score each question offers. */
  const LOWEST: seq<int> := [-50, -100, -200]

  lemma OptionScoreRange(i: nat, k: nat)
    requires i < |QUESTIONS| && k < |QUESTIONS[i].options|
    ensures LOWEST[i] <= QUESTIONS[i].options[k].score <= 100
  {
  }

  function SumLowest(n: nat): int
    requires n <= |LOWEST|
  {
    if n == 0 then 0 else SumLowest(n - 1) + LOWEST[n - 1]
  }

  /** Every option earns at most 100 and at least the question's lowest, so
      a prefix of answers stays between those sums. */
  lemma {:induction false} TotalScoreRange(choices: seq<nat>)
    requires ValidChoices(choices)
    ensures SumLowest(|choices|) <= TotalScore(choices) <= 100 * |choices|
    ensures TotalScore(choices) == 100 * |choices| <==>
      forall i :: 0 <= i < |choices| ==> QUESTIONS[i].options[choices[i]].score == 100
  {
    if choices != [] {
      var n := |choices| - 1;
      var front := choices[..n];
      assert ValidChoices(front);
      TotalScoreRange(front);
      OptionScoreRange(n, choices[n]);
      assert forall i :: 0 <= i < n ==> front[i] == choices[i];
    }
  }

  /** With the three fixed questions the final score lies between -350 and
      300, and 300 is reached only by taking the 100-point option every time. */
  lemma FinalScoreRange(choices: seq<nat>)
    requires |choices| == |QUESTIONS| && ValidChoices(choices)
    ensures -350 <= TotalScore(choices) <= 300
    ensures TotalScore(choices) == 300 <==>
      forall i :: 0 <= i < |choices| ==> QUESTIONS[i].options[choices[i]].score == 100
  {
    TotalScoreRange(choices);
  }

  // ---------------------------------------------------------- the page

  /** The page's state: `currentStep`, `score` and `showResult`. */
  class HusbandExam {
    var currentStep: nat
    var score: int
    var showResult: bool

    ghost predicate Valid()
      reads this
    {
      currentStep < |QUESTIONS|
    }

    constructor ()
      ensures Valid()
      ensures currentStep == 0 && score == 0 && !showResult
    {
      currentStep := 0;
      score := 0;
      showResult := false;
    }

    /** `handleAnswer(optionScore)`. */
    method HandleAnswer(optionScore: int)
      requires Valid()
      modifies this
      ensures Valid()
      ensures score == old(score) + optionScore
      ensures old(currentStep) < |QUESTIONS| - 1 ==>
        currentStep == old(currentStep) + 1 && showResult == old(showResult)
      ensures old(currentStep) == |QUESTIONS| - 1 ==>
        currentStep == old(currentStep) && showResult
    {
      var nextScore := score + optionScore;
      score := nextScore;
      if currentStep < |QUESTIONS| - 1 {
        currentStep := currentStep + 1;
      } else {
        showResult := true;
      }
    }

    /** A click on option `k` of the question on screen. */
    method Choose(k: nat)
      requires Valid() && k < |QUESTIONS[currentStep].options|
      modifies this
      ensures Valid()
      ensures score == old(score) + QUESTIONS[old(currentStep)].options[k].score
      ensures old(currentStep) < |QUESTIONS| - 1 ==>
        currentStep == old(currentStep) + 1 && showResult == old(showResult)
      ensures old(currentStep) == |QUESTIONS| - 1 ==>
        currentStep == old(currentStep) && showResult
    {
      HandleAnswer(QUESTIONS[currentStep].options[k].score);
    }

    /** `rank`, shown with the result: one of the two top ranks exactly when
        the current score passes. */
    function CurrentRank(): (r: Rank)
      reads this
      ensures r.Tier() >= 2 <==> IsPassed(score)
      ensures r.Tier() == 3 <==> score >= 300
    {
      GetRank(score)
    }
  }

  /** Taking the exam from the start with the three given answers: the result
      is shown with the sum of their scores, and it passes iff that reaches
      200. */
  method SitExam(c0: nat, c1: nat, c2: nat) returns (finalScore: int, shown: bool, passed: bool)
    requires ValidChoices([c0, c1, c2])
    ensures finalScore == TotalScore([c0, c1, c2]) && -350 <= finalScore <= 300
    ensures shown
    ensures passed <==> GetRank(finalScore).Tier() >= 2
  {
    var exam := new HusbandExam();
    exam.Choose(c0);
    exam.Choose(c1);
    exam.Choose(c2);
    finalScore, shown, passed := exam.score, exam.showResult, IsPassed(exam.score);
    assert [c0, c1, c2][..2] == [c0, c1] && [c0, c1][..1] == [c0] && [c0][..0] == [];
    assert ValidChoices([c0, c1]) && ValidChoices([c0]);
    assert TotalScore([c0]) == QUESTIONS[0].options[c0].score;
    assert TotalScore([c0, c1]) == TotalScore([c0]) + QUESTIONS[1].options[c1].score;
    FinalScoreRange([c0, c1, c2]);
    PassedIffTopRank(finalScore);
  }
}
