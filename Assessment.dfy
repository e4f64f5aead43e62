/** The self-assessment screen: ten questions in five categories, answers
    scored 0 to 3, per-category scores normalised to 0-100, a rounded overall
    mean, the threshold bands shown with the result, and the question
    navigation. Identifiers and dates of saved assessments are parameters. */
module Assessment {
  import opened Common

  datatype Category = Anxiety | Depression | Stress | Sleep | Social

  datatype Question = Question(id: string, category: Category)

  const Questions: seq<Question> := [
    Question("1", Anxiety), Question("2", Depression), Question("3", Stress),
    Question("4", Sleep), Question("5", Social), Question("6", Anxiety),
    Question("7", Depression), Question("8", Stress), Question("9", Sleep),
    Question("10", Social)
  ]

  /** The highest score of the four response options (0 to 3). */
  const MaxResponse: nat := 3

  /** Every stored answer is one of the response options. */
  predicate ResponsesValid(responses: map<string, nat>) {
    forall k :: k in responses ==> responses[k] <= MaxResponse
  }

  /** `responses[question.id] || 0`: an unanswered question counts 0. */
  function ResponseOf(responses: map<string, nat>, id: string): (r: nat)
    ensures id !in responses ==> r == 0
    ensures id in responses ==> r == responses[id]
    ensures ResponsesValid(responses) ==> r <= MaxResponse
  {
    if id in responses then responses[id] else 0
  }

  /** Sum of the answers to the questions of category `c` among the first `n` of `qs`. */
  function CategorySum(qs: seq<Question>, responses: map<string, nat>, n: nat, c: Category): nat
    requires n <= |qs|
  {
    if n == 0 then 0
    else
      var q := qs[n - 1];
      CategorySum(qs, responses, n - 1, c) + (if q.category == c then ResponseOf(responses, q.id) else 0)
  }

  /** Number of questions of category `c` among the first `n` of `qs`. */
  function CategoryCount(qs: seq<Question>, n: nat, c: Category): nat
    requires n <= |qs|
  {
    if n == 0 then 0
    else CategoryCount(qs, n - 1, c) + (if qs[n - 1].category == c then 1 else 0)
  }

  /** A category's sum is at most 3 per question in it. */
  lemma {:induction false} SumBounded(qs: seq<Question>, responses: map<string, nat>, n: nat, c: Category)
    requires ResponsesValid(responses) && n <= |qs|
    ensures CategorySum(qs, responses, n, c) <= MaxResponse * CategoryCount(qs, n, c)
  {
    if n > 0 {
      SumBounded(qs, responses, n - 1, c);
    }
  }

  lemma QuestionCategories()
    ensures |Questions| == 10
    ensures Questions[0].category == Anxiety && Questions[1].category == Depression
    ensures Questions[2].category == Stress && Questions[3].category == Sleep
    ensures Questions[4].category == Social && Questions[5].category == Anxiety
    ensures Questions[6].category == Depression && Questions[7].category == Stress
    ensures Questions[8].category == Sleep && Questions[9].category == Social
  {
  }

  /** Each category has exactly two questions. */
  lemma EachCategoryTwice(c: Category)
    ensures CategoryCount(Questions, |Questions|, c) == 2
  {
    QuestionCategories();
  }

  /** `Math.round(n / d)` for a non-negative ratio: the integer `r` with
      `r - 1/2 <= n/d < r + 1/2`. */
  function RoundDiv(n: nat, d: nat): (r: nat)
    requires d > 0
    ensures 2 * d * r <= 2 * n + d < 2 * d * (r + 1)
  {
    (2 * n + d) / (2 * d)
  }

  /** `Math.round((sum / (count * 3)) * 100)`. */
  function Normalized(sum: nat, count: nat): nat
    requires count > 0
  {
    RoundDiv(100 * sum, MaxResponse * count)
  }

  /** Rounding a ratio of at most `k` gives at most `k`. */
  lemma RoundDivAtMost(n: nat, d: nat, k: nat)
    requires d > 0 && n <= k * d
    ensures RoundDiv(n, d) <= k
  {
    var r := RoundDiv(n, d);
    assert 2 * d * r < 2 * d * (k + 1);
    if r > k {
      MulMonotone(2 * d, k + 1, r);
    }
  }

  lemma MulMonotone(a: nat, b: nat, c: nat)
    requires b <= c
    ensures a * b <= a * c
  {
  }

  lemma NormalizedAtMost100(sum: nat, count: nat)
    requires count > 0 && sum <= MaxResponse * count
    ensures Normalized(sum, count) <= 100
  {
    RoundDivAtMost(100 * sum, MaxResponse * count, 100);
  }

  datatype Scores = Scores(anxiety: nat, depression: nat, stress: nat, sleep: nat, social: nat,
                           overall: nat)

  function CategoryScore(responses: map<string, nat>, c: Category): nat {
    EachCategoryTwice(c);
    Normalized(CategorySum(Questions, responses, |Questions|, c), CategoryCount(Questions, |Questions|, c))
  }

  /** The scores `calculateScores` returns: each category normalised, and the
      overall score the rounded mean of the five. */
  function ScoresOf(responses: map<string, nat>): Scores {
    var a, d, st, sl, so := CategoryScore(responses, Anxiety), CategoryScore(responses, Depression),
      CategoryScore(responses, Stress), CategoryScore(responses, Sleep), CategoryScore(responses, Social);
    Scores(a, d, st, sl, so, RoundDiv(a + d + st + sl + so, 5))
  }

  lemma CategoryScoreAtMost100(responses: map<string, nat>, c: Category)
    requires ResponsesValid(responses)
    ensures CategoryScore(responses, c) <= 100
  {
    EachCategoryTwice(c);
    SumBounded(Questions, responses, |Questions|, c);
    NormalizedAtMost100(CategorySum(Questions, responses, |Questions|, c), 2);
  }

  /** All six scores lie in [0, 100]. */
  lemma ScoresInRange(responses: map<string, nat>)
    requires ResponsesValid(responses)
    ensures var s := ScoresOf(responses);
      s.anxiety <= 100 && s.depression <= 100 && s.stress <= 100 && s.sleep <= 100
      && s.social <= 100 && s.overall <= 100
  {
    CategoryScoreAtMost100(responses, Anxiety);
    CategoryScoreAtMost100(responses, Depression);
    CategoryScoreAtMost100(responses, Stress);
    CategoryScoreAtMost100(responses, Sleep);
    CategoryScoreAtMost100(responses, Social);
    var s := ScoresOf(responses);
    RoundDivAtMost(s.anxiety + s.depression + s.stress + s.sleep + s.social, 5, 100);
  }

  /** With no answers every score is 0. */
  lemma NoAnswersScoreZero()
    ensures ScoresOf(map[]) == Scores(0, 0, 0, 0, 0, 0)
  {
    forall c: Category ensures CategoryScore(map[], c) == 0 {
      SumZero(Questions, |Questions|, c);
      EachCategoryTwice(c);
    }
  }

  lemma CategoryScoreFull(all: map<string, nat>, c: Category)
    requires forall q :: q in Questions ==> q.id in all && all[q.id] == MaxResponse
    ensures CategoryScore(all, c) == 100
  {
    SumFull(Questions, all, |Questions|, c);
    EachCategoryTwice(c);
    assert Normalized(6, 2) == 100;
  }

  /** With every answer at the maximum every score is 100. */
  lemma AllMaximalScoreHundred(all: map<string, nat>)
    requires forall q :: q in Questions ==> q.id in all && all[q.id] == MaxResponse
    ensures ScoresOf(all) == Scores(100, 100, 100, 100, 100, 100)
  {
    CategoryScoreFull(all, Anxiety);
    CategoryScoreFull(all, Depression);
    CategoryScoreFull(all, Stress);
    CategoryScoreFull(all, Sleep);
    CategoryScoreFull(all, Social);
    assert RoundDiv(500, 5) == 100;
  }

  lemma {:induction false} SumZero(qs: seq<Question>, n: nat, c: Category)
    requires n <= |qs|
    ensures CategorySum(qs, map[], n, c) == 0
  {
    if n > 0 {
      SumZero(qs, n - 1, c);
    }
  }

  lemma {:induction false} SumFull(qs: seq<Question>, all: map<string, nat>, n: nat, c: Category)
    requires n <= |qs|
    requires forall q :: q in qs ==> q.id in all && all[q.id] == MaxResponse
    ensures CategorySum(qs, all, n, c) == MaxResponse * CategoryCount(qs, n, c)
  {
    if n > 0 {
      assert qs[n - 1] in qs;
      SumFull(qs, all, n - 1, c);
    }
  }

  /** The `forEach` of `calculateScores`: one pass over the questions
      accumulating each category's sum of answers and number of questions. */
  method SumByCategory(qs: seq<Question>, responses: map<string, nat>)
    returns (categoryScores: map<Category, nat>, categoryCounts: map<Category, nat>)
    ensures forall c: Category :: c in categoryScores && categoryScores[c] == CategorySum(qs, responses, |qs|, c)
    ensures forall c: Category :: c in categoryCounts && categoryCounts[c] == CategoryCount(qs, |qs|, c)
  {
    categoryScores := map[Anxiety := 0, Depression := 0, Stress := 0, Sleep := 0, Social := 0];
    categoryCounts := map[Anxiety := 0, Depression := 0, Stress := 0, Sleep := 0, Social := 0];
    forall c: Category ensures c in categoryScores && c in categoryCounts {
      assert c.Anxiety? || c.Depression? || c.Stress? || c.Sleep? || c.Social?;
    }
    var i := 0;
    while i < |qs|
      invariant 0 <= i <= |qs|
      invariant forall c: Category :: c in categoryScores && categoryScores[c] == CategorySum(qs, responses, i, c)
      invariant forall c: Category :: c in categoryCounts && categoryCounts[c] == CategoryCount(qs, i, c)
    {
      var question := qs[i];
      var response := ResponseOf(responses, question.id);
      categoryScores := categoryScores[question.category := categoryScores[question.category] + response];
      categoryCounts := categoryCounts[question.category := categoryCounts[question.category] + 1];
      i := i + 1;
    }
  }

  /** `calculateScores`: the per-category sums normalised to 0-100, and the
      overall score the rounded mean of the five. */
  method CalculateScores(responses: map<string, nat>) returns (scores: Scores)
    ensures scores == ScoresOf(responses)
  {
    var categoryScores, categoryCounts := SumByCategory(Questions, responses);
    EachCategoryTwice(Anxiety);
    EachCategoryTwice(Depression);
    EachCategoryTwice(Stress);
    EachCategoryTwice(Sleep);
    EachCategoryTwice(Social);
    var anxiety := Normalized(categoryScores[Anxiety], categoryCounts[Anxiety]);
    var depression := Normalized(categoryScores[Depression], categoryCounts[Depression]);
    var stress := Normalized(categoryScores[Stress], categoryCounts[Stress]);
    var sleep := Normalized(categoryScores[Sleep], categoryCounts[Sleep]);
    var social := Normalized(categoryScores[Social], categoryCounts[Social]);
    var overall := RoundDiv(anxiety + depression + stress + sleep + social, 5);
    scores := Scores(anxiety, depression, stress, sleep, social, overall);
  }

  // ------------------------------------------------------ result bands

  /** `getScoreLevel`: the label of the score's band. */
  function ScoreLevel(score: int): (r: string)
    ensures r == LevelNames[Band(score)]
  {
    BandValue(score);
    if score <= 25 then "Low"
    else if score <= 50 then "Mild"
    else if score <= 75 then "Moderate"
    else "High"
  }

  /** `getScoreColor`: the colour of the score's band, so level and colour always agree. */
  function ScoreColor(score: int): (r: string)
    ensures r == ColorNames[Band(score)]
  {
    BandValue(score);
    if score <= 25 then "text-green-600"
    else if score <= 50 then "text-yellow-600"
    else if score <= 75 then "text-orange-600"
    else "text-red-600"
  }

  const Thresholds: seq<int> := [25, 50, 75]
  const LevelNames: seq<string> := ["Low", "Mild", "Moderate", "High"]
  const ColorNames: seq<string> := ["text-green-600", "text-yellow-600", "text-orange-600", "text-red-600"]

  /** The band of a score: how many of the thresholds it exceeds. */
  function Band(score: int): (b: nat)
    ensures b < 4
  {
    Count(Thresholds, (t: int) => score > t)
  }

  /** The band counted out: one for each of 25, 50 and 75 the score exceeds. */
  lemma BandValue(score: int)
    ensures Band(score) == (if score > 25 then 1 else 0) + (if score > 50 then 1 else 0)
      + (if score > 75 then 1 else 0)
  {
    var p := (t: int) => score > t;
    assert Thresholds[1..][1..][1..] == [];
    assert Count(Thresholds, p) == (if score > 25 then 1 else 0) + (if score > 50 then 1 else 0)
      + (if score > 75 then 1 else 0);
  }

  /** A higher score never falls in a lower band. */
  lemma BandMonotone(s: int, t: int)
    requires s <= t
    ensures Band(s) <= Band(t)
  {
    BandValue(s);
    BandValue(t);
  }

  // ------------------------------------------------------ the screen

  datatype SavedAssessment = SavedAssessment(id: string, date: int, scores: Scores)

  class MentalHealthAssessment {
    var currentQuestion: nat
    var responses: map<string, nat>
    var isCompleted: bool
    var assessments: seq<SavedAssessment>

    ghost predicate Valid()
      reads this
    {
      currentQuestion < |Questions| && ResponsesValid(responses)
    }

    constructor ()
      ensures Valid() && currentQuestion == 0 && responses == map[] && !isCompleted && assessments == []
    {
      currentQuestion := 0;
      responses := map[];
      isCompleted := false;
      assessments := [];
    }

    /** `handleResponse`: records one answer, overwriting only that question's. */
    method HandleResponse(questionId: string, score: nat)
      requires Valid() && score <= MaxResponse
      modifies this
      ensures Valid() && responses == old(responses)[questionId := score]
      ensures currentQuestion == old(currentQuestion) && isCompleted == old(isCompleted)
      ensures assessments == old(assessments)
    {
      responses := responses[questionId := score];
    }

    /** `saveAssessment`: the new assessment goes first. */
    method SaveAssessment(assessment: SavedAssessment)
      modifies this
      ensures assessments == [assessment] + old(assessments)
      ensures currentQuestion == old(currentQuestion) && responses == old(responses)
      ensures isCompleted == old(isCompleted)
    {
      assessments := [assessment] + assessments;
    }

    /** `completeAssessment`, with the clock's id and date as parameters. */
    method CompleteAssessment(id: string, date: int)
      requires Valid()
      modifies this
      ensures Valid() && isCompleted
      ensures assessments == [SavedAssessment(id, date, ScoresOf(responses))] + old(assessments)
      ensures currentQuestion == old(currentQuestion) && responses == old(responses)
    {
      var scores := CalculateScores(responses);
      SaveAssessment(SavedAssessment(id, date, scores));
      isCompleted := true;
    }

    /** `nextQuestion`: advances below the last question, completes on it. */
    method NextQuestion(id: string, date: int)
      requires Valid()
      modifies this
      ensures Valid() && responses == old(responses)
      ensures old(currentQuestion) < |Questions| - 1 ==>
        currentQuestion == old(currentQuestion) + 1 && isCompleted == old(isCompleted)
        && assessments == old(assessments)
      ensures old(currentQuestion) == |Questions| - 1 ==>
        currentQuestion == old(currentQuestion) && isCompleted
        && assessments == [SavedAssessment(id, date, ScoresOf(responses))] + old(assessments)
    {
      if currentQuestion < |Questions| - 1 {
        currentQuestion := currentQuestion + 1;
      } else {
        CompleteAssessment(id, date);
      }
    }

    /** `prevQuestion`: goes back only above the first question. */
    method PrevQuestion()
      requires Valid()
      modifies this
      ensures Valid() && responses == old(responses) && isCompleted == old(isCompleted)
      ensures assessments == old(assessments)
      ensures currentQuestion == if old(currentQuestion) > 0 then old(currentQuestion) - 1 else 0
    {
      if currentQuestion > 0 {
        currentQuestion := currentQuestion - 1;
      }
    }

    /** `resetAssessment`: back to the first question with no answers; the history stays. */
    method ResetAssessment()
      modifies this
      ensures Valid() && currentQuestion == 0 && responses == map[] && !isCompleted
      ensures assessments == old(assessments)
    {
      currentQuestion := 0;
      responses := map[];
      isCompleted := false;
    }
  }
}
