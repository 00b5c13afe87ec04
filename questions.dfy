/** The placement-test question bank `TEST_QUESTIONS`: five multiple-choice
    questions per tier, fixed for the life of the process. */
module QuestionBank {
  import opened Tiers

  /** One question: its prompt, the option labels offered as reply buttons,
      and the position of the right option. */
  datatype Question = Question(prompt: string, options: seq<string>, correct: int)

  /** The number of questions asked at each tier. */
  const QuestionsPerTier := 5

  /** Four options and a right-answer position that points at one of them. */
  predicate WellFormed(q: Question) {
    |q.options| == 4 && 0 <= q.correct < |q.options|
  }

  /** No two options of a question carry the same label. */
  predicate DistinctOptions(q: Question) {
    forall j, k :: 0 <= j < k < |q.options| ==> q.options[j] != q.options[k]
  }

  const QuestionsA1: seq<Question> := [
    Question("Hello! How ___ you?", ["is", "are", "am", "be"], 1),
    Question("My name ___ Anna.", ["is", "are", "am", "be"], 0),
    Question("I ___ from Russia.", ["is", "are", "am", "be"], 2),
    Question("This is ___ apple.", ["a", "an", "the", "-"], 1),
    Question("She ___ a student.", ["is", "are", "am", "be"], 0)
  ]

  const QuestionsA2: seq<Question> := [
    Question("I ___ to school every day.", ["go", "goes", "going", "went"], 0),
    Question("Yesterday I ___ a movie.", ["watch", "watches", "watched", "watching"], 2),
    Question("There ___ many books on the table.", ["is", "are", "was", "be"], 1),
    Question("I have ___ lived in Moscow.", ["ever", "never", "always", "yet"], 2),
    Question("She is ___ than her sister.", ["tall", "taller", "tallest", "more tall"], 1)
  ]

  const QuestionsB1: seq<Question> := [
    Question("If I ___ you, I would study harder.", ["am", "was", "were", "be"], 2),
    Question("The project ___ by next Monday.", ["will finish", "will be finished", "finishes", "is finishing"], 1),
    Question("I've been studying English ___ five years.", ["since", "for", "during", "while"], 1),
    Question("She suggested ___ to the cinema.", ["go", "to go", "going", "goes"], 2),
    Question("This is the book ___ I told you about.", ["what", "which", "who", "where"], 1)
  ]

  const QuestionsB2: seq<Question> := [
    Question("Had I known about it, I ___ you.", ["would tell", "would have told", "will tell", "told"], 1),
    Question("The meeting is ___ to start at 3 PM.", ["supposed", "propose", "supposing", "suppose"], 0),
    Question("She's been working here since she ___ university.", ["graduated", "has graduated", "graduates", "graduating"], 0),
    Question("___ the weather, we decided to go hiking.", ["Despite", "Although", "However", "Nevertheless"], 0),
    Question("I wish I ___ more time to travel.", ["have", "had", "would have", "will have"], 1)
  ]

  const QuestionsC1: seq<Question> := [
    Question("Scarcely ___ the door when it started raining.", ["I closed", "had I closed", "did I close", "I had closed"], 1),
    Question("The proposal is ___ consideration by the committee.", ["under", "in", "on", "at"], 0),
    Question("Not only ___ late, but he also forgot the documents.", ["he was", "was he", "he is", "is he"], 1),
    Question("She speaks English with such ___ that she sounds native.", ["fluent", "fluency", "fluently", "fluentness"], 1),
    Question("___ to your proposal, I'd like to suggest some modifications.", ["With regard", "In regard", "Regarding", "Regards"], 0)
  ]

  /** `TEST_QUESTIONS[label]`, for the tier with that label. */
  function Bank(t: Tier): seq<Question> {
    match t
    case A1 => QuestionsA1
    case A2 => QuestionsA2
    case B1 => QuestionsB1
    case B2 => QuestionsB2
    case C1 => QuestionsC1
  }

  /** Every tier has exactly five questions, each with four options and a
      right-answer position in 0..3, so looking up question `i < 5` of any
      tier and then its right option never goes out of range. */
  lemma BankWellFormed(t: Tier)
    ensures |Bank(t)| == QuestionsPerTier
    ensures forall i :: 0 <= i < |Bank(t)| ==> WellFormed(Bank(t)[i])
  {
    forall i | 0 <= i < |Bank(t)| ensures WellFormed(Bank(t)[i]) {
      QuestionChecks(t, i);
    }
  }

  /** Within every question the four option labels differ, so exactly one
      reply button carries the right answer. */
  lemma BankOptionsDistinct(t: Tier, i: int)
    requires 0 <= i < QuestionsPerTier
    ensures |Bank(t)| == QuestionsPerTier && DistinctOptions(Bank(t)[i])
  {
    QuestionChecks(t, i);
  }

  /** Both checks on one question, one tier at a time. */
  lemma QuestionChecks(t: Tier, i: int)
    requires 0 <= i < QuestionsPerTier
    ensures |Bank(t)| == QuestionsPerTier
    ensures WellFormed(Bank(t)[i]) && DistinctOptions(Bank(t)[i])
  {
    match t
    case A1 => TierChecks(QuestionsA1, i);
    case A2 => TierChecks(QuestionsA2, i);
    case B1 => TierChecks(QuestionsB1, i);
    case B2 => TierChecks(QuestionsB2, i);
    case C1 => TierChecks(QuestionsC1, i);
  }

  lemma TierChecks(qs: seq<Question>, i: int)
    requires qs in [QuestionsA1, QuestionsA2, QuestionsB1, QuestionsB2, QuestionsC1]
    requires 0 <= i < QuestionsPerTier
    ensures |qs| == QuestionsPerTier && WellFormed(qs[i]) && DistinctOptions(qs[i])
  {
  }

  /** The label of the right option of question `i` at tier `t`. */
  function CorrectOption(t: Tier, i: int): (r: string)
    requires 0 <= i < QuestionsPerTier
    ensures |Bank(t)| == QuestionsPerTier
    ensures r in Bank(t)[i].options
  {
    BankWellFormed(t);
    Bank(t)[i].options[Bank(t)[i].correct]
  }

  /** Pressing the reply button at position `k` gives the right answer
      exactly when `k` is the question's right-answer position. */
  lemma CorrectOptionIsUnique(t: Tier, i: int, k: int)
    requires 0 <= i < QuestionsPerTier && 0 <= k < 4
    ensures |Bank(t)| == QuestionsPerTier && |Bank(t)[i].options| == 4
    ensures Bank(t)[i].options[k] == CorrectOption(t, i) <==> k == Bank(t)[i].correct
  {
    BankWellFormed(t);
    BankOptionsDistinct(t, i);
  }
}
