/** The adaptive placement test: five questions per tier, a tier is passed
    with four or more right answers, a pass moves one tier up (or ends the
    test at the ceiling C1), a fail ends the test one tier below (never below
    A1). */
module PlacementTest {
  import opened Optional
  import opened Tiers
  import opened QuestionBank

  /** Right answers needed to pass a tier. */
  const PassMark := 4

  /** The test counters kept in the session: `test_level`,
      `test_question_index` and `test_correct_answers`. */
  datatype TestState = TestState(tier: Tier, index: int, correct: int)

  /** Where a fresh test starts. */
  const Start := TestState(A1, 0, 0)

  /** The counters between two answers: the next question exists and no more
      answers have been right than have been given. */
  predicate InRange(s: TestState) {
    0 <= s.index < QuestionsPerTier && 0 <= s.correct <= s.index
  }

  /** The effect of one answer: the test goes on with new counters, or it ends
      with a final level. */
  datatype AnswerOutcome = Continue(next: TestState) | Finish(level: Tier)

  /** An answer is right when it is the label of the right option (a string
      comparison, not a position). */
  predicate IsCorrect(t: Tier, i: int, answer: string)
    requires 0 <= i < QuestionsPerTier
  {
    answer == CorrectOption(t, i)
  }

  /** The final level after failing tier `t`: A1 when `t` is A1, otherwise the
      tier just below (the list lookup keeps a second A1 guard for index 0). */
  function FailLevel(t: Tier): (r: Tier)
    ensures Index(r) + 1 == Index(t) || (t == A1 && r == A1)
  {
    if t == A1 then A1
    else match Prev(t)
      case Some(p) => p
      case None => A1
  }

  /** Questions still to come before the test must end: the rest of this tier
      plus five for every tier above it. */
  function Remaining(s: TestState): int {
    QuestionsPerTier * (|Levels| - 1 - Index(s.tier)) + (QuestionsPerTier - s.index)
  }

  /** One answer to question `s.index` of tier `s.tier`. */
  function AnswerStep(s: TestState, answer: string): (r: AnswerOutcome)
    requires 0 <= s.index < QuestionsPerTier
    ensures InRange(s) && r.Continue? ==> InRange(r.next) && Remaining(r.next) == Remaining(s) - 1
  {
    var correct := if IsCorrect(s.tier, s.index, answer) then s.correct + 1 else s.correct;
    var index := s.index + 1;
    if index >= QuestionsPerTier then
      if correct >= PassMark then
        match Next(s.tier)
        case Some(up) => Continue(TestState(up, 0, 0))
        case None => Finish(C1)
      else
        Finish(FailLevel(s.tier))
    else
      Continue(TestState(s.tier, index, correct))
  }

  /** Within a tier, an answer moves to the next question and adds one to the
      right-answer count exactly when it is right. */
  lemma AnswerWithinTier(s: TestState, answer: string)
    requires InRange(s) && s.index + 1 < QuestionsPerTier
    ensures AnswerStep(s, answer) == Continue(TestState(s.tier, s.index + 1,
              if answer == CorrectOption(s.tier, s.index) then s.correct + 1 else s.correct))
  {
  }

  /** The fifth answer at a tier below C1 that leaves four or more right moves
      to the next tier with both counters back at zero. */
  lemma PassPromotes(s: TestState, answer: string)
    requires s.index == QuestionsPerTier - 1 && s.tier != C1
    requires s.correct + (if IsCorrect(s.tier, s.index, answer) then 1 else 0) >= PassMark
    ensures Next(s.tier).Some?
    ensures AnswerStep(s, answer) == Continue(TestState(Next(s.tier).value, 0, 0))
    ensures Index(AnswerStep(s, answer).next.tier) == Index(s.tier) + 1
  {
  }

  /** Passing C1 ends the test at C1. */
  lemma PassCeilingFinishes(s: TestState, answer: string)
    requires s.index == QuestionsPerTier - 1 && s.tier == C1
    requires s.correct + (if IsCorrect(s.tier, s.index, answer) then 1 else 0) >= PassMark
    ensures AnswerStep(s, answer) == Finish(C1)
  {
  }

  /** The fifth answer that leaves fewer than four right ends the test: at A1
      when the tier was A1, otherwise at the tier just below it. */
  lemma FailFinishes(s: TestState, answer: string)
    requires s.index == QuestionsPerTier - 1
    requires s.correct + (if IsCorrect(s.tier, s.index, answer) then 1 else 0) < PassMark
    ensures s.tier == A1 ==> AnswerStep(s, answer) == Finish(A1)
    ensures s.tier != A1 ==> AnswerStep(s, answer) == Finish(Prev(s.tier).value)
    ensures var l := AnswerStep(s, answer).level;
            l == A1 || Index(l) < Index(s.tier)
  {
  }

  /** The outcome of a sequence of answers fed to the test: either it is still
      running, or it ended with a final level after `answered` answers. */
  datatype RunResult = Running(state: TestState) | Done(level: Tier, answered: nat)

  /** Feeds answers one at a time, stopping at the first that ends the test. */
  function Run(s: TestState, answers: seq<string>): (r: RunResult)
    requires InRange(s)
    ensures r.Running? ==> InRange(r.state)
    ensures r.Done? ==> 1 <= r.answered <= |answers|
    decreases |answers|
  {
    if answers == [] then Running(s)
    else match AnswerStep(s, answers[0])
      case Finish(level) => Done(level, 1)
      case Continue(next) =>
        match Run(next, answers[1..])
        case Running(t) => Running(t)
        case Done(level, k) => Done(level, k + 1)
  }

  /** A test that is still running after some answers has used up that many
      of its remaining questions. */
  lemma {:induction false} RunningConsumes(s: TestState, answers: seq<string>)
    requires InRange(s) && Run(s, answers).Running?
    ensures Remaining(Run(s, answers).state) == Remaining(s) - |answers|
    decreases |answers|
  {
    if answers != [] {
      var next := AnswerStep(s, answers[0]).next;
      RunningConsumes(next, answers[1..]);
    }
  }

  /** The test always ends within `Remaining(s)` answers. */
  lemma RunEndsWithinRemaining(s: TestState, answers: seq<string>)
    requires InRange(s) && |answers| >= Remaining(s)
    ensures Run(s, answers).Done?
    ensures Run(s, answers).answered <= Remaining(s)
  {
    var r := Run(s, answers);
    if r.Running? {
      RunningConsumes(s, answers);
      assert false;
    }
    var prefix := answers[..Remaining(s)];
    RunPrefix(s, answers, Remaining(s));
    if Run(s, prefix).Running? {
      RunningConsumes(s, prefix);
      assert false;
    }
  }

  /** Once the test ends within the first `n` answers, the answers after them
      make no difference. */
  lemma {:induction false} RunPrefix(s: TestState, answers: seq<string>, n: nat)
    requires InRange(s) && n <= |answers|
    ensures Run(s, answers[..n]).Done? ==> Run(s, answers) == Run(s, answers[..n])
    ensures Run(s, answers).Done? && Run(s, answers).answered <= n ==> Run(s, answers[..n]) == Run(s, answers)
    decreases n
  {
    if n > 0 {
      assert answers[..n][0] == answers[0];
      assert answers[..n][1..] == answers[1..][..n - 1];
      match AnswerStep(s, answers[0])
      case Finish(_) =>
      case Continue(next) => RunPrefix(next, answers[1..], n - 1);
    }
  }

  /** Feeding two batches of answers is feeding their concatenation: when the
      first batch leaves the test running, the second batch continues from
      there. */
  lemma {:induction false} RunAppend(s: TestState, a: seq<string>, b: seq<string>)
    requires InRange(s) && Run(s, a).Running?
    ensures Run(s, a + b) == match Run(Run(s, a).state, b)
                             case Running(t) => Running(t)
                             case Done(level, k) => Done(level, k + |a|)
    decreases |a|
  {
    if a != [] {
      assert (a + b)[0] == a[0];
      assert (a + b)[1..] == a[1..] + b;
      RunAppend(AnswerStep(s, a[0]).next, a[1..], b);
    } else {
      assert a + b == b;
    }
  }

  /** From any point of the test, it sends at most `Remaining(s)` more
      questions: it ends within that many answers, and while it runs fewer
      answers than that have been given. */
  lemma RunBound(s: TestState, answers: seq<string>)
    requires InRange(s)
    ensures Run(s, answers).Done? ==> Run(s, answers).answered <= Remaining(s)
    ensures Run(s, answers).Running? ==> |answers| + 1 <= Remaining(s)
    ensures |answers| >= Remaining(s) ==> Run(s, answers).Done?
  {
    if Run(s, answers).Running? {
      RunningConsumes(s, answers);
    } else if |answers| >= Remaining(s) {
      RunEndsWithinRemaining(s, answers);
    }
  }

  /** A fresh test asks at most 25 questions: it ends after at most 25 answers,
      and while it is running fewer than 25 answers have been given, so the
      question on screen is at most the 25th. */
  lemma AtMostTwentyFiveQuestions(s: TestState, answers: seq<string>)
    requires s == Start
    ensures Run(s, answers).Done? ==> Run(s, answers).answered <= 25
    ensures Run(s, answers).Running? ==> |answers| + 1 <= 25
    ensures |answers| >= 25 ==> Run(s, answers).Done?
  {
    RunBound(s, answers);
  }
}
