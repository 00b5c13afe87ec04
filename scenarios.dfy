/** Worked runs of the placement test on concrete answers. */
module PlacementScenarios {
  import opened Tiers
  import opened QuestionBank
  import opened PlacementTest

  const RightA1: seq<string> := ["are", "is", "am", "an", "is"]
  const RightA2: seq<string> := ["go", "watched", "are", "always", "taller"]
  const RightB1: seq<string> := ["were", "will be finished", "for", "going", "which"]
  const RightB2: seq<string> := ["would have told", "supposed", "graduated", "Despite", "had"]
  const RightC1: seq<string> := ["had I closed", "under", "was he", "fluency", "With regard"]

  /** The constants above are the right options of each tier, in order. */
  lemma RightAnswersMatchBank()
    ensures forall i :: 0 <= i < 5 ==> RightA1[i] == CorrectOption(A1, i)
    ensures forall i :: 0 <= i < 5 ==> RightA2[i] == CorrectOption(A2, i)
    ensures forall i :: 0 <= i < 5 ==> RightB1[i] == CorrectOption(B1, i)
    ensures forall i :: 0 <= i < 5 ==> RightB2[i] == CorrectOption(B2, i)
    ensures forall i :: 0 <= i < 5 ==> RightC1[i] == CorrectOption(C1, i)
  {
  }

  /** All five A1 answers right: the test moves on to A2 with fresh counters. */
  lemma AllRightAtA1()
    ensures Run(Start, RightA1) == Running(TestState(A2, 0, 0))
  {
  }

  /** Three of five right at B1: the test ends at A2. */
  lemma ThreeRightAtB1()
    ensures Run(TestState(B1, 0, 0), ["were", "will be finished", "for", "go", "what"]) == Done(A2, 5)
  {
  }

  /** Two of five right at A1: the test ends at A1. */
  lemma TwoRightAtA1()
    ensures Run(Start, ["are", "is", "is", "a", "am"]) == Done(A1, 5)
  {
  }

  /** All five right at A2, B1 or B2: the test moves one tier up. */
  lemma AllRightAtA2()
    ensures Run(TestState(A2, 0, 0), RightA2) == Running(TestState(B1, 0, 0))
  {
  }

  lemma AllRightAtB1()
    ensures Run(TestState(B1, 0, 0), RightB1) == Running(TestState(B2, 0, 0))
  {
  }

  lemma AllRightAtB2()
    ensures Run(TestState(B2, 0, 0), RightB2) == Running(TestState(C1, 0, 0))
  {
  }

  /** All five right at C1: the test ends there. */
  lemma AllRightAtC1()
    ensures Run(TestState(C1, 0, 0), RightC1) == Done(C1, 5)
  {
  }

  /** Every answer right: the test climbs through every tier and ends at C1
      on the 25th answer. */
  lemma AllRightEndsAtC1()
    ensures Run(Start, RightA1 + RightA2 + RightB1 + RightB2 + RightC1) == Done(C1, 25)
  {
    var toB1 := RightA1 + RightA2;
    var toB2 := toB1 + RightB1;
    var toC1 := toB2 + RightB2;
    AllRightAtA1();
    AllRightAtA2();
    RunAppend(Start, RightA1, RightA2);
    AllRightAtB1();
    RunAppend(Start, toB1, RightB1);
    AllRightAtB2();
    RunAppend(Start, toB2, RightB2);
    AllRightAtC1();
    RunAppend(Start, toC1, RightC1);
  }
}
