/** The handlers as the bot runs them: each one updates the per-user
    `context.user_data` in place and, for a confirmed level, rewrites the user
    store.  The six handlers that have a transition function in
    `Conversation` (`GetName`, `ChooseLevelMethod`, `SetLevelDirectly`,
    `ProcessTestAnswer`, `MenuCommand`, `HandleLevelAnswer`) are proved to do
    what it says; their helpers `SendTestQuestion` and `FinishTest` state their
    effect directly, and the constructor builds the empty session. */
module BotSession {
  import opened Optional
  import opened Tiers
  import opened QuestionBank
  import opened TextOps
  import opened PlacementTest
  import opened UserStore
  import opened Conversation

  /** `context.user_data` of one user. */
  class Session {
    var name: Option<string>
    var level: Option<string>
    var choosingLevel: bool
    var testLevel: Option<Tier>
    var testQuestionIndex: int
    var testCorrectAnswers: int
    var totalQuestions: int

    /** The session's fields as a value. */
    function Data(): UserData
      reads this
    {
      UserData(name, level, choosingLevel, testLevel, testQuestionIndex, testCorrectAnswers, totalQuestions)
    }

    /** The empty `user_data` of a user the bot has not talked to. */
    constructor ()
      ensures Data() == NoUserData
    {
      name := None;
      level := None;
      choosingLevel := false;
      testLevel := None;
      testQuestionIndex := 0;
      testCorrectAnswers := 0;
      totalQuestions := 0;
    }

    /** `get_name`. */
    method GetName(text: string) returns (phase: Phase)
      modifies this
      ensures Reply(Data(), phase) == OnName(old(Data()), text)
    {
      name := Some(Strip(text));
      phase := AskingLevel;
    }

    /** `choose_level_method`. */
    method ChooseLevelMethod(choice: string) returns (phase: Phase)
      modifies this
      ensures Reply(Data(), phase) == OnLevelMethod(old(Data()), choice)
    {
      if Contains(choice, KnowLevelButton) {
        choosingLevel := true;
        phase := AskingLevel;
      } else {
        testLevel := Some(A1);
        testQuestionIndex := 0;
        testCorrectAnswers := 0;
        var _ := SendTestQuestion();
        phase := TakingTest;
      }
    }

    /** `set_level_directly`: sets the level, then reads the store, sets this
        user's record and writes the store back. */
    method SetLevelDirectly(text: string, store: LevelStore, userId: string) returns (phase: Phase)
      requires name.Some?
      modifies this, store
      ensures Outcome(Data(), store.users, phase) == OnLevelDirect(old(Data()), old(store.users), userId, text)
    {
      var chosen := FirstToken(text);
      level := Some(chosen);
      store.Put(userId, Record(name.value, chosen));
      phase := MainMenu;
    }

    /** `send_test_question`, without the message: the question shown is
        `TEST_QUESTIONS[test_level][test_question_index]` and the running
        question count goes up by one. */
    method SendTestQuestion() returns (q: Question)
      requires testLevel.Some? && 0 <= testQuestionIndex < QuestionsPerTier
      modifies this`totalQuestions
      ensures |Bank(testLevel.value)| == QuestionsPerTier
      ensures q == Bank(testLevel.value)[testQuestionIndex] && WellFormed(q)
      ensures totalQuestions == old(totalQuestions) + 1
    {
      BankWellFormed(testLevel.value);
      q := Bank(testLevel.value)[testQuestionIndex];
      totalQuestions := totalQuestions + 1;
    }

    /** `finish_test`: sets the level and writes it with the name to the
        store. */
    method FinishTest(final: Tier, store: LevelStore, userId: string)
      requires name.Some?
      modifies this`level, store
      ensures level == Some(Label(final))
      ensures store.users == Upsert(old(store.users), userId, Record(name.value, Label(final)))
    {
      level := Some(Label(final));
      store.Put(userId, Record(name.value, Label(final)));
    }

    /** `process_test_answer`. */
    method ProcessTestAnswer(answer: string, store: LevelStore, userId: string) returns (phase: Phase)
      requires name.Some? && testLevel.Some? && 0 <= testQuestionIndex < QuestionsPerTier
      modifies this, store
      ensures Outcome(Data(), store.users, phase) == OnTestAnswer(old(Data()), old(store.users), userId, answer)
    {
      TestAnswerGoesOn(Data(), store.users, userId, answer);
      TestAnswerEnds(Data(), store.users, userId, answer);
      var current := testLevel.value;
      var qIndex := testQuestionIndex;
      var correctAnswer := CorrectOption(current, qIndex);
      if answer == correctAnswer {
        testCorrectAnswers := testCorrectAnswers + 1;
      }
      testQuestionIndex := testQuestionIndex + 1;
      if testQuestionIndex >= QuestionsPerTier {
        var correct := testCorrectAnswers;
        if correct >= PassMark {
          var currentIndex := Index(current);
          if currentIndex < |Levels| - 1 {
            testLevel := Some(Levels[currentIndex + 1]);
            testQuestionIndex := 0;
            testCorrectAnswers := 0;
            var _ := SendTestQuestion();
            phase := TakingTest;
          } else {
            FinishTest(C1, store, userId);
            phase := MainMenu;
          }
        } else {
          var final: Tier;
          if current == A1 {
            final := A1;
          } else {
            var currentIndex := Index(current);
            final := if currentIndex > 0 then Levels[currentIndex - 1] else A1;
          }
          assert final == FailLevel(current);
          FinishTest(final, store, userId);
          phase := MainMenu;
        }
      } else {
        var _ := SendTestQuestion();
        phase := TakingTest;
      }
    }

    /** `menu_command`. */
    method MenuCommand(store: LevelStore, userId: string) returns (phase: Phase)
      modifies this
      ensures Outcome(Data(), store.users, phase) == OnMenu(old(Data()), store.users, userId)
    {
      var users := store.Load();
      if userId in users {
        name := Some(users[userId].name);
        level := Some(users[userId].level);
        phase := MainMenu;
      } else {
        phase := End;
      }
    }

    /** The handler registered for the level-asking state: the direct choice
        when `choosing_level` is set, the choice of method otherwise. */
    method HandleLevelAnswer(text: string, store: LevelStore, userId: string) returns (phase: Phase)
      requires name.Some?
      modifies this, store
      ensures Outcome(Data(), store.users, phase) == OnAskingLevel(old(Data()), old(store.users), userId, text)
    {
      if choosingLevel {
        phase := SetLevelDirectly(text, store, userId);
      } else {
        phase := ChooseLevelMethod(text);
      }
    }
  }
}
