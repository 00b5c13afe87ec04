/** The onboarding conversation as a pure state machine: the per-user session
    data (`context.user_data`), the conversation phase, one transition function
    per handler, and the table that says which handler a message reaches in
    which phase. */
module Conversation {
  import opened Optional
  import opened Tiers
  import opened QuestionBank
  import opened TextOps
  import opened PlacementTest
  import opened UserStore

  /** The conversation states; `End` is "no conversation running". */
  datatype Phase = AskingName | AskingLevel | TakingTest | MainMenu | End

  /** `context.user_data`.  A key the bot has not written yet is `None`
      (`name`, `level`, `test_level`) or holds the default the bot reads it
      with: `False` for `choosing_level` and 0 for `total_questions`.  The bot
      reads `test_question_index` and `test_correct_answers` without a
      default; they are 0 here until the test starts, and `Valid` keeps them
      from being read before `choose_level_method` writes them. */
  datatype UserData = UserData(
    name: Option<string>,
    level: Option<string>,
    choosingLevel: bool,
    testLevel: Option<Tier>,
    testQuestionIndex: int,
    testCorrectAnswers: int,
    totalQuestions: int)

  /** The session of a user the bot has not seen before. */
  const NoUserData := UserData(None, None, false, None, 0, 0, 0)

  /** The text the "I know my level" button carries, as the bot tests it. */
  const KnowLevelButton := "Знаю свой уровень"

  /** A handler's effect on the session when it does not touch the store. */
  datatype Reply = Reply(data: UserData, phase: Phase)

  /** A handler's effect on the session and on the user store. */
  datatype Outcome = Outcome(data: UserData, users: map<string, Record>, phase: Phase)

  /** The test counters of a session that has started a test. */
  function TestOf(d: UserData): TestState
    requires d.testLevel.Some?
  {
    TestState(d.testLevel.value, d.testQuestionIndex, d.testCorrectAnswers)
  }

  /** What holds of the session in each phase: the name is known once the
      level is asked for, and during a test the counters point at an existing
      question and at least that question has been sent. */
  predicate Valid(d: UserData, phase: Phase) {
    && d.totalQuestions >= 0
    && (phase == AskingLevel ==> d.name.Some?)
    && (phase == TakingTest ==>
          d.name.Some? && d.testLevel.Some? && InRange(TestOf(d)) && d.totalQuestions >= 1)
  }

  /** `get_name`: the stripped text becomes the name (an empty result is
      kept too). */
  function OnName(d: UserData, text: string): Reply {
    Reply(d.(name := Some(Strip(text))), AskingLevel)
  }

  /** `choose_level_method`: a choice containing the "I know my level" text
      sets `choosing_level`; any other text starts the test at A1 and sends
      its first question, which counts one more question. */
  function OnLevelMethod(d: UserData, choice: string): Reply {
    if Contains(choice, KnowLevelButton) then
      Reply(d.(choosingLevel := true), AskingLevel)
    else
      Reply(d.(testLevel := Some(A1), testQuestionIndex := 0, testCorrectAnswers := 0,
               totalQuestions := d.totalQuestions + 1), TakingTest)
  }

  /** `set_level_directly`: the first space-separated token becomes the
      level, unchecked, and is stored with the name. */
  function OnLevelDirect(d: UserData, users: map<string, Record>, userId: string, text: string): Outcome
    requires d.name.Some?
  {
    var level := FirstToken(text);
    Outcome(d.(level := Some(level)), Upsert(users, userId, Record(d.name.value, level)), MainMenu)
  }

  /** The handler of the level-asking state: the direct choice once
      `choosing_level` is set, the choice of method otherwise. */
  function OnAskingLevel(d: UserData, users: map<string, Record>, userId: string, text: string): Outcome
    requires d.name.Some?
  {
    if d.choosingLevel then OnLevelDirect(d, users, userId, text)
    else
      var r := OnLevelMethod(d, text);
      Outcome(r.data, users, r.phase)
  }

  /** `process_test_answer`, with `send_test_question`'s count and
      `finish_test`'s write: the counters move as the test engine says; going
      on sends one more question, ending stores the final level. */
  function OnTestAnswer(d: UserData, users: map<string, Record>, userId: string, answer: string): Outcome
    requires d.name.Some? && d.testLevel.Some? && 0 <= d.testQuestionIndex < QuestionsPerTier
  {
    var s := TestOf(d);
    match AnswerStep(s, answer)
    case Continue(next) =>
      Outcome(d.(testLevel := Some(next.tier), testQuestionIndex := next.index,
                 testCorrectAnswers := next.correct, totalQuestions := d.totalQuestions + 1),
              users, TakingTest)
    case Finish(finalLevel) =>
      var levelLabel := Label(finalLevel);
      Outcome(d.(level := Some(levelLabel), testQuestionIndex := s.index + 1,
                 testCorrectAnswers := if IsCorrect(s.tier, s.index, answer) then s.correct + 1 else s.correct),
              Upsert(users, userId, Record(d.name.value, levelLabel)), MainMenu)
  }

  /** `OnTestAnswer` branch by branch, in the order the handler tests its
      conditions: the two ways the test goes on ... */
  lemma TestAnswerGoesOn(d: UserData, users: map<string, Record>, userId: string, answer: string)
    requires d.name.Some? && d.testLevel.Some? && 0 <= d.testQuestionIndex < QuestionsPerTier
    ensures var t := d.testLevel.value;
            var correct := if answer == CorrectOption(t, d.testQuestionIndex)
                           then d.testCorrectAnswers + 1 else d.testCorrectAnswers;
            var index := d.testQuestionIndex + 1;
            var r := OnTestAnswer(d, users, userId, answer);
            && (index < QuestionsPerTier ==>
                  r == Outcome(d.(testQuestionIndex := index, testCorrectAnswers := correct,
                                  totalQuestions := d.totalQuestions + 1), users, TakingTest))
            && (index >= QuestionsPerTier && correct >= PassMark && Index(t) < |Levels| - 1 ==>
                  r == Outcome(d.(testLevel := Some(Levels[Index(t) + 1]), testQuestionIndex := 0,
                                  testCorrectAnswers := 0, totalQuestions := d.totalQuestions + 1),
                               users, TakingTest))
  {
  }

  /** ... and the two ways it ends. */
  lemma TestAnswerEnds(d: UserData, users: map<string, Record>, userId: string, answer: string)
    requires d.name.Some? && d.testLevel.Some? && 0 <= d.testQuestionIndex < QuestionsPerTier
    ensures var t := d.testLevel.value;
            var correct := if answer == CorrectOption(t, d.testQuestionIndex)
                           then d.testCorrectAnswers + 1 else d.testCorrectAnswers;
            var index := d.testQuestionIndex + 1;
            var r := OnTestAnswer(d, users, userId, answer);
            && (index >= QuestionsPerTier && correct >= PassMark && Index(t) >= |Levels| - 1 ==>
                  r == Outcome(d.(level := Some(Label(C1)), testQuestionIndex := index,
                                  testCorrectAnswers := correct),
                               Upsert(users, userId, Record(d.name.value, Label(C1))), MainMenu))
            && (index >= QuestionsPerTier && correct < PassMark ==>
                  r == Outcome(d.(level := Some(Label(FailLevel(t))), testQuestionIndex := index,
                                  testCorrectAnswers := correct),
                               Upsert(users, userId, Record(d.name.value, Label(FailLevel(t)))), MainMenu))
  {
  }

  /** `menu_command`: a stored user gets name and level back from the store
      and the menu; an unknown user ends the conversation. */
  function OnMenu(d: UserData, users: map<string, Record>, userId: string): Outcome {
    if userId in users then
      Outcome(d.(name := Some(users[userId].name), level := Some(users[userId].level)), users, MainMenu)
    else
      Outcome(d, users, End)
  }

  /** What reaches the conversation: a text message that is not a bot
      command (what `filters.TEXT & ~filters.COMMAND` lets through), one of
      the commands /start, /menu and /cancel, or any other command. */
  datatype Event = Text(text: string) | StartCmd | MenuCmd | CancelCmd | OtherCmd

  /** One message handled by the conversation.  /start and /menu are entry
      points and work in every phase; /cancel works while a conversation
      runs; text reaches the handler of the current phase and is ignored in
      the menu and outside a conversation; no handler takes any other
      command. */
  function Step(d: UserData, users: map<string, Record>, phase: Phase, userId: string, e: Event): (r: Outcome)
    requires Valid(d, phase)
    ensures Valid(r.data, r.phase)
  {
    match e
    case StartCmd => Outcome(d, users, AskingName)
    case MenuCmd => OnMenu(d, users, userId)
    case CancelCmd => Outcome(d, users, End)
    case OtherCmd => Outcome(d, users, phase)
    case Text(text) =>
      match phase
      case AskingName =>
        var r := OnName(d, text);
        Outcome(r.data, users, r.phase)
      case AskingLevel => OnAskingLevel(d, users, userId, text)
      case TakingTest => OnTestAnswer(d, users, userId, text)
      case MainMenu => Outcome(d, users, phase)
      case End => Outcome(d, users, phase)
  }

  /** A command other than /start, /menu and /cancel changes nothing in any
      phase: every state handler filters commands out. */
  lemma OtherCommandIgnored(d: UserData, users: map<string, Record>, phase: Phase, userId: string)
    requires Valid(d, phase)
    ensures Step(d, users, phase, userId, OtherCmd) == Outcome(d, users, phase)
  {
  }

  /** A session the bot has never seen satisfies the invariant in every
      phase it can start from. */
  lemma NoUserDataValid()
    ensures Valid(NoUserData, End) && Valid(NoUserData, AskingName)
  {
  }

  /** The store changes only when a level is confirmed: then the conversation
      is in the menu and the current user's id holds exactly the session's
      name and level, every other id keeping its record. */
  lemma StepWritesOnlyOnConfirm(d: UserData, users: map<string, Record>, phase: Phase, userId: string, e: Event)
    requires Valid(d, phase)
    ensures var r := Step(d, users, phase, userId, e);
            r.users == users
            || (&& r.phase == MainMenu && r.data.name.Some? && r.data.level.Some?
                && r.data.name == d.name
                && r.users == Upsert(users, userId, Record(r.data.name.value, r.data.level.value)))
  {
  }

  /** `choosing_level` is never cleared: once set, every later message keeps
      it set. */
  lemma ChoosingLevelSticky(d: UserData, users: map<string, Record>, phase: Phase, userId: string, e: Event)
    requires Valid(d, phase) && d.choosingLevel
    ensures Step(d, users, phase, userId, e).data.choosingLevel
  {
  }

  /** `total_questions` never goes down, and it goes up by at most one per
      message: by exactly one when a question is sent. */
  lemma TotalQuestionsNeverReset(d: UserData, users: map<string, Record>, phase: Phase, userId: string, e: Event)
    requires Valid(d, phase)
    ensures var r := Step(d, users, phase, userId, e);
            d.totalQuestions <= r.data.totalQuestions <= d.totalQuestions + 1
    ensures var r := Step(d, users, phase, userId, e);
            phase == TakingTest && e.Text? ==>
              r.data.totalQuestions == d.totalQuestions + (if r.phase == TakingTest then 1 else 0)
  {
  }

  /** /menu reaches the menu exactly when the user id is stored; then name and
      level come from the stored record, otherwise the session is left as it
      was and the conversation ends. */
  lemma MenuLooksUpStore(d: UserData, users: map<string, Record>, phase: Phase, userId: string)
    requires Valid(d, phase)
    ensures var r := Step(d, users, phase, userId, MenuCmd);
            && (r.phase == MainMenu <==> userId in users)
            && (userId in users ==> r.data.name == Some(users[userId].name)
                                    && r.data.level == Some(users[userId].level))
            && (userId !in users ==> r.phase == End && r.data == d)
            && r.users == users
  {
  }

  /** A level button's text ("B2 - Upper-Intermediate") yields its tier's label. */
  lemma ButtonTokenIsLabel(t: Tier, description: string)
    ensures FirstToken(Label(t) + " - " + description) == Label(t)
  {
    var s := Label(t) + " - " + description;
    assert s[0] == Label(t)[0] && s[1] == Label(t)[1] && s[2] == ' ';
    assert FirstToken(s[2..]) == [];
    assert FirstToken(s[1..]) == [s[1]];
    assert FirstToken(s) == [s[0]] + [s[1]];
  }

  /** Choosing "I know my level" and then a level button ("B2 -
      Upper-Intermediate") stores that tier's label with the name and opens
      the menu. */
  lemma DirectChoiceOfButton(d: UserData, users: map<string, Record>, userId: string, t: Tier, description: string)
    requires Valid(d, AskingLevel) && d.choosingLevel
    ensures var r := Step(d, users, AskingLevel, userId, Text(Label(t) + " - " + description));
            && r.phase == MainMenu
            && r.data.level == Some(Label(t))
            && r.users == Upsert(users, userId, Record(d.name.value, Label(t)))
  {
    ButtonTokenIsLabel(t, description);
  }

  /** The two buttons the level question offers. */
  const KnowLevelChoice := "Знаю свой уровень \U{1F4CA}"
  const TakeTestChoice := "Пройти тест \U{1F4DD}"

  /** Pressing "I know my level" sets `choosing_level` and asks for the level
      again; nothing else in the session and nothing in the store changes. */
  lemma KnowLevelButtonSetsFlag(d: UserData, users: map<string, Record>, userId: string)
    requires Valid(d, AskingLevel) && !d.choosingLevel
    ensures Step(d, users, AskingLevel, userId, Text(KnowLevelChoice))
            == Outcome(d.(choosingLevel := true), users, AskingLevel)
  {
    ContainsSpec(KnowLevelChoice, KnowLevelButton);
    assert OccursAt(KnowLevelChoice, KnowLevelButton, 0);
  }

  /** Pressing "take the test" starts the test at A1 with both counters at
      zero, counts its first question and leaves the store alone. */
  lemma TakeTestButtonStartsTest(d: UserData, users: map<string, Record>, userId: string)
    requires Valid(d, AskingLevel) && !d.choosingLevel
    ensures var r := Step(d, users, AskingLevel, userId, Text(TakeTestChoice));
            && r.phase == TakingTest && TestOf(r.data) == Start && r.users == users
            && r.data.totalQuestions == d.totalQuestions + 1
  {
    assert !Contains(TakeTestChoice, KnowLevelButton);
    ChoosingTestStartsAtA1(d, users, userId, TakeTestChoice);
  }

  /** Choosing a level directly, from the first button to the level button:
      "I know my level" and then "<label> - <description>" store that tier's
      label with the name and open the menu. */
  lemma DirectChoiceFromLevelQuestion(d: UserData, users: map<string, Record>, userId: string, t: Tier, description: string)
    requires Valid(d, AskingLevel) && !d.choosingLevel
    ensures var r1 := Step(d, users, AskingLevel, userId, Text(KnowLevelChoice));
            var r2 := Step(r1.data, r1.users, r1.phase, userId, Text(Label(t) + " - " + description));
            && r1.phase == AskingLevel
            && r2.phase == MainMenu
            && r2.data.level == Some(Label(t))
            && r2.users == Upsert(users, userId, Record(d.name.value, Label(t)))
  {
    KnowLevelButtonSetsFlag(d, users, userId);
    DirectChoiceOfButton(d.(choosingLevel := true), users, userId, t, description);
  }

  /** Several text messages (none of them a command) handled one after
      another. */
  function Feed(d: UserData, users: map<string, Record>, phase: Phase, userId: string, texts: seq<string>): (r: Outcome)
    requires Valid(d, phase)
    ensures Valid(r.data, r.phase)
    decreases |texts|
  {
    if texts == [] then Outcome(d, users, phase)
    else
      var r := Step(d, users, phase, userId, Text(texts[0]));
      Feed(r.data, r.users, r.phase, userId, texts[1..])
  }

  /** Text sent while the menu is shown changes nothing. */
  lemma {:induction false} FeedInMenu(d: UserData, users: map<string, Record>, userId: string, texts: seq<string>)
    requires Valid(d, MainMenu)
    ensures Feed(d, users, MainMenu, userId, texts) == Outcome(d, users, MainMenu)
    decreases |texts|
  {
    if texts != [] {
      FeedInMenu(d, users, userId, texts[1..]);
    }
  }

  /** Answers fed to the conversation during a test do what the test engine
      says: while it runs the counters are the engine's and one question is
      sent per answer; when it ends the final level is in the session and in
      the store, and no question is sent for the last answer. */
  lemma {:induction false} FeedFollowsRun(d: UserData, users: map<string, Record>, userId: string, answers: seq<string>)
    requires Valid(d, TakingTest)
    ensures var r := Feed(d, users, TakingTest, userId, answers);
            && r.data.name == d.name
            && match Run(TestOf(d), answers)
               case Running(t) =>
                 && r.phase == TakingTest && TestOf(r.data) == t && r.users == users
                 && r.data.totalQuestions == d.totalQuestions + |answers|
               case Done(level, k) =>
                 && r.phase == MainMenu && r.data.level == Some(Label(level))
                 && r.users == Upsert(users, userId, Record(d.name.value, Label(level)))
                 && r.data.totalQuestions == d.totalQuestions + k - 1
    decreases |answers|
  {
    if answers != [] {
      var r := Step(d, users, TakingTest, userId, Text(answers[0]));
      match AnswerStep(TestOf(d), answers[0])
      case Finish(level) =>
        FeedInMenu(r.data, r.users, userId, answers[1..]);
      case Continue(next) =>
        assert TestOf(r.data) == next;
        FeedFollowsRun(r.data, r.users, userId, answers[1..]);
    }
  }

  /** Choosing the test from the level question starts it at A1 with both
      counters at zero and sends its first question. */
  lemma ChoosingTestStartsAtA1(d: UserData, users: map<string, Record>, userId: string, choice: string)
    requires Valid(d, AskingLevel) && !d.choosingLevel && !Contains(choice, KnowLevelButton)
    ensures var s := Step(d, users, AskingLevel, userId, Text(choice));
            && s.phase == TakingTest && TestOf(s.data) == Start && s.users == users
            && s.data.totalQuestions == d.totalQuestions + 1
  {
  }

  /** However the user answers, a test run sends at most 25 questions, and
      after 25 answers it has ended in the menu. */
  lemma TestRunAsksAtMostTwentyFive(d: UserData, users: map<string, Record>, userId: string, answers: seq<string>)
    requires Valid(d, TakingTest) && TestOf(d) == Start
    ensures var r := Feed(d, users, TakingTest, userId, answers);
            && r.data.totalQuestions <= d.totalQuestions + 24
            && (|answers| >= 25 ==> r.phase == MainMenu)
  {
    FeedFollowsRun(d, users, userId, answers);
    AtMostTwentyFiveQuestions(TestOf(d), answers);
  }
}
