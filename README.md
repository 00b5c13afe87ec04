# MoraTalk onboarding and placement test, in Dafny

MoraTalk is a Telegram chat bot for learning English. When a user first talks to it, the bot
asks for a name. Then it finds the user's English level. The user can pick a level directly or
take an adaptive placement test. The bot stores `{name, level}` per user and shows a menu.

This project models the part with decisions in it. That part is the conversation state machine
in `moratalk_bot.py`, with its per-user session data (`context.user_data`) and the user store.

- `Tiers` (`tiers.dfy`): the five tiers A1 < A2 < B1 < B2 < C1. Moving up or down is index
  arithmetic on the list `Levels`, as the bot does on `['A1', 'A2', 'B1', 'B2', 'C1']`.
- `QuestionBank` (`questions.dfy`): the constant `TEST_QUESTIONS` table, with its
  well-formedness proved.
- `TextOps` (`text.dfy`): the Python string operations the handlers use: `str.strip()`,
  `text.split(' ')[0]` and the substring test `needle in text`.
- `PlacementTest` (`placement.dfy`): the test engine. One answer is one step. `Run` feeds a
  sequence of answers. The lemmas cover promotion, the C1 ceiling, the A1 floor, the
  counters, and the bound of 25 questions.
- `PlacementScenarios` (`scenarios.dfy`): runs on concrete answer sequences.
- `UserStore` (`store.dfy`): `load_user_data` / `save_user_data` over an in-memory
  `map<string, Record>`, with the read-modify-write both level handlers perform.
- `Conversation` (`conversation.dfy`): the session data as a value (`UserData`). It has one
  pure transition function per handler and the table that routes a message to a handler for
  each phase (`Step`). It also has the phase invariant `Valid` and the lemmas about whole
  conversations.
- `BotSession` (`session.dfy`): the class `Session`. Its fields are the `user_data` keys. Its
  methods are the handlers, which update the fields in place and write the store.
  Not every method has a transition function in `Conversation`. Six methods have one: `GetName`,
  `ChooseLevelMethod`, `SetLevelDirectly`, `ProcessTestAnswer`, `MenuCommand` and
  `HandleLevelAnswer`. Each of them is proved equal to that function. `SendTestQuestion` and
  `FinishTest` are helpers of those handlers, and their contracts state their effect directly.
  The constructor builds the empty session.

The model follows the code as written, including these behaviours:

- An empty name is accepted. `get_name` keeps whatever `strip()` leaves, even `""`.
- `set_level_directly` does not check its input. The first space-separated token is stored
  as the level, even when it names no tier.
- `choose_level_method` starts the test on any text that does not contain the "I know my level"
  button text (`Знаю свой уровень`). Unrecognised input is not re-prompted.
- `choosing_level` is never cleared. Once a user picks "I know my level", a later pass
  through the level question always goes to the direct choice.
- `total_questions` is read with a default of 0 and is never reset. A second test in the same
  session continues the count.
- The test keys stay in the session after the test ends.
- There is no lock around the store's read-modify-write. None is needed within one bot
  process: there is no `await` between `load_user_data()` and `save_user_data()`, so each
  cycle runs without interruption. A failed write is not handled.
- `/cancel` works only while a conversation is running. Outside one, the bot ignores it.

## Model

| member | source | states |
|---|---|---|
| Tiers.Label | moratalk_bot.py:214 | each tier's label is two characters, a letter A–C and a digit 1–2 |
| Tiers.Index | moratalk_bot.py:215 | `levels.index(level)` is in range and `Levels` holds the tier at that position |
| Tiers.Next | moratalk_bot.py:214-218 | there is a next tier exactly when the tier is not C1, and it is one position up |
| Tiers.Prev | moratalk_bot.py:240-242 | there is a previous tier exactly when the tier is not A1, and it is one position down |
| Tiers.LevelsEnumerate | moratalk_bot.py:214 | `Index` inverts list lookup, so every tier is listed exactly once |
| Tiers.LabelInjective | moratalk_bot.py:214 | two tiers have the same label if and only if they are the same tier |
| Tiers.NextPrevInverse | moratalk_bot.py:214-242 | `Next(s) == t` if and only if `Prev(t) == s` |
| QuestionBank.BankWellFormed | moratalk_bot.py:21-57 | every tier has exactly 5 questions, each with 4 options and a right-answer position in 0..3 |
| QuestionBank.BankOptionsDistinct | moratalk_bot.py:21-57 | the four option labels of every question are pairwise different |
| QuestionBank.CorrectOption | moratalk_bot.py:199-200 | for a question index below 5, `options[correct]` exists and is one of the question's options |
| QuestionBank.CorrectOptionIsUnique | moratalk_bot.py:199-202 | the option at position k is the right answer if and only if k is the right-answer position |
| TextOps.TrimStart | moratalk_bot.py:89 | the result is a suffix of the input and does not start with whitespace |
| TextOps.TrimStartDropsSpace | moratalk_bot.py:89 | everything the left trim removes is whitespace |
| TextOps.TrimEnd | moratalk_bot.py:89 | the result is a prefix of the input and does not end with whitespace |
| TextOps.TrimEndDropsSpace | moratalk_bot.py:89 | everything the right trim removes is whitespace |
| TextOps.StripBounds | moratalk_bot.py:89 | `strip()` keeps `s[i..j]`, and `s[..i]` and `s[j..]` are all whitespace |
| TextOps.StripSpec | moratalk_bot.py:89 | `strip()` keeps a contiguous part with whitespace on both sides cut away, and the kept part neither starts nor ends with whitespace |
| TextOps.StripIdempotent | moratalk_bot.py:89 | stripping a stripped name changes nothing |
| TextOps.StripAllSpace | moratalk_bot.py:89 | an all-whitespace text strips to the empty name, which `get_name` accepts |
| TextOps.FirstToken | moratalk_bot.py:147 | `split(' ')[0]` is a prefix of the text, contains no space, and is followed by a space unless it is the whole text |
| TextOps.ContainsSpec | moratalk_bot.py:114 | the substring test holds if and only if the needle occurs at some position |
| PlacementTest.FailLevel | moratalk_bot.py:236-242 | the level after failing a tier is the tier just below it, or A1 when the failed tier is A1 |
| PlacementTest.AnswerStep | moratalk_bot.py:193-249 | from counters in range, a test that goes on has counters in range and one question fewer left |
| PlacementTest.AnswerWithinTier | moratalk_bot.py:199-206 | before the fifth answer, the index grows by exactly 1, and the right count grows by 1 if and only if the answer equals the right option's label |
| PlacementTest.PassPromotes | moratalk_bot.py:208-229 | the fifth answer below C1 that leaves 4 or more right moves to the next tier with index and right count at 0 |
| PlacementTest.PassCeilingFinishes | moratalk_bot.py:230-234 | passing C1 ends the test at C1 |
| PlacementTest.FailFinishes | moratalk_bot.py:235-245 | failing A1 ends at A1, failing any other tier ends at the previous tier, and the final level is A1 or below the failed tier |
| PlacementTest.Run | moratalk_bot.py:193-249 | a sequence of answers leaves the counters in range, or it ends the test after between 1 and all of the answers |
| PlacementTest.RunningConsumes | moratalk_bot.py:205-229 | every answer that leaves the test running uses up exactly one remaining question |
| PlacementTest.RunEndsWithinRemaining | moratalk_bot.py:208-245 | the test has ended after as many answers as it had questions left |
| PlacementTest.RunPrefix | moratalk_bot.py:230-245 | once the test has ended, later answers make no difference |
| PlacementTest.RunAppend | moratalk_bot.py:193-249 | two batches of answers have the same effect as their concatenation |
| PlacementTest.RunBound | moratalk_bot.py:205-245 | from any point, the test sends at most as many more questions as are left |
| PlacementTest.AtMostTwentyFiveQuestions | moratalk_bot.py:130-136 | a test started at A1/0/0 ends within 25 answers and never shows a 26th question |
| PlacementScenarios.RightAnswersMatchBank | moratalk_bot.py:22-56 | the listed answers are the right options of each tier, in order |
| PlacementScenarios.AllRightAtA1 | moratalk_bot.py:212-229 | five right answers at A1 move the test to A2 with index 0 and right count 0 |
| PlacementScenarios.AllRightAtA2 | moratalk_bot.py:212-229 | five right answers at A2 move the test to B1 |
| PlacementScenarios.AllRightAtB1 | moratalk_bot.py:212-229 | five right answers at B1 move the test to B2 |
| PlacementScenarios.AllRightAtB2 | moratalk_bot.py:212-229 | five right answers at B2 move the test to C1 |
| PlacementScenarios.AllRightAtC1 | moratalk_bot.py:230-234 | five right answers at C1 end the test at C1 |
| PlacementScenarios.ThreeRightAtB1 | moratalk_bot.py:235-245 | three right answers out of five at B1 end the test at A2 |
| PlacementScenarios.TwoRightAtA1 | moratalk_bot.py:237-238 | two right answers out of five at A1 end the test at A1 |
| PlacementScenarios.AllRightEndsAtC1 | moratalk_bot.py:208-234 | answering every question right ends the test at C1 on exactly the 25th answer |
| QuestionBank.Bank | moratalk_bot.py:21-57 | `TEST_QUESTIONS[tier]`, the question list of a tier; `BankWellFormed` states its shape and `CorrectOptionIsUnique` states that its right answers are unambiguous |
| TextOps.Strip | moratalk_bot.py:89 | `str.strip()`; `StripSpec` shows it cuts exactly the whitespace at both ends, and `StripIdempotent` and `StripAllSpace` hold of it |
| TextOps.Contains | moratalk_bot.py:114 | Python's `needle in text`; `ContainsSpec` shows it holds if and only if the needle occurs at some position |
| PlacementTest.IsCorrect | moratalk_bot.py:200-202 | an answer is right when it equals the right option's label; `CorrectOptionIsUnique` shows exactly one option label passes, and `AnswerWithinTier` shows exactly such answers raise the right count |
| UserStore.Upsert | moratalk_bot.py:153-158 | after `users[id] = rec`, id holds rec, the key set gains only id, and every other id keeps its record |
| UserStore.UpsertLastWriteWins | moratalk_bot.py:257-262 | writing one id twice leaves only the second record |
| UserStore.UpsertCommutes | moratalk_bot.py:257-262 | writes for two different ids do not interfere |
| UserStore.LevelStore.Empty | moratalk_bot.py:59-64 | when no data file exists, loading gives the empty mapping |
| UserStore.LevelStore.Load | moratalk_bot.py:59-64 | loading returns the whole stored mapping |
| UserStore.LevelStore.Save | moratalk_bot.py:66-69 | saving replaces the whole stored mapping, so the next load returns what was saved |
| UserStore.LevelStore.Put | moratalk_bot.py:153-158 | load, set one key, save: the store becomes `Upsert` of what it was |
| Conversation.Step | moratalk_bot.py:379-403 | routes each message: /start (which writes no session key) goes to the name question in any phase, /menu goes to `OnMenu`, /cancel ends, non-command text goes to the current phase's handler, and other commands change nothing; every route keeps the phase invariant |
| Conversation.OtherCommandIgnored | moratalk_bot.py:384-401 | a command other than /start, /menu and /cancel leaves session, store and phase unchanged in every phase, since every state handler filters out commands |
| Conversation.NoUserDataValid | moratalk_bot.py:381-386 | a fresh session satisfies the invariant before /start and while the name is asked |
| Conversation.OnName | moratalk_bot.py:86-108 | `get_name`: the name becomes the stripped text, even an empty one, and the level question follows; `GetName` is proved equal to it, and `StripSpec` says what the name is |
| Conversation.OnLevelMethod | moratalk_bot.py:110-142 | `choose_level_method`: either it sets `choosing_level`, or it starts the test and counts its first question; `ChoosingTestStartsAtA1` shows the start at A1/0/0 without a store write |
| Conversation.OnLevelDirect | moratalk_bot.py:144-170 | `set_level_directly`: the first token becomes the level and is stored with the name before the menu; `DirectChoiceOfButton` and `StepWritesOnlyOnConfirm` state its effect |
| Conversation.OnAskingLevel | moratalk_bot.py:388-392 | the dispatch lambda: direct choice when `choosing_level` is set, choice of method otherwise; `ChoosingLevelSticky` shows the flag is never cleared |
| Conversation.OnTestAnswer | moratalk_bot.py:193-262 | `process_test_answer`, with the count of `send_test_question` and the write of `finish_test`; `TestAnswerGoesOn`, `TestAnswerEnds` and `FeedFollowsRun` state its effect |
| Conversation.OnMenu | moratalk_bot.py:309-324 | `menu_command`: a stored user gets name and level back and the menu opens; otherwise the conversation ends; `MenuLooksUpStore` states this as an if-and-only-if |
| Conversation.TestAnswerGoesOn | moratalk_bot.py:199-229 | the two ways an answer keeps the test running, written branch by branch |
| Conversation.TestAnswerEnds | moratalk_bot.py:230-245 | the two ways an answer ends the test, with the level written to session and store |
| Conversation.StepWritesOnlyOnConfirm | moratalk_bot.py:251-262 | a message either leaves the store unchanged, or it opens the menu and stores the session's name and new level under this user's id, all other ids unchanged |
| Conversation.ChoosingLevelSticky | moratalk_bot.py:389-391 | once `choosing_level` is set, no message clears it |
| Conversation.TotalQuestionsNeverReset | moratalk_bot.py:182-183 | `total_questions` never decreases and grows by at most 1 per message; during the test it grows by exactly 1 if and only if the test goes on |
| Conversation.MenuLooksUpStore | moratalk_bot.py:309-324 | /menu opens the menu if and only if the user id is stored; then it copies name and level, otherwise it ends with the session unchanged; the store is only read |
| Conversation.ButtonTokenIsLabel | moratalk_bot.py:144-149 | the text of a level button ("B2 - Upper-Intermediate") yields exactly the tier's label |
| Conversation.DirectChoiceOfButton | moratalk_bot.py:144-158 | after "I know my level", pressing a level button sets that tier's label and stores it with the name |
| Conversation.KnowLevelButtonSetsFlag | moratalk_bot.py:96-127 | pressing the "Знаю свой уровень 📊" button sets `choosing_level` and stays at the level question, with the rest of the session and the store unchanged |
| Conversation.TakeTestButtonStartsTest | moratalk_bot.py:96-142 | pressing the "Пройти тест 📝" button starts the test at A1/0/0, counts its first question and leaves the store alone |
| Conversation.DirectChoiceFromLevelQuestion | moratalk_bot.py:110-170 | "I know my level" followed by a level button opens the menu with that tier's label set and stored with the name |
| Conversation.Feed | moratalk_bot.py:384-395 | feeding several text messages keeps the phase invariant |
| Conversation.FeedInMenu | moratalk_bot.py:396-399 | text sent while the menu is shown changes nothing |
| Conversation.FeedFollowsRun | moratalk_bot.py:193-262 | answers fed to the conversation follow the test engine: while running, the counters are the engine's and one question is sent per answer; at the end the final level is in session and store |
| Conversation.ChoosingTestStartsAtA1 | moratalk_bot.py:129-142 | choosing the test starts it at A1/0/0, leaves the store alone and counts the first question |
| Conversation.TestRunAsksAtMostTwentyFive | moratalk_bot.py:130-136 | from the start of a test, at most 24 more questions follow the first, and after 25 answers the menu is shown |
| BotSession.Session.constructor | moratalk_bot.py:182 | a new user's `user_data` has no keys set; `total_questions` reads as its default 0, and the test counters, which the bot reads without a default, hold 0 but are not read before the test starts writes them (`Conversation.Valid`) |
| BotSession.Session.GetName | moratalk_bot.py:86-108 | sets the name to the stripped text and moves on to the level question |
| BotSession.Session.ChooseLevelMethod | moratalk_bot.py:110-142 | sets `choosing_level`, or starts the test at A1/0/0 and sends its first question |
| BotSession.Session.SetLevelDirectly | moratalk_bot.py:144-170 | sets the level to the first token and writes `{name, level}` under the user id |
| BotSession.Session.SendTestQuestion | moratalk_bot.py:172-191 | picks `TEST_QUESTIONS[test_level][test_question_index]`, which is well-formed, and counts one more question |
| BotSession.Session.ProcessTestAnswer | moratalk_bot.py:193-249 | updates counters, tier, level and store exactly as the test engine's step says |
| BotSession.Session.FinishTest | moratalk_bot.py:251-262 | sets the level to the tier's label and writes `{name, level}` under the user id |
| BotSession.Session.MenuCommand | moratalk_bot.py:309-324 | copies name and level from the store for a known user, otherwise ends and changes nothing |
| BotSession.Session.HandleLevelAnswer | moratalk_bot.py:388-392 | routes to the direct choice when `choosing_level` is set, else to the choice of method |

## Left out

- Telegram I/O is not modelled. That covers every `reply_text`, the reply and inline
  keyboards, `callback_query`, Markdown and all message wording. `SendTestQuestion` returns
  the question it would show, and nothing is delivered.
- The JSON file, `os.path.exists` and serialisation are not modelled. The store is an
  in-memory map. A store that was never written stands for a missing file. Reading and
  writing cannot fail in the model, so the `KeyError`/`IOError` paths are absent.
- Several processes sharing the data file are not modelled. Within one process each
  read-modify-write runs without interruption, and the model runs one handler at a time.
- `Conversation.Step` keeps one phase per user. The bot's `ConversationHandler` keeps its
  defaults `per_chat=True, per_user=True`, so it keeps a phase for each (chat, user) pair.
  `context.user_data` is one dictionary per user, shared by all of that user's chats. A test
  finished in one chat leaves `test_question_index` at 5. An answer in another chat that is
  still in the test phase then reads `TEST_QUESTIONS[level][5]` and raises `IndexError`, and
  that chat stays in the test phase. The model cannot reach this path. `Conversation.Valid`
  and the requires of `BotSession.Session.ProcessTestAnswer` (index below 5) hold only under
  one phase per user.
- `Conversation.Feed` runs one user's messages back to back and passes the store from each
  message to the next. Other users' handlers do not exist in the model, so they cannot write
  the store between two of this user's messages. `Conversation.FeedFollowsRun`'s claim that
  every other id is unchanged across a test run holds only under that assumption.
- `show_menu` only displays text (with the defaults "Friend" and "Unknown"), so it is not
  modelled.
- `handle_menu_button` only sends placeholder text and shows the menu again, so it is not
  modelled. Callback-query events are absent from `Event`.
- Whether a message is a bot command is decided by Telegram (`filters.COMMAND`), so it is
  not derived from the text. The event kind (`Text` or a command) is given as input.
- `start` and `cancel` appear only as transitions in `Conversation.Step`: /start goes to
  the name question and /cancel ends the conversation. Their messages are not modelled.
- `main`, the `Application`, polling, the bot token, logging and asyncio are not modelled.
  The `ConversationHandler` is kept only as the routing table in `Conversation.Step`:
  entry points work in every phase (`allow_reentry=True`), and text in the menu is ignored.
- `TextOps.IsSpace` lists the characters Python's `str.isspace()` accepts. Unicode
  normalisation and any other encoding issue are not modelled.
- `BotSession.Session.SetLevelDirectly`, `BotSession.Session.FinishTest` and
  `BotSession.Session.ProcessTestAnswer` require the name to be set. The bot would raise
  `KeyError` without it. `Conversation.Valid`, which `Conversation.Step` preserves, shows
  that a name is always set in the phases where these handlers run.
