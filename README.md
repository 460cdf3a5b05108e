# gymBot session core in Dafny

This project models the in-memory core of gymBot, a Telegram bot that guides a
user through a training program. The model covers these parts:

- **The program snapshot.** `ExerciseSet`, `Exercise`, `DayProgram` and
  `Program` are mutable records whose lists grow by appending. `ExerciseUpdate`
  is a builder that collects a pending edit one field at a time.
- **The per-user `StateMachine`.** It holds one primary state and three
  independent sub-states.
- **The succession of states.** This is a total successor function that ends
  in the cycle authenticated → type_program → type_day → ready → started →
  end → authenticated.
- **The reply-keyboard helpers.** They lay command names out in rows of two.
- **The state handlers that do bookkeeping.**
  - Started: routes a message on the two update sub-states and checks a typed
    set number.
  - Ready: starts or cancels a workout.
  - TypeDay: accepts or rejects the typed day.
- **The bot's session store.** It holds a state machine per user (created
  lazily), the user register, and the selected program and day. It
  dispatches each message to the handler of the user's state.

How the model treats things outside the core:

- Outgoing messages and the "advance the exercise index" call are appended to
  a `BotLog`.
- Database queries, and the bot operations the handlers call but the bot does
  not define, are parameters.
- Python exceptions are either preconditions, for crash paths of a caller, or
  an `Outcome` value of `Raised(...)`, where the handler itself ends in one.

Supporting modules:

- `Text` models the Python string operations the code relies on: `isspace`,
  `strip`, `split()[0]`, `int()`, `str(int)` and `f"{x:<w}"`.
- `Dict` models an insertion-ordered `dict` with `get` and `keys()`.

In some places the intended design goes further than the code. For example:
a typed set number should advance the dialogue, `/cancel` should discard the
day, and the selection should belong to one chat. In all such places the
model follows the code.

## Model

| member | source | states |
|---|---|---|
| ProgramClasses.ExerciseSet.constructor | src/program_classes.py:9-12 | a fresh set has weight, rest and reps all None |
| ProgramClasses.ExerciseSet.FillSet | src/program_classes.py:14-17 | weight, rest and reps hold exactly the three given values |
| ProgramClasses.ExerciseSet.UpdateWeight | src/program_classes.py:19-20 | weight takes the new value; rest and reps are unchanged |
| ProgramClasses.ExerciseSet.UpdateRest | src/program_classes.py:22-23 | rest takes the new value; weight and reps are unchanged |
| ProgramClasses.ExerciseSet.UpdateReps | src/program_classes.py:25-26 | reps takes the new value; weight and rest are unchanged |
| ProgramClasses.SetTextColumns | src/program_classes.py:28-29 | when reps, weight and rest fit widths 3, 5 and 3, the line is 41 characters long, with reps, weight and rest at the same columns in every line |
| ProgramClasses.SetLinesAt | src/program_classes.py:67-71 | the i-th display line (from 0) shows set i's values under the number i+1 |
| ProgramClasses.Exercise.constructor | src/program_classes.py:36-42 | a fresh exercise has no identity, name or notes and an empty set list |
| ProgramClasses.Exercise.SetName | src/program_classes.py:44-45 | only the name changes, to the given one |
| ProgramClasses.Exercise.SetId | src/program_classes.py:47-48 | only the id changes, to the given one |
| ProgramClasses.Exercise.SetComment | src/program_classes.py:50-51 | only the comment changes, to the given one |
| ProgramClasses.Exercise.SetExtraInfo | src/program_classes.py:53-54 | only the extra info changes, to the given one |
| ProgramClasses.Exercise.SetExerciseSets | src/program_classes.py:56-57 | the set list becomes the given list |
| ProgramClasses.Exercise.AddSet | src/program_classes.py:59-60 | the new set is appended; the count grows by one; it is both the last set and set number `GetNumSets()`; every earlier set number still gives the same set |
| ProgramClasses.Exercise.GetSet | src/program_classes.py:62-65 | fails with IndexError "Set number out of range." exactly when n < 1 or n > number of sets, and otherwise gives `sets[n-1]` |
| ProgramClasses.Exercise.GetLastSet | src/program_classes.py:73-74 | `sets[-1]` is set number `get_num_sets()`; an empty list raises IndexError |
| ProgramClasses.Exercise.GetNumSets | src/program_classes.py:76-77 | exactly the set numbers 1 to the count can be read with `get_set` |
| ProgramClasses.Exercise.ToString | src/program_classes.py:67-71 | the accumulated text is the name header followed by one `Set i:` line per set, i = 1..n in list order |
| ProgramClasses.AddedSetAddsLastLine | src/program_classes.py:67-71 | adding a set adds exactly one line to the display, at the end, numbered with the new count |
| ProgramClasses.DayProgram.constructor | src/program_classes.py:83-87 | a fresh day has no id, number or name and no exercises |
| ProgramClasses.DayProgram.SetId | src/program_classes.py:89-90 | only the id changes |
| ProgramClasses.DayProgram.SetDayNumber | src/program_classes.py:92-93 | only the day number changes |
| ProgramClasses.DayProgram.SetDayName | src/program_classes.py:95-96 | only the day name changes |
| ProgramClasses.DayProgram.AddExercise | src/program_classes.py:98-105 | the exercise is appended after the existing ones, which keep their order, and is then the last exercise |
| ProgramClasses.DayProgram.SetExercises | src/program_classes.py:101-102 | the exercise list becomes the given list |
| ProgramClasses.DayProgram.GetLastExercise | src/program_classes.py:104-105 | `exercises[-1]` is the last exercise of the list; an empty list raises IndexError |
| ProgramClasses.Program.constructor | src/program_classes.py:118-121 | a fresh program has no id or name and no days |
| ProgramClasses.Program.SetId | src/program_classes.py:123-124 | only the id changes |
| ProgramClasses.Program.SetProgramName | src/program_classes.py:126-127 | only the name changes |
| ProgramClasses.Program.SetDays | src/program_classes.py:129-130 | the day list becomes the given list |
| ProgramClasses.Program.AddDay | src/program_classes.py:132-133 | the day is appended after the existing ones, which keep their order; it is the last day and the count grows by one |
| ProgramClasses.Cleared | src/program_classes.py:145-151 | all six builder fields are None |
| ProgramClasses.Merge | src/program_classes.py:160-170 | chat_id is always replaced, even by None; each other field is replaced exactly when a non-None value is given |
| ProgramClasses.MergeIdempotent | src/program_classes.py:153-171 | repeating the same `set_values` call changes nothing more |
| ProgramClasses.MergeOnlyChatId | src/program_classes.py:153-171 | a call giving only the chat id keeps the five other fields |
| ProgramClasses.MergeAllGiven | src/program_classes.py:153-171 | a call giving every field replaces the whole record |
| ProgramClasses.MergeTwice | src/program_classes.py:153-171 | two calls act like one call with the second call's values where given and the first call's elsewhere |
| ProgramClasses.ExerciseUpdate.constructor | src/program_classes.py:145-151 | a fresh builder's fields equal the cleared fields |
| ProgramClasses.ExerciseUpdate.SetValues | src/program_classes.py:153-171 | the new fields are the merge of the old fields with the call's arguments, and the builder itself is returned |
| ProgramClasses.ExerciseUpdate.ClearValues | src/program_classes.py:173-179 | all six fields are None again, the same as a fresh builder's, so clearing twice is clearing once |
| StateMachines.StateValue | src/state_machine.py:3-11 | each state's declared value is below 8 |
| StateMachines.StateOf | src/state_machine.py:3-11 | `State(v)` is the member declared with value v |
| StateMachines.StateValuesBijective | src/state_machine.py:3-11 | the values 0..7 name the eight states one to one |
| StateMachines.UpdateSetOf | src/state_machine.py:13-17 | `SubStateUpdateSet(v)` is the member with value v, for v < 4 |
| StateMachines.LoginOf | src/state_machine.py:19-23 | `SubStateLogin(v)` is the member with value v, for v < 4 |
| StateMachines.UpdateExerciseOf | src/state_machine.py:25-27 | `SubStateUpdateExercise(v)` is the member with value v, for v < 2 |
| StateMachines.SubStateValuesBijective | src/state_machine.py:13-27 | the three sub-state enumerations are numbered 0..3, 0..3 and 0..1 without gaps or repeats |
| StateMachines.Initial | src/state_machine.py:30-34 | a new record is DEAD, with all three sub-states NONE |
| StateMachines.StateMachine.constructor | src/state_machine.py:30-34 | a new machine holds the initial record |
| StateMachines.WithState | src/state_machine.py:39-40 | setting the state changes only the state and never resets a sub-state |
| StateMachines.WithUpdateSet | src/state_machine.py:46-47 | the update-set setter changes only its own field |
| StateMachines.WithUpdateExercise | src/state_machine.py:53-54 | the update-exercise setter changes only its own field |
| StateMachines.WithLogin | src/state_machine.py:60-61 | the login setter changes only its own field |
| StateMachines.SettersLastWriteWins | src/state_machine.py:39-64 | the getter sees the last value set; setting a value twice equals setting it once |
| StateMachines.SettersCommute | src/state_machine.py:39-61 | setters of different fields commute |
| StateMachines.StateMachine.SetState | src/state_machine.py:39-40 | the machine's record becomes `WithState` of the old record |
| StateMachines.StateMachine.SetSubstateUpdateSet | src/state_machine.py:46-47 | the record becomes `WithUpdateSet` of the old record |
| StateMachines.StateMachine.SetSubstateUpdateExercise | src/state_machine.py:53-54 | the record becomes `WithUpdateExercise` of the old record |
| StateMachines.StateMachine.SetSubstateLogin | src/state_machine.py:60-61 | the record becomes `WithLogin` of the old record |
| StateGraph.NextStateKey | src/telegram_bot/state_handlers/state_graph.py:44 | `.get` finds a successor exactly for the table's keys, and returns the table's value |
| StateGraph.GetNextState | src/telegram_bot/state_handlers/state_graph.py:40-46 | the lookup succeeds exactly for the names in the succession table, giving the registry's class path for the successor; any other name raises KeyError |
| StateGraph.SuccessionTargetsRegistered | src/telegram_bot/state_handlers/state_graph.py:44-45 | every successor named in the succession table has a class path in the registry |
| StateGraph.StateNamed | src/telegram_bot/state_handlers/state_graph.py:29-38 | a table name read as a state names that state back |
| StateGraph.NameRoundTrip | src/telegram_bot/state_handlers/state_graph.py:29-38 | every state has its own name, which reads back as the state |
| StateGraph.SuccessionsAgree | src/telegram_bot/state_handlers/state_graph.py:29-38 | the table maps each state's name to its successor's name |
| StateGraph.SuccessionsKeys | src/telegram_bot/state_handlers/state_graph.py:29-38 | the table's keys are exactly the eight state names, so it is total with one successor each |
| StateGraph.GetNextStateKnown | src/telegram_bot/state_handlers/state_graph.py:44-45 | for any known state the registry lookup succeeds and gives the successor's handler path |
| StateGraph.GetNextStateUnknown | src/telegram_bot/state_handlers/state_graph.py:44-45 | an unknown name gives a None key and the registry lookup fails |
| StateGraph.SuccessorShape | src/telegram_bot/state_handlers/state_graph.py:29-38 | no state leads to dead, and only dead leads to login |
| StateGraph.CycleClosed | src/telegram_bot/state_handlers/state_graph.py:31-37 | the six states from authenticated to end are closed under succession |
| StateGraph.EventuallyInCycle | src/telegram_bot/state_handlers/state_graph.py:29-38 | from any state, two or more steps land in the cycle |
| StateGraph.SixStepsReturn | src/telegram_bot/state_handlers/state_graph.py:31-37 | six steps bring every cycle state back to itself |
| StateGraph.WholeTurnsReturn | src/telegram_bot/state_handlers/state_graph.py:31-37 | any whole number of turns round the cycle returns to the start |
| StateGraph.ChainFromDead | src/telegram_bot/state_handlers/state_graph.py:30-37 | the chain is dead, login, authenticated, type_program, type_day, ready, started, end, authenticated |
| StateGraph.SuccessorValue | src/telegram_bot/state_handlers/state_graph.py:30-36 | every step except end → authenticated goes to the state declared with the next value |
| Utils.PairsCount | src/utils.py:18-20 | chunking gives ceil(n/2) rows, and none for no keys |
| Utils.PairsFlatten | src/utils.py:18-19 | the rows read in order give back the keys in order |
| Utils.PairsShape | src/utils.py:18-19 | every row has two keys, except the last, which has one exactly when n is odd |
| Utils.PaddedPairs | src/utils.py:13-20 | after padding every row has two keys; there are ceil(n/2) rows; they read back as the keys plus the placeholder exactly when n was odd |
| Utils.ChunkPairs | src/utils.py:16-20 | the `range(0, len, 2)` loop builds exactly the pairs of the keys |
| Utils.GetReplyMarkup | src/utils.py:8-20 | the caller's list is padded in place with "- - -" when odd, and the markup is its pairs |
| BaseHandler.BaseStateHandler.constructor | src/telegram_bot/state_handlers/base_handler.py:5-10 | next state, update and context are None, and the callback table is empty |
| BaseHandler.BaseStateHandler.GetCallbacks | src/telegram_bot/state_handlers/base_handler.py:21-25 | exactly the table's keys, each once |
| BaseHandler.BaseStateHandler.GetMarkupKeyboard | src/telegram_bot/state_handlers/base_handler.py:27-38 | the next state's keys in rows of two, without padding (keys taken as a list) |
| BaseHandler.Slice | src/telegram_bot/state_handlers/base_handler.py:37 | slicing a `dict_keys` view raises TypeError; slicing a list clamps the end to the length |
| BaseHandler.ChunkFromList | src/telegram_bot/state_handlers/base_handler.py:34-38 | the loop over a list of keys builds exactly the rows of two of the keys from `start` on |
| BaseHandler.MarkupKeyboardAsWritten | src/telegram_bot/state_handlers/base_handler.py:32-38 | with the `dict_keys` view the loop raises TypeError exactly when there is at least one key; no key gives an empty keyboard |
| BaseHandler.MarkupKeyboardAsWrittenFails | src/telegram_bot/state_handlers/base_handler.py:32-37 | as written the keyboard of a non-empty table fails, while the same loop over a list has ceil(n/2) rows that read back as the keys |
| TelegramBotClass.StateHandler | src/telegram_bot/telegram_bot_class.py:46-55 | each state's handler is registered for that state and no other |
| TelegramBotClass.StateHandlersDistinct | src/telegram_bot/telegram_bot_class.py:46-55 | the handler table covers all eight states, each with a handler of its own |
| TelegramBotClass.TelegramBot.constructor | src/telegram_bot/telegram_bot_class.py:24-58 | empty state-machine map, user register and chat map; both selections start as `{}` |
| TelegramBotClass.TelegramBot.HandleMessage | src/telegram_bot/telegram_bot_class.py:109-125 | an unseen user gets a fresh machine in DEAD; an existing machine is kept; other users' entries are unchanged; the handler is the one registered for the user's state |
| TelegramBotClass.TelegramBot.AddUser | src/telegram_bot/telegram_bot_class.py:66-74 | the user's record is inserted or overwritten with the new chat id, username and first name, and the user is registered |
| TelegramBotClass.TelegramBot.RemoveUser | src/telegram_bot/telegram_bot_class.py:76-81 | the user is no longer registered; other records are unchanged; removing an absent id changes nothing |
| TelegramBotClass.TelegramBot.SetSelectedProgram | src/telegram_bot/telegram_bot_class.py:142-146 | the one bot-wide selection holds the program |
| TelegramBotClass.TelegramBot.GetSelectedProgram | src/telegram_bot/telegram_bot_class.py:148-152 | the selected program, which must have been set |
| TelegramBotClass.TelegramBot.ClearProgram | src/telegram_bot/telegram_bot_class.py:154-159 | both selections become None |
| TelegramBotClass.TelegramBot.SetSelectedDayId | src/telegram_bot/telegram_bot_class.py:161-171 | the getter then returns the value just set |
| TelegramBotClass.TelegramBot.CheckAndSetProgram | src/telegram_bot/telegram_bot_class.py:173-185 | an id that does not read as an int gives false; one that does raises KeyError exactly when the chat is not in `id_users`; true exactly when it parses, the chat is mapped and the ownership check passes; only then is the selection replaced, by the loaded program |
| TelegramBotClass.TelegramBot.CheckDay | src/telegram_bot/telegram_bot_class.py:188-192 | the bodiless check never accepts |
| StartedState.CommandTableKeys | src/telegram_bot/state_handlers/started_state.py:11-18 | the table's keys are the six command words in written order |
| StartedState.CommandTableValues | src/telegram_bot/state_handlers/started_state.py:11-18 | each word gives the callback written beside it |
| StartedState.CommandTableFallback | src/telegram_bot/state_handlers/started_state.py:84-86 | a word falls back to the default handler exactly when it is not one of the six commands |
| StartedState.CommandTableIsLiteral | src/telegram_bot/state_handlers/started_state.py:11-18 | the table equals the dict built from the literal |
| StartedState.CommandTableStubs | src/telegram_bot/state_handlers/started_state.py:11-18 | every entry of the constructor's table is a stub |
| StartedState.CommandIn | src/telegram_bot/state_handlers/started_state.py:51-52 | `split()[0]` is missing exactly when the text is all whitespace, which raises IndexError; a callback other than the default handler comes from a word that is a key of the table |
| StartedState.CheckSetNumber | src/telegram_bot/state_handlers/started_state.py:53-68 | the typed number goes on exactly when it parses and lies in 1..set count; a parse failure gives the "valid set number" reply |
| StartedState.FirstMatch | src/telegram_bot/state_handlers/started_state.py:49-74 | a `match` over value patterns takes the first arm equal to the subject, and no arm when none is |
| StartedState.ArmSelection | src/telegram_bot/state_handlers/started_state.py:49-74 | with no exercise update the update-set sub-state picks its own arm, NONE to TYPE_NEW_VALUE in order; during an exercise update no arm matches |
| StartedState.MatchEffect | src/telegram_bot/state_handlers/started_state.py:49-74 | the `match` takes at most one action, and one whenever it ends the handling |
| StartedState.MatchEffectCases | src/telegram_bot/state_handlers/started_state.py:49-74 | with no update in progress the `match` calls the command when the call is inside it, and that ends the handling unless the call completes (a missing word raises IndexError, the default handler TypeError); in TYPE_SET it replies and returns exactly when the set-number check gives a reply; every other pair of sub-states does nothing there |
| StartedState.RouteWith | src/telegram_bot/state_handlers/started_state.py:49-86 | a message causes one or two actions, and two exactly when the command is called inside the `match`, no update is in progress and that call completes; the two are calls of that command |
| StartedState.RouteAsWritten | src/telegram_bot/state_handlers/started_state.py:49-86 | as written, when a message causes two actions they are the same command of the handler's table, called twice |
| StartedState.Route | src/telegram_bot/state_handlers/started_state.py:49-86 | for a table of stubs, a call goes to a stub or to the default handler |
| StartedState.RouteCorrectedCallsStubs | src/telegram_bot/state_handlers/started_state.py:49-86 | the corrected routing causes exactly one action, and calls a stub or the default handler whenever the command does |
| StartedState.AsWrittenCallsCommandTwice | src/telegram_bot/state_handlers/started_state.py:50-86 | with no update in progress the code as written calls a command twice; a word that is no command reaches the default handler once, and text with no word raises IndexError once, since those calls end the handling; the corrected routing makes the one call |
| StartedState.NoUpdateCalls | src/telegram_bot/state_handlers/started_state.py:50-86 | the same, for any command and set-number check |
| StartedState.AsWrittenSubStateLookupsMiss | src/telegram_bot/state_handlers/started_state.py:22-30 | during an update, every call the code as written makes goes to the default handler |
| StartedState.AsWrittenTablesMiss | src/telegram_bot/state_handlers/started_state.py:22-30 | the same, for any command and set-number check |
| StartedState.LastArmNeverMatches | src/telegram_bot/state_handlers/started_state.py:49-74 | the last arm lists the members in the wrong order, so the `match` never takes it |
| StartedState.RouteTypeSetCheck | src/telegram_bot/state_handlers/started_state.py:53-68 | in TYPE_SET the corrected routing gives the check's reply, or `type_set` when there is none, whatever the command |
| StartedState.RouteTypeSet | src/telegram_bot/state_handlers/started_state.py:53-68 | in TYPE_SET, a non-integer gets "Please enter a valid set number.", a number outside 1..set count gets the out-of-range reply, and a number in range reaches `type_set` |
| StartedState.RouteSubStates | src/telegram_bot/state_handlers/started_state.py:76-82 | a set update decides the call before an exercise update; an exercise update reaches `type_expression` |
| StartedState.UpdateSteps | src/telegram_bot/state_handlers/started_state.py:76-82 | the same, for any command and set-number check |
| StartedState.Effect | src/telegram_bot/state_handlers/started_state.py:88-186 | a reply or a stub sends exactly one message and completes; the default handler sends nothing and ends in TypeError; an IndexError ends the handling with nothing sent |
| StartedState.StartedStateHandler.constructor | src/telegram_bot/state_handlers/started_state.py:8-18 | the handler's table is the six-command table, whose entries are all stubs |
| StartedState.StartedStateHandler.Respond | src/telegram_bot/state_handlers/started_state.py:49-86 | with the corrected routing: the bot calls and the outcome are those of the one action `Route` picks with the handler's table (as written, see `RouteAsWritten`) |
| StartedState.StartedStateHandler.HandleMessage | src/telegram_bot/state_handlers/started_state.py:35-86 | with the corrected routing: stores the update and context; the chat's state machine is unchanged; the bot calls and the outcome are those of the one action `Route` picks on the chat's sub-states with the handler's table |
| ReadyState.CommandTableLookup | src/telegram_bot/state_handlers/ready_state.py:11-14 | only `/start_workout` and `/cancel` have callbacks; any other word falls back to the default handler |
| ReadyState.CommandTableIsLiteral | src/telegram_bot/state_handlers/ready_state.py:11-14 | the table equals the dict built from the literal |
| ReadyState.Started | src/telegram_bot/state_handlers/ready_state.py:35-37 | the state is STARTED, both update sub-states are NONE, and the login sub-state is kept |
| ReadyState.StartCalls | src/telegram_bot/state_handlers/ready_state.py:39-54 | on failure only the error message is sent; on success the greeting, then the exercise, then one index advance |
| ReadyState.StartCallsAdvanceOnce | src/telegram_bot/state_handlers/ready_state.py:46-54 | the index is advanced exactly once on success, as the last call, and never on failure |
| ReadyState.ReadyStateHandler.constructor | src/telegram_bot/state_handlers/ready_state.py:8-14 | the handler's table is the two-command table |
| ReadyState.ReadyStateHandler.StartWorkoutCommand | src/telegram_bot/state_handlers/ready_state.py:31-54 | the record becomes `Started` of the old one before the start is attempted, and the bot calls are `StartCalls` |
| ReadyState.SetStateLookup | src/telegram_bot/state_handlers/ready_state.py:60 | `set_state` is found exactly on a single state machine; on the bot's dict of machines the lookup raises AttributeError |
| ReadyState.ReadyStateHandler.CancelAsWritten | src/telegram_bot/state_handlers/ready_state.py:56-60 | as written `cancel` looks `set_state` up on the bot's dict of machines, so it raises AttributeError before anything changes or is sent |
| ReadyState.ReadyStateHandler.Cancel | src/telegram_bot/state_handlers/ready_state.py:56-66 | the state becomes AUTHENTICATED with sub-states and selections kept, and "Workout cancelled." is sent |
| ReadyState.ReadyStateHandler.Dispatch | src/telegram_bot/state_handlers/ready_state.py:28-29 | with the corrected cancel: `/start_workout` takes effect as in `StartWorkoutCommand` and `/cancel` as in `Cancel`; any other word ends in TypeError and no word in IndexError, each with nothing changed or sent |
| ReadyState.ReadyStateHandler.HandleMessage | src/telegram_bot/state_handlers/ready_state.py:21-29 | with the corrected cancel: stores the update and context, and the text's first word takes effect as in `Dispatch`; text with no word ends in IndexError |
| TypeDayState.TypeDayStateHandler.constructor | src/telegram_bot/state_handlers/type_day_state.py:9-12 | a base handler with no update, context or commands |
| TypeDayState.TypeDayStateHandler.HandleMessage | src/telegram_bot/state_handlers/type_day_state.py:14-34 | an accepted day is stored as the raw text; otherwise both selections are cleared; one message is sent either way; no state machine changes |
| TypeDayState.TypeDayStateHandler.HandleMessageWithBotCheck | src/telegram_bot/state_handlers/type_day_state.py:21-34 | with the bot's bodiless `check_day` every message clears the selection and records the wrong-day reply (never delivered as written, since its `send_message` is not awaited) |
| Text.FirstToken | src/telegram_bot/state_handlers/started_state.py:51 | `split()[0]` exists exactly when the text has a non-space character, and is then a non-empty run of non-space characters |
| Text.FirstTokenShape | src/telegram_bot/state_handlers/started_state.py:51 | the first token is a maximal run of non-space characters, preceded only by whitespace |
| Text.FirstTokenOfTrimmed | src/telegram_bot/state_handlers/started_state.py:51 | the first token is the token that starts the text left after its leading whitespace |
| Text.StripKeepsNoDigit | src/telegram_bot/state_handlers/started_state.py:55 | stripping adds no digit |
| Text.ParseSignedNeedsADigit | src/telegram_bot/state_handlers/started_state.py:55 | text without a digit, signed or not, does not parse |
| Text.ParseIntOfIntToString | src/telegram_bot/state_handlers/started_state.py:55 | `int(str(i)) == i` |
| Text.ParseInt | src/telegram_bot/state_handlers/started_state.py:54-61 | `int()` accepts only text that holds a digit; the empty text and text without a digit are refused |
| Text.PadRightShape | src/program_classes.py:29 | `f"{s:<w}"` keeps s as its prefix, pads with spaces only, and is max(w, len(s)) long |
| Dict.Insert | src/telegram_bot/state_handlers/started_state.py:11-18 | `d[key] = value` keeps the dict valid: the key set gains the key, the key maps to the value, other keys keep theirs, and a new key goes last while an existing one keeps its place |
| Dict.FromDistinctEntries | src/telegram_bot/state_handlers/started_state.py:11-18 | a dict literal with distinct keys lists them in written order, each with the value written beside it |
| Dict.FromDistinctEntriesUnique | src/telegram_bot/state_handlers/ready_state.py:11-14 | such a literal is the only valid dict with those keys, in that order, and those values |

## Left out

- Telegram transport. `send_message` becomes a `SendMessage` entry in the
  bot's log, and reply-markup arguments are dropped. `run`, `button_click`
  and the `Application` setup are not modelled.
- The database. `check_program` and `get_selected_program` are function
  parameters of `CheckAndSetProgram`. `check_username`, `check_user`,
  `get_string_programs` and `get_programs_details` only forward to the
  database and are not modelled.
- The bot operations the handlers call but the bot does not define:
  - `get_set_number` is the `setCount` parameter.
  - `set_user_workout_started` and `get_next_exercise` are the
    `workoutStarted` and `nextExercise` parameters.
  - `increment_exercise_index` is a logged call.
- Dynamic class loading. `resolve_class` and the `importlib` call in
  `get_next_state` are not modelled; `GetNextState` returns the class path.
- The handler constructors' `super().get_next_state()` is not modelled.
  `BaseStateHandler` has no such method, so constructing the Started or Ready
  handler raises AttributeError. The modelled constructors leave the next
  state null.
- TypeDay's module-level problems are not modelled: the import of
  `BaseHandler` from `base_handler` (a module and a name that do not exist)
  and `ReadyStateHandler(bot=None)`. The model builds this handler on
  `BaseStateHandler`.
- TypeDayState.TypeDayStateHandler.HandleMessage: records each reply as sent.
  The source calls `send_message` without `await`, so the reply is never
  delivered. In the accept branch, `super(self.next_state, self)` also raises
  TypeError before the call.
- TypeDayState.TypeDayStateHandler.HandleMessageWithBotCheck: goes through
  `HandleMessage`, so the wrong-day reply is recorded as sent. As written
  (type_day_state.py:31-34) its `send_message` is not awaited and nothing is
  sent; only `clear_program` takes effect.
- Updates without a message, and messages without text, are not modelled:
  `Update` always has a `message` and `Message.text` is a string. The bot
  registers `handle_message` for every update (`filters.ALL`,
  telegram_bot_class.py:42), so as written:
  - an update with no `message` (an edited message, a channel post) raises
    AttributeError at `update.message.from_user` (telegram_bot_class.py:113)
    before anything changes;
  - a message whose `text` is None (a photo, a sticker) raises
    AttributeError at `message.text.split()` in the Ready handler
    (ready_state.py:28) and in the Started handler's no-update arm
    (started_state.py:51); the TYPE_SET step
    would raise TypeError at `int(message.text)` (started_state.py:55),
    which `except ValueError` does not catch;
  - in TypeDay such a message reaches `check_day` with `day_id=None`; the
    bot's `check_day` answers None, so the selection is cleared as for any
    other text.
- StartedState.StartedStateHandler.Respond: carries out the corrected
  `Route`, not the routing as written. As written, a completing command
  under both update sub-states NONE is awaited twice, and during an update
  the swapped tables miss, so awaiting `default_handler`'s None raises
  TypeError. `RouteAsWritten`, `AsWrittenCallsCommandTwice` and
  `AsWrittenSubStateLookupsMiss` state the as-written behaviour.
- StartedState.StartedStateHandler.HandleMessage: follows `Respond`, so it
  has the corrected routing described in the line above, not the one
  written at started_state.py:50-86.
- ReadyState.ReadyStateHandler.Dispatch: runs the corrected `Cancel` for
  "/cancel" (AUTHENTICATED, "Workout cancelled." sent, Completed). As
  written, ready_state.py:60 raises AttributeError with nothing changed or
  sent, which `CancelAsWritten` states.
- ReadyState.ReadyStateHandler.HandleMessage: goes through `Dispatch`, so
  "/cancel" has the corrected effect of the line above.
- StartedState.StartedStateHandler.HandleMessage: calls a set-update or
  exercise-update step as if it accepted the `message=` argument. As written
  the stubs take no argument, and such a call raises TypeError.
- `default_handler` is modelled only as sending nothing and ending in
  TypeError. Its `send_message` is not awaited. In the command path it is
  called without its argument; in the sub-state path its None result is
  awaited.
- Python crash paths of callers become preconditions:
  - `get_selected_program` before a program was set;
  - a handler reading a chat that has no state machine;
  - `get_markup_keyboard` with no next state: `GetMarkupKeyboard` requires
    a next state, where the source raises AttributeError on None.
- The state map is keyed by `from_user.id` in `handle_message` but read by
  `chat.id` in the handlers. The model assumes the two coincide, as in
  private chats.
- TelegramBotClass.TelegramBot.HandleMessage: returns the handler to run
  instead of awaiting its `handle_message`, because the handler modules
  depend on the bot module.
- TelegramBotClass.TelegramBot.GetSelectedProgram: returns the selected
  `Program` itself, not its `to_string()` text.
- `DayProgram.to_string` and `Program.to_string` are not modelled. They only
  display data and are outside the bookkeeping core. They repeat the
  `Exercise.to_string` accumulation one level up.
- `Exercise.updated` is never read and is not modelled.
- Float rendering is not modelled. `weight` is a `real`, and Python's
  rendering of it is the `showWeight` parameter of the display functions.
- ProgramClasses.Exercise.ToString: requires every set to be filled.
  Formatting a None field with a width raises in Python.
- List aliasing is not modelled. `set_exercise_sets`, `set_exercises` and
  `set_days` store the caller's list object, so later appends are shared with
  the caller. The model stores a sequence value, which shares nothing.
- `Utils.GetReplyMarkup` takes an object whose `callbacks` is a list. A
  handler's `callbacks` is a dict, and that case is not modelled. With an odd
  number of keys, `keys.append` raises AttributeError. With an even, non-zero
  number, the first failure is the subscript `keys[i:i+2]` in the loop. An
  empty dict gives an empty keyboard.
- `id_users` is never written. `__init__` sets it to `{}`, and no code
  assigns or fills it; it is only read, in `get_programs`,
  `get_programs_details` and `check_and_set_program`. So every program id
  that reads as an integer ends in KeyError, and the accepting branch is
  unreachable. The chat-to-user mapping would come from the login flow,
  which is not modelled. `CheckAndSetProgram` states the outcome for any
  content of `idUsers`, and the model, like the source, never fills it.
- Text.ParseInt: accepts only ASCII decimal digits. Python's `int()` also
  accepts other Unicode decimal digits.
- The Dead, Login, Authenticated, TypeProgram and End handlers only send
  messages or call operations that do not exist, and are not modelled.
- `print` output is not modelled.
- `async` scheduling is not modelled: each message is handled to completion.

## Findings

| source | as written | input that shows it | evidently intended | confidence | as-written member | corrected member |
|---|---|---|---|---|---|---|
| src/telegram_bot/state_handlers/base_handler.py:32-37 | `keys` is a `dict_keys` view, and `keys[i:i+2]` raises TypeError | any next state with at least one command, e.g. Started's six | chunk `list(keys)` into rows of two | high, not executed | BaseHandler.MarkupKeyboardAsWrittenFails | BaseHandler.BaseStateHandler.GetMarkupKeyboard |
| src/telegram_bot/state_handlers/started_state.py:50-86 | with no update in progress a command word's callback is awaited inside the match and again after it; a word that is no command reaches `default_handler` without its argument, which raises TypeError, so that case makes one call | "/next_set" with both update sub-states NONE | call the command once | high, not executed | StartedState.AsWrittenCallsCommandTwice | StartedState.Route |
| src/telegram_bot/state_handlers/started_state.py:22-30 | `update_set_callbacks` is keyed by an exercise sub-state and `update_exercise_callbacks` by set sub-states, so lookups with the own sub-state always miss | update-set sub-state TYPE_WHAT, any text | each table holds its own update's steps, keyed by its own sub-state | high, not executed | StartedState.AsWrittenSubStateLookupsMiss | StartedState.RouteSubStates |
| src/telegram_bot/state_handlers/ready_state.py:60 | `set_state` is called on the bot's dict of machines, which raises AttributeError | "/cancel" in the ready state | set the chat's own machine to AUTHENTICATED | high, not executed | ReadyState.ReadyStateHandler.CancelAsWritten | ReadyState.ReadyStateHandler.Cancel |
