/** The handler of a started workout. A message is routed on the pair of
    update sub-states: with no update in progress its first word is a
    command; while a set is being updated the text goes to the step of the
    set update (after the set number is checked); while an exercise is
    being updated it goes to the exercise-expression step. Every callback
    is a stub that sends a fixed text. */
module StartedState {
  import opened Wrappers
  import opened Text
  import opened Dict
  import opened StateMachines
  import opened BaseHandler
  import opened TelegramBotClass

  /** The command table built in the constructor, in its written order. */
  const Commands: seq<(string, Callback)> := [
    ("/prev_exercise", PrevExercise),
    ("/next_exercise", NextExercise),
    ("/prev_set", PrevSet),
    ("/next_set", NextSet),
    ("/update_exercise", UpdateExerciseCommand),
    ("/update_set", UpdateSetCommand)
  ]

  /** The six command words. */
  const CommandWords: seq<string> :=
    ["/prev_exercise", "/next_exercise", "/prev_set", "/next_set", "/update_exercise", "/update_set"]

  /** The dict the literal builds: the words in order, each with its callback. */
  function CommandTable(): (d: Dict<string, Callback>)
    ensures d.Valid() && d.Keys() == CommandWords
  {
    Dict(CommandWords, map[
      "/prev_exercise" := PrevExercise,
      "/next_exercise" := NextExercise,
      "/prev_set" := PrevSet,
      "/next_set" := NextSet,
      "/update_exercise" := UpdateExerciseCommand,
      "/update_set" := UpdateSetCommand])
  }

  /** The table's keys are the words as written. */
  lemma CommandTableKeys()
    ensures CommandTable().Keys() == KeysOf(Commands)
  {
    assert KeysOf(Commands) == CommandWords;
  }

  /** Each word gives the callback written beside it. */
  lemma CommandTableValues()
    ensures forall i :: 0 <= i < |Commands| ==> CommandTable().Get(Commands[i].0, DefaultHandler) == Commands[i].1
  {
    var d := CommandTable();
    assert d.entries == map[
      "/prev_exercise" := PrevExercise,
      "/next_exercise" := NextExercise,
      "/prev_set" := PrevSet,
      "/next_set" := NextSet,
      "/update_exercise" := UpdateExerciseCommand,
      "/update_set" := UpdateSetCommand];
    forall i | 0 <= i < |Commands|
      ensures d.Get(Commands[i].0, DefaultHandler) == Commands[i].1
    {
      assert Commands[i].0 in d.entries && d.entries[Commands[i].0] == Commands[i].1;
    }
  }

  /** A word that is not a command falls back to the default handler, and
      only such a word does. */
  lemma CommandTableFallback(word: string)
    ensures CommandTable().Get(word, DefaultHandler) != DefaultHandler <==> word in CommandWords
  {
    var d := CommandTable();
    assert forall k :: k in d.entries ==> d.entries[k] != DefaultHandler;
  }

  /** The table is the dict the constructor's literal builds. */
  lemma CommandTableIsLiteral()
    ensures FromEntries(Commands) == CommandTable()
  {
    assert DistinctKeys(Commands);
    CommandTableKeys();
    CommandTableValues();
    FromDistinctEntriesUnique(Commands, CommandTable());
  }

  /** The callback a message's first word names in a command table, with
      the default handler for a word the table lacks; None when the text has
      no word, where `split()[0]` raises IndexError. */
  function CommandIn(table: Dict<string, Callback>, text: string): (c: Option<Callback>)
    ensures c.None? <==> forall i :: 0 <= i < |text| ==> IsSpace(text[i])
    ensures c.Some? && c.value != DefaultHandler ==> FirstToken(text).value in table.entries
  {
    match FirstToken(text)
    case None => None
    case Some(word) => Some(table.Get(word, DefaultHandler))
  }

  /** Calling the named command: the call, or the IndexError raised while
      looking for the word. */
  function CallOf(command: Option<Callback>): Action
  {
    match command
    case None => Raise("IndexError")
    case Some(cb) => Invoke(cb)
  }

  /** Whether calling the command inside the `match` completes: there is a
      word, and it names a command, not the default handler, which is
      called there without its `message` argument and so raises TypeError. */
  predicate Completes(command: Option<Callback>)
  {
    command.Some? && command.value != DefaultHandler
  }

  /** A key of a sub-state table. Members of different enumerations are
      never equal, so a key remembers which enumeration it comes from. */
  datatype SubStateKey = SetKey(updateSet: SubStateUpdateSet) | ExerciseKey(updateExercise: SubStateUpdateExercise)

  /** `update_set_callbacks` and `update_exercise_callbacks`. */
  datatype Tables = Tables(updateSet: map<SubStateKey, Callback>, updateExercise: map<SubStateKey, Callback>)

  /** The tables as the constructor writes them: the expression step is
      filed under the set update, keyed by an exercise sub-state, and the
      three set steps under the exercise update, keyed by set sub-states. */
  const TablesAsWritten: Tables := Tables(
    map[ExerciseKey(TYPE_EXPRESSION) := TypeExpression],
    map[SetKey(TYPE_SET) := TypeSet, SetKey(TYPE_WHAT) := TypeWhat, SetKey(TYPE_NEW_VALUE) := TypeNewValue])

  /** Each table holding the steps of its own update, keyed by its own
      sub-state. */
  const TablesCorrected: Tables := Tables(
    map[SetKey(TYPE_SET) := TypeSet, SetKey(TYPE_WHAT) := TypeWhat, SetKey(TYPE_NEW_VALUE) := TypeNewValue],
    map[ExerciseKey(TYPE_EXPRESSION) := TypeExpression])

  /** `table.get(key, default_handler)`. */
  function Lookup(table: map<SubStateKey, Callback>, key: SubStateKey): Callback
  {
    if key in table then table[key] else DefaultHandler
  }

  const InvalidSetNumberText: string := "Please enter a valid set number."
  const SetOutOfRangeText: string := "Set number out of range. Please enter a valid set number."

  /** The `TYPE_SET` arm's check of the typed set number against the number
      of sets: the reply that ends the call, or None to go on. */
  function CheckSetNumber(text: string, setCount: int): (reply: Option<string>)
    ensures reply == None <==> ParseInt(text).Some? && 1 <= ParseInt(text).value <= setCount
    ensures reply == Some(InvalidSetNumberText) <==> ParseInt(text).None?
    ensures reply == Some(SetOutOfRangeText) <==>
      ParseInt(text).Some? && (ParseInt(text).value < 1 || ParseInt(text).value > setCount)
  {
    match ParseInt(text)
    case None => Some(InvalidSetNumberText)
    case Some(n) => if n < 1 || n > setCount then Some(SetOutOfRangeText) else None
  }

  /** What handling a message does: send a reply, call a callback, or
      raise before any call. */
  datatype Action = Reply(text: string) | Invoke(callback: Callback) | Raise(error: string)

  /** The subject of `handle_message`'s `match`: the two sub-states, each
      as a key that remembers its enumeration. */
  function Subject(updateSet: SubStateUpdateSet, updateExercise: SubStateUpdateExercise): (SubStateKey, SubStateKey)
  {
    (SetKey(updateSet), ExerciseKey(updateExercise))
  }

  /** The value patterns of the `match` arms, in written order. The last
      one lists an exercise member first and a set member second. */
  const MatchArms: seq<(SubStateKey, SubStateKey)> := [
    (SetKey(SubStateUpdateSet.NONE), ExerciseKey(SubStateUpdateExercise.NONE)),
    (SetKey(TYPE_SET), ExerciseKey(SubStateUpdateExercise.NONE)),
    (SetKey(TYPE_WHAT), ExerciseKey(SubStateUpdateExercise.NONE)),
    (SetKey(TYPE_NEW_VALUE), ExerciseKey(SubStateUpdateExercise.NONE)),
    (ExerciseKey(TYPE_EXPRESSION), SetKey(SubStateUpdateSet.NONE))
  ]

  /** A `match` over value patterns: the index of the first arm equal to
      the subject, or the number of arms when no arm is. */
  function FirstMatch<T(==)>(arms: seq<T>, subject: T): (k: nat)
    ensures k <= |arms|
    ensures k < |arms| ==> arms[k] == subject
    ensures forall j :: 0 <= j < k ==> arms[j] != subject
  {
    if arms == [] then 0
    else if arms[0] == subject then 0
    else 1 + FirstMatch(arms[1..], subject)
  }

  /** The arm `handle_message`'s `match` takes for these sub-states. */
  function SelectArm(updateSet: SubStateUpdateSet, updateExercise: SubStateUpdateExercise): (k: nat)
    ensures k <= |MatchArms|
  {
    FirstMatch(MatchArms, Subject(updateSet, updateExercise))
  }

  /** With no exercise update, the update-set sub-state picks its own arm,
      in the order NONE, TYPE_SET, TYPE_WHAT, TYPE_NEW_VALUE; during an
      exercise update no arm matches. */
  lemma ArmSelection(updateSet: SubStateUpdateSet, updateExercise: SubStateUpdateExercise)
    ensures updateExercise == SubStateUpdateExercise.NONE ==> SelectArm(updateSet, updateExercise) == UpdateSetValue(updateSet)
    ensures updateExercise != SubStateUpdateExercise.NONE ==> SelectArm(updateSet, updateExercise) == |MatchArms|
  {
    var subject := Subject(updateSet, updateExercise);
    assert MatchArms[0] == (SetKey(SubStateUpdateSet.NONE), ExerciseKey(SubStateUpdateExercise.NONE));
    assert MatchArms[1] == (SetKey(TYPE_SET), ExerciseKey(SubStateUpdateExercise.NONE));
    assert MatchArms[2] == (SetKey(TYPE_WHAT), ExerciseKey(SubStateUpdateExercise.NONE));
    assert MatchArms[3] == (SetKey(TYPE_NEW_VALUE), ExerciseKey(SubStateUpdateExercise.NONE));
    assert MatchArms[4] == (ExerciseKey(TYPE_EXPRESSION), SetKey(SubStateUpdateSet.NONE));
  }

  /** The last arm, meant for an exercise update, compares the update-set
      sub-state with an exercise member, so it is never the arm taken. */
  lemma LastArmNeverMatches(updateSet: SubStateUpdateSet, updateExercise: SubStateUpdateExercise)
    ensures SelectArm(updateSet, updateExercise) != |MatchArms| - 1
  {
    ArmSelection(updateSet, updateExercise);
  }

  /** What the `match` does before the code after it, given the callback
      the first word names and the reply of the set-number check: the
      actions it takes and whether they end the call. With no update in
      progress it calls the command when `commandInMatch`, which ends the
      call unless the call completes. In `TYPE_SET` it
      replies and returns when the check gives a reply. Every other pair
      of sub-states does nothing there. */
  function MatchEffect(commandInMatch: bool, updateSet: SubStateUpdateSet, updateExercise: SubStateUpdateExercise,
                       command: Option<Callback>, check: Option<string>): (r: (seq<Action>, bool))
    ensures |r.0| <= 1 && (r.1 ==> |r.0| == 1)
  {
    var arm := SelectArm(updateSet, updateExercise);
    if arm == 0 then
      if commandInMatch then ([CallOf(command)], !Completes(command)) else ([], false)
    else if arm == 1 && check.Some? then
      ([Reply(check.value)], true)
    else
      ([], false)
  }

  /** The `match`'s effect case by case: with no update in progress the
      command call (when it is inside the `match`); in `TYPE_SET` the reply
      of the set-number check, which ends the call; otherwise nothing. */
  lemma MatchEffectCases(commandInMatch: bool, updateSet: SubStateUpdateSet, updateExercise: SubStateUpdateExercise,
                         command: Option<Callback>, check: Option<string>)
    ensures var r := MatchEffect(commandInMatch, updateSet, updateExercise, command, check);
      && (updateSet == SubStateUpdateSet.NONE && updateExercise == SubStateUpdateExercise.NONE ==>
            r == if commandInMatch then ([CallOf(command)], !Completes(command)) else ([], false))
      && (updateSet == TYPE_SET && updateExercise == SubStateUpdateExercise.NONE ==>
            r == if check.Some? then ([Reply(check.value)], true) else ([], false))
      && ((updateSet != SubStateUpdateSet.NONE && updateSet != TYPE_SET) || updateExercise != SubStateUpdateExercise.NONE ==>
            r == ([], false))
  {
    ArmSelection(updateSet, updateExercise);
  }

  /** The code after the `match`: the step of the set update in progress,
      else the step of the exercise update in progress, else the command. */
  function AfterMatch(tables: Tables, updateSet: SubStateUpdateSet, updateExercise: SubStateUpdateExercise,
                      command: Option<Callback>): Action
  {
    if updateSet != SubStateUpdateSet.NONE then Invoke(Lookup(tables.updateSet, SetKey(updateSet)))
    else if updateExercise != SubStateUpdateExercise.NONE then Invoke(Lookup(tables.updateExercise, ExerciseKey(updateExercise)))
    else CallOf(command)
  }

  /** `handle_message`'s decision, for given sub-state tables and with or
      without the command call inside the `match`: the `match`'s actions,
      then, unless they ended the call, the code after it. A message causes
      two actions exactly when the command is called inside the `match`, no
      update is in progress and that call completes; the two are then calls
      of that command. */
  function RouteWith(tables: Tables, commandInMatch: bool, updateSet: SubStateUpdateSet,
                     updateExercise: SubStateUpdateExercise, command: Option<Callback>, check: Option<string>): (r: seq<Action>)
    ensures 1 <= |r| <= 2
    ensures |r| == 2 <==> commandInMatch && updateSet == SubStateUpdateSet.NONE
                          && updateExercise == SubStateUpdateExercise.NONE && Completes(command)
    ensures |r| == 2 ==> r[0] == r[1] == Invoke(command.value)
  {
    MatchEffectCases(commandInMatch, updateSet, updateExercise, command, check);
    var m := MatchEffect(commandInMatch, updateSet, updateExercise, command, check);
    if m.1 then m.0 else m.0 + [AfterMatch(tables, updateSet, updateExercise, command)]
  }

  /** `handle_message` as written, with the handler's command table. When
      it causes two actions they are the same command, called twice. */
  function RouteAsWritten(table: Dict<string, Callback>, updateSet: SubStateUpdateSet,
                          updateExercise: SubStateUpdateExercise, text: string, setCount: int): (r: seq<Action>)
    ensures |r| == 2 ==> CommandIn(table, text).Some? && r[0] == r[1] == Invoke(CommandIn(table, text).value)
  {
    RouteWith(TablesAsWritten, true, updateSet, updateExercise, CommandIn(table, text), CheckSetNumber(text, setCount))
  }

  /** The callbacks the handler defines, each sending its fixed text. */
  predicate IsStub(cb: Callback)
  {
    || cb == PrevExercise || cb == NextExercise || cb == PrevSet || cb == NextSet
    || cb == UpdateExerciseCommand || cb == UpdateSetCommand
    || cb == TypeExpression || cb == TypeSet || cb == TypeWhat || cb == TypeNewValue
  }

  /** A command table whose every entry is a stub, as the constructor's is. */
  ghost predicate StubTable(table: Dict<string, Callback>)
  {
    forall w :: w in table.entries ==> IsStub(table.entries[w])
  }

  /** `handle_message` with the command called once and each sub-state
      table holding the steps of its own update: exactly one action, and,
      for a table of stubs, a call goes to a stub or to the default
      handler. */
  function Route(table: Dict<string, Callback>, updateSet: SubStateUpdateSet,
                 updateExercise: SubStateUpdateExercise, text: string, setCount: int): (a: Action)
    requires StubTable(table)
    ensures a.Invoke? ==> a.callback == DefaultHandler || IsStub(a.callback)
  {
    var command := CommandIn(table, text);
    var check := CheckSetNumber(text, setCount);
    RouteCorrectedCallsStubs(updateSet, updateExercise, command, check);
    RouteWith(TablesCorrected, false, updateSet, updateExercise, command, check)[0]
  }

  /** With the corrected tables and the command called once, routing gives
      one action, and a call it makes goes to a stub or to the default
      handler whenever the command does. */
  lemma RouteCorrectedCallsStubs(updateSet: SubStateUpdateSet, updateExercise: SubStateUpdateExercise,
                                 command: Option<Callback>, check: Option<string>)
    requires command.Some? ==> command.value == DefaultHandler || IsStub(command.value)
    ensures |RouteWith(TablesCorrected, false, updateSet, updateExercise, command, check)| == 1
    ensures var a := RouteWith(TablesCorrected, false, updateSet, updateExercise, command, check)[0];
            a.Invoke? ==> a.callback == DefaultHandler || IsStub(a.callback)
  {
    MatchEffectCases(false, updateSet, updateExercise, command, check);
  }

  /** Every entry of the command table is a stub. */
  lemma CommandTableStubs()
    ensures StubTable(CommandTable())
  {
  }

  /** With no update in progress the code as written calls a command's
      callback twice, once inside the `match` and once after it; a word
      that is no command reaches the default handler once, since that call
      raises. The corrected routing calls the command once. */
  lemma AsWrittenCallsCommandTwice(table: Dict<string, Callback>, text: string, setCount: int)
    ensures var c := CommandIn(table, text);
            Completes(c) ==> RouteAsWritten(table, SubStateUpdateSet.NONE, SubStateUpdateExercise.NONE, text, setCount)
                               == [Invoke(c.value), Invoke(c.value)]
    ensures var c := CommandIn(table, text);
            !Completes(c) ==> RouteAsWritten(table, SubStateUpdateSet.NONE, SubStateUpdateExercise.NONE, text, setCount)
                                == [CallOf(c)]
    ensures StubTable(table) ==>
      Route(table, SubStateUpdateSet.NONE, SubStateUpdateExercise.NONE, text, setCount) == CallOf(CommandIn(table, text))
  {
    var command := CommandIn(table, text);
    var check := CheckSetNumber(text, setCount);
    NoUpdateCalls(command, check);
    if StubTable(table) {
      assert Route(table, SubStateUpdateSet.NONE, SubStateUpdateExercise.NONE, text, setCount)
        == RouteWith(TablesCorrected, false, SubStateUpdateSet.NONE, SubStateUpdateExercise.NONE, command, check)[0];
    }
  }

  /** With no update in progress, for any command and check: as written the
      command is called inside the `match` and, when that call completes,
      again after it; corrected, it is called once. */
  lemma NoUpdateCalls(command: Option<Callback>, check: Option<string>)
    ensures Completes(command) ==>
      RouteWith(TablesAsWritten, true, SubStateUpdateSet.NONE, SubStateUpdateExercise.NONE, command, check)
        == [Invoke(command.value), Invoke(command.value)]
    ensures !Completes(command) ==>
      RouteWith(TablesAsWritten, true, SubStateUpdateSet.NONE, SubStateUpdateExercise.NONE, command, check)
        == [CallOf(command)]
    ensures RouteWith(TablesCorrected, false, SubStateUpdateSet.NONE, SubStateUpdateExercise.NONE, command, check)
      == [CallOf(command)]
  {
    MatchEffectCases(true, SubStateUpdateSet.NONE, SubStateUpdateExercise.NONE, command, check);
    MatchEffectCases(false, SubStateUpdateSet.NONE, SubStateUpdateExercise.NONE, command, check);
  }

  /** As written, neither sub-state table is keyed by the sub-state it is
      looked up with, so during an update every call made goes to the
      default handler. */
  lemma AsWrittenSubStateLookupsMiss(table: Dict<string, Callback>, updateSet: SubStateUpdateSet,
                                     updateExercise: SubStateUpdateExercise, text: string, setCount: int)
    requires updateSet != SubStateUpdateSet.NONE || updateExercise != SubStateUpdateExercise.NONE
    ensures var r := RouteAsWritten(table, updateSet, updateExercise, text, setCount);
            forall i :: 0 <= i < |r| ==> r[i].Invoke? ==> r[i].callback == DefaultHandler
  {
    AsWrittenTablesMiss(updateSet, updateExercise, CommandIn(table, text), CheckSetNumber(text, setCount));
  }

  /** The as-written routing during an update, for any command and check. */
  lemma AsWrittenTablesMiss(updateSet: SubStateUpdateSet, updateExercise: SubStateUpdateExercise,
                            command: Option<Callback>, check: Option<string>)
    requires updateSet != SubStateUpdateSet.NONE || updateExercise != SubStateUpdateExercise.NONE
    ensures var r := RouteWith(TablesAsWritten, true, updateSet, updateExercise, command, check);
            forall i :: 0 <= i < |r| ==> r[i].Invoke? ==> r[i].callback == DefaultHandler
  {
    MatchEffectCases(true, updateSet, updateExercise, command, check);
  }

  /** The step of a set update that a sub-state stands for. */
  function SetStep(updateSet: SubStateUpdateSet): Callback
    requires updateSet != SubStateUpdateSet.NONE
  {
    match updateSet
    case TYPE_SET => TypeSet
    case TYPE_WHAT => TypeWhat
    case TYPE_NEW_VALUE => TypeNewValue
  }

  /** The set number is checked only in `TYPE_SET` with no exercise update:
      text that is not an integer and a number outside 1..setCount each get
      their reply, and a number in range reaches the `type_set` step. */
  lemma RouteTypeSet(table: Dict<string, Callback>, text: string, setCount: int)
    requires StubTable(table)
    ensures ParseInt(text).None? ==>
      Route(table, TYPE_SET, SubStateUpdateExercise.NONE, text, setCount) == Reply(InvalidSetNumberText)
    ensures ParseInt(text).Some? && (ParseInt(text).value < 1 || ParseInt(text).value > setCount) ==>
      Route(table, TYPE_SET, SubStateUpdateExercise.NONE, text, setCount) == Reply(SetOutOfRangeText)
    ensures ParseInt(text).Some? && 1 <= ParseInt(text).value <= setCount ==>
      Route(table, TYPE_SET, SubStateUpdateExercise.NONE, text, setCount) == Invoke(TypeSet)
  {
    var command := CommandIn(table, text);
    var check := CheckSetNumber(text, setCount);
    RouteTypeSetCheck(command, check);
    assert Route(table, TYPE_SET, SubStateUpdateExercise.NONE, text, setCount)
      == RouteWith(TablesCorrected, false, TYPE_SET, SubStateUpdateExercise.NONE, command, check)[0];
  }

  /** In `TYPE_SET` the corrected routing gives the check's reply, or the
      `type_set` step when there is none, whatever the command. */
  lemma RouteTypeSetCheck(command: Option<Callback>, check: Option<string>)
    ensures RouteWith(TablesCorrected, false, TYPE_SET, SubStateUpdateExercise.NONE, command, check)
      == if check.Some? then [Reply(check.value)] else [Invoke(TypeSet)]
  {
    MatchEffectCases(false, TYPE_SET, SubStateUpdateExercise.NONE, command, check);
  }

  /** Outside that check, a set update in progress decides the call even
      when an exercise update is in progress too; otherwise an exercise
      update goes to the expression step. */
  lemma RouteSubStates(table: Dict<string, Callback>, updateSet: SubStateUpdateSet,
                       updateExercise: SubStateUpdateExercise, text: string, setCount: int)
    requires StubTable(table)
    requires updateSet != SubStateUpdateSet.NONE || updateExercise != SubStateUpdateExercise.NONE
    requires !(updateSet == TYPE_SET && updateExercise == SubStateUpdateExercise.NONE)
    ensures updateSet != SubStateUpdateSet.NONE ==>
      Route(table, updateSet, updateExercise, text, setCount) == Invoke(SetStep(updateSet))
    ensures updateSet == SubStateUpdateSet.NONE ==>
      Route(table, updateSet, updateExercise, text, setCount) == Invoke(TypeExpression)
  {
    var command := CommandIn(table, text);
    var check := CheckSetNumber(text, setCount);
    UpdateSteps(updateSet, updateExercise, command, check);
    assert Route(table, updateSet, updateExercise, text, setCount)
      == RouteWith(TablesCorrected, false, updateSet, updateExercise, command, check)[0];
  }

  /** The corrected routing outside the `TYPE_SET` check during an update,
      for any command and check. */
  lemma UpdateSteps(updateSet: SubStateUpdateSet, updateExercise: SubStateUpdateExercise,
                    command: Option<Callback>, check: Option<string>)
    requires updateSet != SubStateUpdateSet.NONE || updateExercise != SubStateUpdateExercise.NONE
    requires !(updateSet == TYPE_SET && updateExercise == SubStateUpdateExercise.NONE)
    ensures RouteWith(TablesCorrected, false, updateSet, updateExercise, command, check)
      == [Invoke(if updateSet != SubStateUpdateSet.NONE then SetStep(updateSet) else TypeExpression)]
  {
    MatchEffectCases(false, updateSet, updateExercise, command, check);
  }

  /** The text each stub sends. */
  function StubText(cb: Callback): string
    requires IsStub(cb)
  {
    match cb
    case PrevExercise => "Previous exercise - TODO"
    case NextExercise => "Next exercise - TODO"
    case PrevSet => "Previous set - TODO"
    case NextSet => "Next set - TODO"
    case UpdateSetCommand => "Update set - TODO"
    case UpdateExerciseCommand => "Update exercise - TODO"
    case TypeExpression => "Type expression - TODO"
    case TypeSet => "Type set - TODO"
    case TypeWhat => "Type what - TODO"
    case TypeNewValue => "Type new value - TODO"
  }

  /** Carrying out an action in a chat: the bot calls it makes and how it
      ends. A reply or a stub sends one message; the default handler sends
      nothing and the call ends in TypeError; a raise sends nothing. */
  function Effect(chatId: int, action: Action): (r: (seq<BotCall>, Outcome))
    requires action.Invoke? ==> action.callback == DefaultHandler || IsStub(action.callback)
    ensures r.1 == Completed <==> |r.0| == 1
    ensures r.1 != Completed ==> r.0 == [] && r.1 == Raised(if action.Raise? then action.error else "TypeError")
    ensures action.Reply? ==> r.0 == [SendMessage(chatId, action.text)]
  {
    match action
    case Reply(text) => ([SendMessage(chatId, text)], Completed)
    case Invoke(cb) =>
      if cb == DefaultHandler then ([], Raised("TypeError"))
      else ([SendMessage(chatId, StubText(cb))], Completed)
    case Raise(error) => ([], Raised(error))
  }

  class StartedStateHandler {
    const base: BaseStateHandler
    const bot: TelegramBot

    /** Every entry of the command table is a stub. */
    ghost predicate Valid()
      reads this, base
    {
      StubTable(base.callbacks)
    }

    constructor(bot: TelegramBot)
      ensures this.bot == bot && fresh(base) && base.callbacks == CommandTable() && Valid()
      ensures base.nextState == null && base.update == None && base.context == None
    {
      var b := new BaseStateHandler();
      b.SetCallbacks(CommandTable());
      CommandTableStubs();
      this.base := b;
      this.bot := bot;
    }

    /** Carries out a routed action: sends the reply, or calls the
        callback, where a stub sends its text and the default handler
        raises. */
    method Perform(chatId: int, action: Action) returns (outcome: Outcome)
      requires action.Invoke? ==> action.callback == DefaultHandler || IsStub(action.callback)
      modifies bot.log
      ensures bot.log.calls == old(bot.log.calls) + Effect(chatId, action).0
      ensures outcome == Effect(chatId, action).1
    {
      match action
      case Reply(text) =>
        bot.log.Record(SendMessage(chatId, text));
        outcome := Completed;
      case Invoke(cb) =>
        if cb == DefaultHandler {
          outcome := Raised("TypeError");
        } else {
          bot.log.Record(SendMessage(chatId, StubText(cb)));
          outcome := Completed;
        }
      case Raise(error) =>
        outcome := Raised(error);
    }

    /** Routes a message with the handler's command table by the corrected
        `Route` and carries out the action. The routing as written is
        `RouteAsWritten`. */
    method Respond(chatId: int, updateSet: SubStateUpdateSet, updateExercise: SubStateUpdateExercise,
                   text: string, setCount: int) returns (outcome: Outcome)
      requires Valid()
      modifies bot.log
      ensures var r := Effect(chatId, Route(base.callbacks, updateSet, updateExercise, text, setCount));
              bot.log.calls == old(bot.log.calls) + r.0 && outcome == r.1
    {
      var action := Route(base.callbacks, updateSet, updateExercise, text, setCount);
      outcome := Perform(chatId, action);
    }

    /** `handle_message` with the corrected routing. The number of sets is
        what the bot would report for the chat. The chat's state machine
        is read and never written. */
    method HandleMessage(update: Update, context: CallbackContext, setCount: int) returns (outcome: Outcome)
      requires Valid()
      requires update.message.chatId in bot.stateMachine
      modifies base`update, base`context, bot.log
      ensures Valid()
      ensures base.update == Some(update) && base.context == Some(context)
      ensures bot.stateMachine[update.message.chatId].Current() == old(bot.stateMachine[update.message.chatId].Current())
      ensures var sm := bot.stateMachine[update.message.chatId];
              var r := Effect(update.message.chatId,
                              Route(base.callbacks, sm.substateUpdateSet, sm.substateUpdateExercise,
                                    update.message.text, setCount));
              bot.log.calls == old(bot.log.calls) + r.0 && outcome == r.1
    {
      var message := update.message;
      var machine := bot.stateMachine[message.chatId];
      var updateSet := machine.GetSubstateUpdateSet();
      var updateExercise := machine.GetSubstateUpdateExercise();
      base.Receive(update, context);
      outcome := Respond(message.chatId, updateSet, updateExercise, message.text, setCount);
      assert bot.stateMachine[message.chatId] == machine;
      assert machine.substateUpdateSet == updateSet && machine.substateUpdateExercise == updateExercise;
    }
  }
}
