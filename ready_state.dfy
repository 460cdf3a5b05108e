/** The handler of a workout that is ready to start: `/start_workout` moves
    the chat into the started state and shows the first exercise, `/cancel`
    goes back to the authenticated state. The bot operations the handler
    relies on but the bot does not define (whether the workout could be
    started, the next exercise's text) are parameters; advancing the
    exercise index is a recorded bot call. */
module ReadyState {
  import opened Wrappers
  import opened Text
  import opened Dict
  import opened StateMachines
  import opened BaseHandler
  import opened TelegramBotClass

  /** The constructor's command table, in its written order. */
  const Commands: seq<(string, Callback)> := [("/start_workout", StartWorkout), ("/cancel", CancelCommand)]

  const CommandWords: seq<string> := ["/start_workout", "/cancel"]

  /** The dict the constructor's literal builds. */
  function CommandTable(): (d: Dict<string, Callback>)
    ensures d.Valid() && d.Keys() == CommandWords
  {
    Dict(CommandWords, map["/start_workout" := StartWorkout, "/cancel" := CancelCommand])
  }

  /** Only the two commands have callbacks; any other first word falls back
      to the default handler. */
  lemma CommandTableLookup(word: string)
    ensures word == "/start_workout" ==> CommandTable().Get(word, DefaultHandler) == StartWorkout
    ensures word == "/cancel" ==> CommandTable().Get(word, DefaultHandler) == CancelCommand
    ensures CommandTable().Get(word, DefaultHandler) != DefaultHandler <==> word in CommandWords
  {
    var d := CommandTable();
    assert forall k :: k in d.entries ==> d.entries[k] != DefaultHandler;
  }

  /** The table is the dict the constructor's literal builds. */
  lemma CommandTableIsLiteral()
    ensures FromEntries(Commands) == CommandTable()
  {
    assert DistinctKeys(Commands);
    assert KeysOf(Commands) == CommandWords;
    FromDistinctEntriesUnique(Commands, CommandTable());
  }

  const WorkoutErrorText: string := "Error starting workout. Please try again later."
  const WorkoutStartedText: string := "Workout started!"
  const WorkoutCancelledText: string := "Workout cancelled."

  /** The chat's record after `start_workout`'s three setters. */
  function Started(m: Snapshot): (r: Snapshot)
    ensures r.state == STARTED && r.updateSet == SubStateUpdateSet.NONE
    ensures r.updateExercise == SubStateUpdateExercise.NONE && r.login == m.login
  {
    WithUpdateExercise(WithUpdateSet(WithState(m, STARTED), SubStateUpdateSet.NONE), SubStateUpdateExercise.NONE)
  }

  /** The bot calls `start_workout` makes: an error message alone when the
      workout cannot be started, otherwise the greeting, the exercise and
      one advance of the exercise index, in that order. */
  function StartCalls(chatId: int, workoutStarted: bool, nextExercise: string): (calls: seq<BotCall>)
    ensures !workoutStarted ==> calls == [SendMessage(chatId, WorkoutErrorText)]
    ensures workoutStarted ==> |calls| == 3 && calls[2] == IncrementExerciseIndex(chatId)
    ensures workoutStarted ==> calls[..2] == [SendMessage(chatId, WorkoutStartedText), SendMessage(chatId, nextExercise)]
  {
    if !workoutStarted then [SendMessage(chatId, WorkoutErrorText)]
    else [SendMessage(chatId, WorkoutStartedText), SendMessage(chatId, nextExercise), IncrementExerciseIndex(chatId)]
  }

  /** The index is advanced exactly once on success and never on failure. */
  lemma StartCallsAdvanceOnce(chatId: int, workoutStarted: bool, nextExercise: string)
    ensures forall i :: 0 <= i < |StartCalls(chatId, workoutStarted, nextExercise)| ==>
      (StartCalls(chatId, workoutStarted, nextExercise)[i].IncrementExerciseIndex? <==> workoutStarted && i == 2)
  {
  }

  /** What the receiver of a `set_state` call can be: the bot's dict from
      chat to state machine, or one state machine. */
  datatype SetStateReceiver = MachineMap(machines: map<int, StateMachine>) | OneMachine(machine: StateMachine)

  /** Looking up `set_state` on the receiver: a state machine has the
      method, a dict has no such attribute. */
  function SetStateLookup(receiver: SetStateReceiver): (outcome: Outcome)
    ensures outcome == Completed <==> receiver.OneMachine?
    ensures outcome != Completed ==> outcome == Raised("AttributeError")
  {
    match receiver
    case MachineMap(_) => Raised("AttributeError")
    case OneMachine(_) => Completed
  }

  class ReadyStateHandler {
    const base: BaseStateHandler
    const bot: TelegramBot

    ghost predicate Valid()
      reads this, base
    {
      base.callbacks == CommandTable()
    }

    constructor(bot: TelegramBot)
      ensures this.bot == bot && fresh(base) && Valid()
      ensures base.nextState == null && base.update == None && base.context == None
    {
      var b := new BaseStateHandler();
      b.SetCallbacks(CommandTable());
      this.base := b;
      this.bot := bot;
    }

    /** The chat of the message being handled. */
    function ChatId(): int
      reads this, base
      requires base.update.Some?
    {
      base.update.value.message.chatId
    }

    /** `start_workout`: the state moves to `STARTED` with both update
        sub-states reset before the bot is asked to start the workout, so
        the move stands even when that fails. */
    method StartWorkoutCommand(workoutStarted: bool, nextExercise: string)
      requires base.update.Some? && ChatId() in bot.stateMachine
      modifies bot.stateMachine[ChatId()], bot.log
      ensures bot.stateMachine[ChatId()].Current() == Started(old(bot.stateMachine[ChatId()].Current()))
      ensures bot.log.calls == old(bot.log.calls) + StartCalls(ChatId(), workoutStarted, nextExercise)
    {
      var chatId := ChatId();
      var machine := bot.stateMachine[chatId];
      machine.SetState(STARTED);
      machine.SetSubstateUpdateSet(SubStateUpdateSet.NONE);
      machine.SetSubstateUpdateExercise(SubStateUpdateExercise.NONE);
      if !workoutStarted {
        bot.log.Record(SendMessage(chatId, WorkoutErrorText));
        return;
      }
      bot.log.Record(SendMessage(chatId, WorkoutStartedText));
      bot.log.Record(SendMessage(chatId, nextExercise));
      bot.log.Record(IncrementExerciseIndex(chatId));
    }

    /** `cancel` as written: `self.bot.state_machine` is the bot's dict of
        all machines, and `set_state` is looked up on that dict, which
        raises AttributeError before anything changes or is sent. */
    method CancelAsWritten() returns (outcome: Outcome)
      ensures outcome == Raised("AttributeError")
    {
      var receiver := MachineMap(bot.stateMachine);
      outcome := SetStateLookup(receiver);
    }

    /** `cancel` on the chat's own machine: back to `AUTHENTICATED`, with the
        sub-states and the selected program and day as they were, and the
        cancellation message sent. */
    method Cancel() returns (outcome: Outcome)
      requires base.update.Some? && ChatId() in bot.stateMachine
      modifies bot.stateMachine[ChatId()], bot.log
      ensures bot.stateMachine[ChatId()].Current() == WithState(old(bot.stateMachine[ChatId()].Current()), State.AUTHENTICATED)
      ensures bot.log.calls == old(bot.log.calls) + [SendMessage(ChatId(), WorkoutCancelledText)]
      ensures bot.selectedProgram == old(bot.selectedProgram) && bot.selectedDayId == old(bot.selectedDayId)
      ensures outcome == Completed
    {
      var chatId := ChatId();
      var machine := bot.stateMachine[chatId];
      outcome := SetStateLookup(OneMachine(machine));
      machine.SetState(State.AUTHENTICATED);
      bot.log.Record(SendMessage(chatId, WorkoutCancelledText));
    }

    /** What `handle_message` does with its first word, None when the text
        has none: no word raises IndexError at `split()[0]`; otherwise the
        word picks the command, and any other word reaches the default
        handler, which is called without its argument and raises TypeError.
        Nothing changes when it raises. "/cancel" runs the corrected `Cancel`;
        as written it raises AttributeError, as `CancelAsWritten` states. */
    method Dispatch(chatId: int, word: Option<string>, workoutStarted: bool, nextExercise: string)
      returns (outcome: Outcome)
      requires Valid() && base.update.Some? && chatId == ChatId() && chatId in bot.stateMachine
      modifies bot.stateMachine[chatId], bot.log
      ensures var m := old(bot.stateMachine[chatId].Current());
              var calls := bot.log.calls;
              var now := bot.stateMachine[chatId].Current();
              if word == Some("/start_workout") then
                now == Started(m) && outcome == Completed
                && calls == old(bot.log.calls) + StartCalls(chatId, workoutStarted, nextExercise)
              else if word == Some("/cancel") then
                now == WithState(m, State.AUTHENTICATED) && outcome == Completed
                && calls == old(bot.log.calls) + [SendMessage(chatId, WorkoutCancelledText)]
              else
                now == m && calls == old(bot.log.calls)
                && outcome == Raised(if word.None? then "IndexError" else "TypeError")
    {
      if word.None? {
        outcome := Raised("IndexError");
        return;
      }
      CommandTableLookup(word.value);
      var cb := base.callbacks.Get(word.value, DefaultHandler);
      if cb == StartWorkout {
        StartWorkoutCommand(workoutStarted, nextExercise);
        outcome := Completed;
      } else if cb == CancelCommand {
        outcome := Cancel();
      } else {
        outcome := Raised("TypeError");
      }
    }

    /** `handle_message` with the corrected cancel: stores the update and
        context, then does what the text's first word picks, as `Dispatch`. */
    method HandleMessage(update: Update, context: CallbackContext, workoutStarted: bool, nextExercise: string)
      returns (outcome: Outcome)
      requires Valid()
      requires update.message.chatId in bot.stateMachine
      modifies base`update, base`context, bot.stateMachine[update.message.chatId], bot.log
      ensures Valid() && base.update == Some(update) && base.context == Some(context)
      ensures var word := FirstToken(update.message.text);
              var m := old(bot.stateMachine[update.message.chatId].Current());
              var calls := bot.log.calls;
              var now := bot.stateMachine[update.message.chatId].Current();
              if word == Some("/start_workout") then
                now == Started(m) && outcome == Completed
                && calls == old(bot.log.calls) + StartCalls(update.message.chatId, workoutStarted, nextExercise)
              else if word == Some("/cancel") then
                now == WithState(m, State.AUTHENTICATED) && outcome == Completed
                && calls == old(bot.log.calls) + [SendMessage(update.message.chatId, WorkoutCancelledText)]
              else
                now == m && calls == old(bot.log.calls)
                && outcome == Raised(if word.None? then "IndexError" else "TypeError")
    {
      base.Receive(update, context);
      outcome := Dispatch(update.message.chatId, FirstToken(update.message.text), workoutStarted, nextExercise);
    }
  }
}
