/** The bot's in-memory session store: one state machine per user, created
    on the user's first message; the registered users; the program and day
    selected for the workout; and the dispatch from a user's state to the
    handler of that state. Database queries are function parameters. */
module TelegramBotClass {
  import opened Wrappers
  import opened Text
  import opened StateMachines
  import opened ProgramClasses
  import opened BaseHandler

  /** The handler object registered for each state. */
  datatype HandlerKind =
    | DeadStateHandler | LoginStateHandler | AuthenticatedStateHandler | TypeProgramStateHandler
    | TypeDayStateHandler | ReadyStateHandler | StartedStateHandler | EndStateHandler

  /** `state_handlers`: the handler registered for a state. */
  function StateHandler(s: State): (h: HandlerKind)
    ensures HandledState(h) == s
  {
    match s
    case DEAD => DeadStateHandler
    case LOGIN => LoginStateHandler
    case AUTHENTICATED => AuthenticatedStateHandler
    case TYPE_PROGRAM => TypeProgramStateHandler
    case TYPE_DAY => TypeDayStateHandler
    case READY => ReadyStateHandler
    case STARTED => StartedStateHandler
    case END => EndStateHandler
  }

  /** The state a handler object is registered for. */
  function HandledState(h: HandlerKind): State
  {
    match h
    case DeadStateHandler => DEAD
    case LoginStateHandler => LOGIN
    case AuthenticatedStateHandler => State.AUTHENTICATED
    case TypeProgramStateHandler => TYPE_PROGRAM
    case TypeDayStateHandler => TYPE_DAY
    case ReadyStateHandler => READY
    case StartedStateHandler => STARTED
    case EndStateHandler => END
  }

  /** No two states share a handler, so each state is served by a handler
      of its own. */
  lemma StateHandlersDistinct(s: State, t: State)
    ensures StateHandler(s) == StateHandler(t) <==> s == t
  {
  }

  /** One `user_db` entry. */
  datatype UserRecord = UserRecord(chatId: int, username: string, firstName: string)

  /** A selection field: the `{}` it starts as, the None `clear_program`
      leaves, or a value. */
  datatype Slot<T> = EmptyDict | NoneValue | Held(value: T)

  /** Python truthiness of a `check_day` result: only True accepts. */
  predicate Accepts(verdict: Option<bool>)
  {
    verdict == Some(true)
  }

  class TelegramBot {
    var stateMachine: map<int, StateMachine>
    var userDb: map<int, UserRecord>
    var idUsers: map<int, int>
    var selectedProgram: Slot<Program>
    var selectedDayId: Slot<string>
    var log: BotLog

    constructor()
      ensures stateMachine == map[] && userDb == map[] && idUsers == map[]
      ensures selectedProgram == EmptyDict && selectedDayId == EmptyDict
      ensures fresh(log) && log.calls == []
    {
      stateMachine := map[];
      userDb := map[];
      idUsers := map[];
      selectedProgram := EmptyDict;
      selectedDayId := EmptyDict;
      log := new BotLog();
    }

    /** `handle_message` up to the call into the handler: gives an unseen
        user a fresh machine in `DEAD`, keeps every existing machine, and
        picks the handler registered for the user's current state. */
    method HandleMessage(update: Update) returns (handler: HandlerKind)
      modifies this`stateMachine
      ensures update.message.fromUserId in stateMachine
      ensures update.message.fromUserId in old(stateMachine) ==> stateMachine == old(stateMachine)
      ensures update.message.fromUserId !in old(stateMachine) ==>
        && fresh(stateMachine[update.message.fromUserId])
        && stateMachine[update.message.fromUserId].Current() == Initial()
        && stateMachine == old(stateMachine)[update.message.fromUserId := stateMachine[update.message.fromUserId]]
      ensures handler == StateHandler(stateMachine[update.message.fromUserId].state)
    {
      var userId := update.message.fromUserId;
      if userId !in stateMachine {
        var m := new StateMachine();
        stateMachine := stateMachine[userId := m];
      }
      var userState := stateMachine[userId].GetState();
      handler := StateHandler(userState);
    }

    /** `add_user`: inserts or overwrites the record for `userId`. */
    method AddUser(userId: int, chatId: int, username: string, firstName: string)
      modifies this`userDb
      ensures userDb == old(userDb)[userId := UserRecord(chatId, username, firstName)]
      ensures IsUserRegistered(userId)
    {
      userDb := userDb[userId := UserRecord(chatId, username, firstName)];
    }

    /** `remove_user`: deletes the record if there is one. */
    method RemoveUser(userId: int)
      modifies this`userDb
      ensures userDb == old(userDb) - {userId}
      ensures !IsUserRegistered(userId)
      ensures userId !in old(userDb) ==> userDb == old(userDb)
    {
      if userId in userDb {
        userDb := userDb - {userId};
      }
    }

    predicate IsUserRegistered(userId: int)
      reads this
    {
      userId in userDb
    }

    /** One bot-wide field: the selection is shared by every chat. */
    method SetSelectedProgram(program: Program)
      modifies this`selectedProgram
      ensures selectedProgram == Held(program)
    {
      selectedProgram := Held(program);
    }

    /** `get_selected_program`, which fails unless a program was set. */
    function GetSelectedProgram(): (program: Program)
      reads this
      requires selectedProgram.Held?
      ensures selectedProgram == Held(program)
    {
      selectedProgram.value
    }

    /** `clear_program`: both selections become None. */
    method ClearProgram()
      modifies this`selectedProgram, this`selectedDayId
      ensures selectedProgram == NoneValue && selectedDayId == NoneValue
    {
      selectedProgram := NoneValue;
      selectedDayId := NoneValue;
    }

    method SetSelectedDayId(dayId: string)
      modifies this`selectedDayId
      ensures selectedDayId == Held(dayId)
      ensures GetSelectedDayId() == Held(dayId)
    {
      selectedDayId := Held(dayId);
    }

    function GetSelectedDayId(): Slot<string>
      reads this
    {
      selectedDayId
    }

    /** `check_and_set_program`: an id that does not read as an integer is
        refused; otherwise the chat is looked up in `id_users`, which raises
        KeyError for an unmapped chat; a mapped chat's user must pass the
        ownership check, and only then is the selection replaced by the
        program the database loads. */
    method CheckAndSetProgram(chatId: int, programId: string,
                              checkProgram: (int, int) -> bool, loadProgram: (int, int) -> Program)
      returns (ok: bool, outcome: Outcome)
      modifies this`selectedProgram
      ensures outcome == Raised("KeyError") <==> ParseInt(programId).Some? && chatId !in idUsers
      ensures outcome != Completed ==> outcome == Raised("KeyError") && !ok
      ensures ok <==> ParseInt(programId).Some? && chatId in idUsers
                      && checkProgram(idUsers[chatId], ParseInt(programId).value)
      ensures ok ==> selectedProgram == Held(loadProgram(idUsers[chatId], ParseInt(programId).value))
      ensures !ok ==> selectedProgram == old(selectedProgram)
    {
      var parsed := ParseInt(programId);
      if parsed.None? {
        return false, Completed;
      }
      var id := parsed.value;
      if chatId !in idUsers {
        return false, Raised("KeyError");
      }
      if checkProgram(idUsers[chatId], id) {
        selectedProgram := Held(loadProgram(idUsers[chatId], id));
        return true, Completed;
      }
      return false, Completed;
    }

    /** `check_day` has no body and so returns None, which never accepts. */
    function CheckDay(chatId: int, dayId: string): (verdict: Option<bool>)
      ensures !Accepts(verdict)
    {
      None
    }
  }
}
