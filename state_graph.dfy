/** The fixed succession of conversation states and the lookup that finds
    the handler of the state that follows a given one. States are named by
    lower-case strings in both tables. */
module StateGraph {
  import opened Wrappers
  import opened StateMachines

  /** State name to the dotted path of its handler class. */
  const StateClassRegistry: map<string, string> := map[
    "authenticated" := "telegram_bot.state_handlers.authenticated_state.AuthenticatedStateHandler",
    "dead" := "telegram_bot.state_handlers.dead_state.DeadStateHandler",
    "end" := "telegram_bot.state_handlers.end_state.EndStateHandler",
    "login" := "telegram_bot.state_handlers.login_state.LoginStateHandler",
    "ready" := "telegram_bot.state_handlers.ready_state.ReadyStateHandler",
    "started" := "telegram_bot.state_handlers.started_state.StartedStateHandler",
    "type_day" := "telegram_bot.state_handlers.type_day_state.TypeDayStateHandler",
    "type_program" := "telegram_bot.state_handlers.type_program_state.TypeProgramStateHandler"
  ]

  /** State name to the name of the state that follows it. */
  const StateSuccessions: map<string, string> := map[
    "dead" := "login",
    "login" := "authenticated",
    "authenticated" := "type_program",
    "type_program" := "type_day",
    "type_day" := "ready",
    "ready" := "started",
    "started" := "end",
    "end" := "authenticated"
  ]

  /** `state_successions.get(current_state)`: None for an unknown name. */
  function NextStateKey(current: string): (r: Option<string>)
    ensures r.Some? <==> current in StateSuccessions
    ensures r.Some? ==> r.value == StateSuccessions[current]
  {
    if current in StateSuccessions then Some(StateSuccessions[current]) else None
  }

  /** `get_next_state` up to class loading: the handler path registered for
      the successor, or the KeyError raised when the successor key (None
      for an unknown state) is not in the registry. */
  function GetNextState(current: string): (r: Result<string, string>)
    ensures r.Success? <==> current in StateSuccessions
    ensures r.Success? ==> r.value == StateClassRegistry[StateSuccessions[current]]
    ensures r.Failure? ==> r.error == "KeyError"
  {
    SuccessionTargetsRegistered(current);
    match NextStateKey(current)
    case Some(next) =>
      if next in StateClassRegistry then Success(StateClassRegistry[next]) else Failure("KeyError")
    case None => Failure("KeyError")
  }

  /** The table name of each state. */
  function Name(s: State): string
  {
    match s
    case DEAD => "dead"
    case LOGIN => "login"
    case AUTHENTICATED => "authenticated"
    case TYPE_PROGRAM => "type_program"
    case TYPE_DAY => "type_day"
    case READY => "ready"
    case STARTED => "started"
    case END => "end"
  }

  /** The succession as a function on states. */
  function Successor(s: State): State
  {
    match s
    case DEAD => LOGIN
    case LOGIN => State.AUTHENTICATED
    case AUTHENTICATED => TYPE_PROGRAM
    case TYPE_PROGRAM => TYPE_DAY
    case TYPE_DAY => READY
    case READY => STARTED
    case STARTED => END
    case END => State.AUTHENTICATED
  }

  /** The state a table name stands for, if any. */
  function StateNamed(k: string): (r: Option<State>)
    ensures r.Some? ==> Name(r.value) == k
  {
    if k == "dead" then Some(DEAD)
    else if k == "login" then Some(LOGIN)
    else if k == "authenticated" then Some(State.AUTHENTICATED)
    else if k == "type_program" then Some(TYPE_PROGRAM)
    else if k == "type_day" then Some(TYPE_DAY)
    else if k == "ready" then Some(READY)
    else if k == "started" then Some(STARTED)
    else if k == "end" then Some(END)
    else None
  }

  /** Every state has a name of its own: the name reads back as the state. */
  lemma NameRoundTrip(s: State, t: State)
    ensures StateNamed(Name(s)) == Some(s)
    ensures Name(s) == Name(t) <==> s == t
  {
  }

  /** The table maps each state's name to the name of its successor. */
  lemma SuccessionsAgree(s: State)
    ensures Name(s) in StateSuccessions && StateSuccessions[Name(s)] == Name(Successor(s))
  {
  }

  /** The table's keys are exactly the eight state names, so it is total
      over the states and holds one successor for each. */
  lemma SuccessionsKeys(k: string)
    ensures k in StateSuccessions <==> StateNamed(k).Some?
  {
  }

  /** Every state's name has a registered handler. */
  lemma NamesRegistered(s: State)
    ensures Name(s) in StateClassRegistry
  {
  }

  /** Every name the succession table leads to has a registered handler. */
  lemma SuccessionTargetsRegistered(k: string)
    ensures k in StateSuccessions ==> StateSuccessions[k] in StateClassRegistry
  {
    SuccessionsKeys(k);
    if k in StateSuccessions {
      var s := StateNamed(k).value;
      NameRoundTrip(s, s);
      SuccessionsAgree(s);
      NamesRegistered(Successor(s));
    }
  }

  /** Every successor is registered, so the lookup succeeds for every known
      state, and yields the successor's handler. */
  lemma GetNextStateKnown(s: State)
    ensures GetNextState(Name(s)) == Success(StateClassRegistry[Name(Successor(s))])
  {
    SuccessionsAgree(s);
  }

  /** A name that is not a state has no successor, and the lookup fails. */
  lemma GetNextStateUnknown(current: string)
    requires StateNamed(current) == None
    ensures GetNextState(current).Failure?
  {
    SuccessionsKeys(current);
  }

  /** Nothing leads back to `dead`, and only `dead` leads to `login`. */
  lemma SuccessorShape(s: State)
    ensures Successor(s) != DEAD
    ensures Successor(s) == LOGIN <==> s == DEAD
  {
  }

  /** The six states from `authenticated` to `end`. */
  predicate InCycle(s: State)
  {
    s != DEAD && s != LOGIN
  }

  /** The state reached after `k` successions. */
  function Iterate(s: State, k: nat): State
  {
    if k == 0 then s else Successor(Iterate(s, k - 1))
  }

  /** The cycle is closed under succession. */
  lemma CycleClosed(s: State)
    requires InCycle(s)
    ensures InCycle(Successor(s))
  {
  }

  /** From any state, two or more successions land in the cycle. */
  lemma {:induction false} EventuallyInCycle(s: State, k: nat)
    requires k >= 2
    ensures InCycle(Iterate(s, k))
  {
    if k == 2 {
      assert Iterate(s, 2) == Successor(Successor(s));
    } else {
      EventuallyInCycle(s, k - 1);
      CycleClosed(Iterate(s, k - 1));
    }
  }

  /** Six successions bring every state of the cycle back to itself. */
  lemma SixStepsReturn(s: State)
    requires InCycle(s)
    ensures Iterate(s, 6) == s
  {
  }

  /** Going round the cycle any whole number of times changes nothing. */
  lemma {:induction false} WholeTurnsReturn(s: State, n: nat)
    requires InCycle(s)
    ensures Iterate(s, 6 * n) == s
  {
    if n > 0 {
      WholeTurnsReturn(s, n - 1);
      IterateAdd(s, 6 * (n - 1), 6);
      SixStepsReturn(s);
    }
  }

  lemma {:induction false} IterateAdd(s: State, j: nat, k: nat)
    ensures Iterate(s, j + k) == Iterate(Iterate(s, j), k)
  {
    if k > 0 {
      IterateAdd(s, j, k - 1);
    }
  }

  /** The chain from a new user: dead, login, authenticated, type_program,
      type_day, ready, started, end, and back to authenticated. */
  lemma ChainFromDead()
    ensures [Iterate(DEAD, 0), Iterate(DEAD, 1), Iterate(DEAD, 2), Iterate(DEAD, 3), Iterate(DEAD, 4),
             Iterate(DEAD, 5), Iterate(DEAD, 6), Iterate(DEAD, 7), Iterate(DEAD, 8)]
         == [DEAD, LOGIN, State.AUTHENTICATED, TYPE_PROGRAM, TYPE_DAY, READY, STARTED, END, State.AUTHENTICATED]
  {
  }

  /** Every step of the chain except the one from `end` back to
      `authenticated` goes to the state declared with the next value. */
  lemma SuccessorValue(s: State)
    requires s != END
    ensures StateValue(Successor(s)) == StateValue(s) + 1
  {
  }
}
