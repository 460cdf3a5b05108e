/** The per-user conversation record: one primary state and three
    independent sub-states, each an enumeration with fixed integer values. */
module StateMachines {

  /** Where a user is in the conversation. */
  datatype State = DEAD | LOGIN | AUTHENTICATED | TYPE_PROGRAM | TYPE_DAY | READY | STARTED | END

  /** Progress of a set update inside a started workout. */
  datatype SubStateUpdateSet = NONE | TYPE_SET | TYPE_WHAT | TYPE_NEW_VALUE

  /** Progress of the login dialogue. */
  datatype SubStateLogin = NONE | USERNAME | PASSWORD | AUTHENTICATED

  /** Progress of an exercise update inside a started workout. */
  datatype SubStateUpdateExercise = NONE | TYPE_EXPRESSION

  /** The integer value each `State` member is declared with. */
  function StateValue(s: State): (v: nat)
    ensures v < 8
  {
    match s
    case DEAD => 0
    case LOGIN => 1
    case AUTHENTICATED => 2
    case TYPE_PROGRAM => 3
    case TYPE_DAY => 4
    case READY => 5
    case STARTED => 6
    case END => 7
  }

  /** `State(v)`: the member declared with value `v`. */
  function StateOf(v: nat): (s: State)
    requires v < 8
    ensures StateValue(s) == v
  {
    [DEAD, LOGIN, State.AUTHENTICATED, TYPE_PROGRAM, TYPE_DAY, READY, STARTED, END][v]
  }

  /** The values 0..7 name the eight states one to one. */
  lemma StateValuesBijective(s: State, t: State)
    ensures StateOf(StateValue(s)) == s
    ensures StateValue(s) == StateValue(t) <==> s == t
  {
  }

  function UpdateSetValue(s: SubStateUpdateSet): (v: nat)
    ensures v < 4
  {
    match s
    case NONE => 0
    case TYPE_SET => 1
    case TYPE_WHAT => 2
    case TYPE_NEW_VALUE => 3
  }

  function UpdateSetOf(v: nat): (s: SubStateUpdateSet)
    requires v < 4
    ensures UpdateSetValue(s) == v
  {
    [SubStateUpdateSet.NONE, TYPE_SET, TYPE_WHAT, TYPE_NEW_VALUE][v]
  }

  function LoginValue(s: SubStateLogin): (v: nat)
    ensures v < 4
  {
    match s
    case NONE => 0
    case USERNAME => 1
    case PASSWORD => 2
    case AUTHENTICATED => 3
  }

  function LoginOf(v: nat): (s: SubStateLogin)
    requires v < 4
    ensures LoginValue(s) == v
  {
    [SubStateLogin.NONE, USERNAME, PASSWORD, SubStateLogin.AUTHENTICATED][v]
  }

  function UpdateExerciseValue(s: SubStateUpdateExercise): (v: nat)
    ensures v < 2
  {
    match s
    case NONE => 0
    case TYPE_EXPRESSION => 1
  }

  function UpdateExerciseOf(v: nat): (s: SubStateUpdateExercise)
    requires v < 2
    ensures UpdateExerciseValue(s) == v
  {
    [SubStateUpdateExercise.NONE, TYPE_EXPRESSION][v]
  }

  /** The three sub-state enumerations are numbered without gaps or repeats. */
  lemma SubStateValuesBijective(a: SubStateUpdateSet, b: SubStateLogin, c: SubStateUpdateExercise)
    ensures UpdateSetOf(UpdateSetValue(a)) == a
    ensures LoginOf(LoginValue(b)) == b
    ensures UpdateExerciseOf(UpdateExerciseValue(c)) == c
  {
  }

  /** The four fields of a `StateMachine` as one value. */
  datatype Snapshot = Snapshot(
    state: State,
    updateSet: SubStateUpdateSet,
    updateExercise: SubStateUpdateExercise,
    login: SubStateLogin)

  /** A new user's record: `DEAD`, with every sub-state `NONE`. */
  function Initial(): (m: Snapshot)
    ensures m.state == DEAD && m.updateSet == SubStateUpdateSet.NONE
    ensures m.updateExercise == SubStateUpdateExercise.NONE && m.login == SubStateLogin.NONE
  {
    Snapshot(DEAD, SubStateUpdateSet.NONE, SubStateUpdateExercise.NONE, SubStateLogin.NONE)
  }

  /** Each setter writes its own field and leaves the other three as they were. */
  function WithState(m: Snapshot, s: State): (r: Snapshot)
    ensures r.state == s
    ensures r.updateSet == m.updateSet && r.updateExercise == m.updateExercise && r.login == m.login
  {
    m.(state := s)
  }

  function WithUpdateSet(m: Snapshot, s: SubStateUpdateSet): (r: Snapshot)
    ensures r.updateSet == s
    ensures r.state == m.state && r.updateExercise == m.updateExercise && r.login == m.login
  {
    m.(updateSet := s)
  }

  function WithUpdateExercise(m: Snapshot, s: SubStateUpdateExercise): (r: Snapshot)
    ensures r.updateExercise == s
    ensures r.state == m.state && r.updateSet == m.updateSet && r.login == m.login
  {
    m.(updateExercise := s)
  }

  function WithLogin(m: Snapshot, s: SubStateLogin): (r: Snapshot)
    ensures r.login == s
    ensures r.state == m.state && r.updateSet == m.updateSet && r.updateExercise == m.updateExercise
  {
    m.(login := s)
  }

  /** Setting a field twice is the same as setting it once to the second
      value; in particular setting the same value twice is setting it once. */
  lemma SettersLastWriteWins(m: Snapshot, s1: State, s2: State, u1: SubStateUpdateSet, u2: SubStateUpdateSet,
                             e1: SubStateUpdateExercise, e2: SubStateUpdateExercise,
                             l1: SubStateLogin, l2: SubStateLogin)
    ensures WithState(WithState(m, s1), s2) == WithState(m, s2)
    ensures WithUpdateSet(WithUpdateSet(m, u1), u2) == WithUpdateSet(m, u2)
    ensures WithUpdateExercise(WithUpdateExercise(m, e1), e2) == WithUpdateExercise(m, e2)
    ensures WithLogin(WithLogin(m, l1), l2) == WithLogin(m, l2)
  {
  }

  /** Setters of different fields do not interfere: their order does not
      matter. */
  lemma SettersCommute(m: Snapshot, s: State, u: SubStateUpdateSet, e: SubStateUpdateExercise, l: SubStateLogin)
    ensures WithUpdateSet(WithState(m, s), u) == WithState(WithUpdateSet(m, u), s)
    ensures WithUpdateExercise(WithState(m, s), e) == WithState(WithUpdateExercise(m, e), s)
    ensures WithLogin(WithState(m, s), l) == WithState(WithLogin(m, l), s)
    ensures WithUpdateExercise(WithUpdateSet(m, u), e) == WithUpdateSet(WithUpdateExercise(m, e), u)
    ensures WithLogin(WithUpdateSet(m, u), l) == WithUpdateSet(WithLogin(m, l), u)
    ensures WithLogin(WithUpdateExercise(m, e), l) == WithUpdateExercise(WithLogin(m, l), e)
  {
  }

  /** One user's record; setters overwrite one field, getters only read. */
  class StateMachine {
    var state: State
    var substateUpdateSet: SubStateUpdateSet
    var substateUpdateExercise: SubStateUpdateExercise
    var substateLogin: SubStateLogin

    function Current(): Snapshot
      reads this
    {
      Snapshot(state, substateUpdateSet, substateUpdateExercise, substateLogin)
    }

    constructor()
      ensures Current() == Initial()
    {
      state := DEAD;
      substateUpdateSet := SubStateUpdateSet.NONE;
      substateUpdateExercise := SubStateUpdateExercise.NONE;
      substateLogin := SubStateLogin.NONE;
    }

    method SetState(s: State)
      modifies this
      ensures Current() == WithState(old(Current()), s)
    {
      state := s;
    }

    function GetState(): State
      reads this
    {
      state
    }

    method SetSubstateUpdateSet(s: SubStateUpdateSet)
      modifies this
      ensures Current() == WithUpdateSet(old(Current()), s)
    {
      substateUpdateSet := s;
    }

    function GetSubstateUpdateSet(): SubStateUpdateSet
      reads this
    {
      substateUpdateSet
    }

    method SetSubstateUpdateExercise(s: SubStateUpdateExercise)
      modifies this
      ensures Current() == WithUpdateExercise(old(Current()), s)
    {
      substateUpdateExercise := s;
    }

    function GetSubstateUpdateExercise(): SubStateUpdateExercise
      reads this
    {
      substateUpdateExercise
    }

    method SetSubstateLogin(s: SubStateLogin)
      modifies this
      ensures Current() == WithLogin(old(Current()), s)
    {
      substateLogin := s;
    }

    function GetSubstateLogin(): SubStateLogin
      reads this
    {
      substateLogin
    }
  }
}
