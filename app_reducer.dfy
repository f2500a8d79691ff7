/** The user data the browser keeps after signing in, and the roles
    (front/src/models/Auth.ts). */
module Auth {
  import opened Wrappers

  const ADMIN := 0
  const PLACE_OWNER := 1
  const CUSTOMER := 2

  datatype UserData = UserData(
    id: int, username: string, firstname: string, lastname: string,
    middlename: Option<string>, description: Option<string>, flat: Option<int>, role: int)
}

/** The application reducer (front/src/store/app/reducer.ts): sign-in state
    driven by five action types; every other action leaves the state alone.
    Removing the token from local storage on `LOGOUT` is left out. */
module AppReducer {
  import opened Wrappers
  import opened Auth

  const INIT_APP := "INIT_APP"
  const INIT_APP_SUCCESS := "INIT_APP_SUCCESS"
  const INIT_APP_FAILURE := "INIT_APP_FAILURE"
  const LOGIN_SUCCESS := "LOGIN_SUCCESS"
  const LOGOUT := "LOGOUT"

  datatype State = State(initializationInProgress: bool, loggedIn: bool, user: Option<UserData>)

  /** An action: its type and its payload, when it has one. */
  datatype Action = Action(actionType: string, payload: Option<UserData>)

  const InitialState := State(false, false, None)

  /** `reducer(state = initialState, action)`; an absent state is the initial one. */
  function Reducer(state: Option<State>, action: Action): (r: State)
    ensures action.actionType == INIT_APP ==>
              r == state.GetOr(InitialState).(initializationInProgress := true)
    ensures action.actionType == INIT_APP_SUCCESS ==>
              r.loggedIn && !r.initializationInProgress && r.user == action.payload
    ensures action.actionType == INIT_APP_FAILURE ==> r == State(false, false, None)
    ensures action.actionType == LOGIN_SUCCESS ==>
              && r.user == action.payload && r.loggedIn
              && r.initializationInProgress == state.GetOr(InitialState).initializationInProgress
    ensures action.actionType == LOGOUT ==>
              && r.user.None? && !r.loggedIn
              && r.initializationInProgress == state.GetOr(InitialState).initializationInProgress
    ensures action.actionType !in {INIT_APP, INIT_APP_SUCCESS, INIT_APP_FAILURE, LOGIN_SUCCESS, LOGOUT} ==>
              r == state.GetOr(InitialState)
  {
    var s := state.GetOr(InitialState);
    if action.actionType == INIT_APP then s.(initializationInProgress := true)
    else if action.actionType == INIT_APP_SUCCESS then s.(loggedIn := true, initializationInProgress := false, user := action.payload)
    else if action.actionType == INIT_APP_FAILURE then s.(loggedIn := false, initializationInProgress := false, user := None)
    else if action.actionType == LOGIN_SUCCESS then s.(user := action.payload, loggedIn := true)
    else if action.actionType == LOGOUT then s.(user := None, loggedIn := false)
    else s
  }

  /** Signed in exactly when a user is known. */
  predicate Consistent(s: State) {
    s.loggedIn <==> s.user.Some?
  }

  /** The actions that carry user data do carry it. */
  predicate WellFormed(a: Action) {
    a.actionType in {INIT_APP_SUCCESS, LOGIN_SUCCESS} ==> a.payload.Some?
  }

  /** The state after a run of actions, starting from `state`. */
  function Run(state: Option<State>, actions: seq<Action>): State
    decreases |actions|
  {
    if actions == [] then state.GetOr(InitialState)
    else Run(Some(Reducer(state, actions[0])), actions[1..])
  }

  /** Every action keeps `loggedIn` and `user` in step. */
  lemma ReducerConsistent(state: Option<State>, action: Action)
    requires state.None? || Consistent(state.value)
    requires WellFormed(action)
    ensures Consistent(Reducer(state, action))
  {
  }

  /** So does every run of well-formed actions from the initial state. */
  lemma {:induction false} RunConsistent(state: Option<State>, actions: seq<Action>)
    requires state.None? || Consistent(state.value)
    requires forall i :: 0 <= i < |actions| ==> WellFormed(actions[i])
    ensures Consistent(Run(state, actions))
    decreases |actions|
  {
    if actions != [] {
      ReducerConsistent(state, actions[0]);
      RunConsistent(Some(Reducer(state, actions[0])), actions[1..]);
    }
  }

  /** Running two lists is running their concatenation. */
  lemma {:induction false} RunAppend(state: Option<State>, a: seq<Action>, b: seq<Action>)
    ensures Run(state, a + b) == Run(Some(Run(state, a)), b)
    decreases |a|
  {
    if a == [] {
      assert a + b == b;
    } else {
      assert (a + b)[0] == a[0] && (a + b)[1..] == a[1..] + b;
      RunAppend(Some(Reducer(state, a[0])), a[1..], b);
    }
  }

  /** Whatever happened before, a `LOGOUT` signs the user out. */
  lemma LogoutSignsOut(state: Option<State>, actions: seq<Action>)
    ensures !Run(state, actions + [Action(LOGOUT, None)]).loggedIn
    ensures Run(state, actions + [Action(LOGOUT, None)]).user.None?
  {
    RunAppend(state, actions, [Action(LOGOUT, None)]);
  }

  /** A successful start-up signs the user in with the payload and ends the
      start-up, from any state. */
  lemma InitAppThenSuccess(state: Option<State>, u: UserData)
    ensures Run(state, [Action(INIT_APP, None), Action(INIT_APP_SUCCESS, Some(u))]) == State(false, true, Some(u))
  {
    var s1 := Reducer(state, Action(INIT_APP, None));
    assert [Action(INIT_APP, None), Action(INIT_APP_SUCCESS, Some(u))][1..] == [Action(INIT_APP_SUCCESS, Some(u))];
    assert Run(Some(s1), [Action(INIT_APP_SUCCESS, Some(u))]) == Run(Some(Reducer(Some(s1), Action(INIT_APP_SUCCESS, Some(u)))), []);
  }
}
