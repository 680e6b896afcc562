/**
 * `client/src/state/reducers/authReducer.ts`: the admin panel's Redux slice
 * for the signed-in account. The state is an object whose keys are all
 * optional, so it is a map from key to value here; `LOGIN_SUCCESS` spreads
 * the user object into it, and a user is a map from its own keys to their
 * values (their text). `client/src/types/User.ts` is not part of this model.
 */
module AuthReducer {
  import opened Wrappers

  type UserObject = map<string, string>

  /** A value of the state object: a flag, the stored user, or a field copied
      from a user by the spread. */
  datatype Prop = Flag(b: bool) | UserValue(user: UserObject) | Copied(text: string)

  type AuthState = map<string, Prop>

  datatype AuthAction =
    | LoginRequest(user: UserObject)
    | LoginSuccess(user: UserObject)
    | FetchUser(user: UserObject)
    | OtherAction(kind: string)

  const INITIAL_STATE: AuthState := map[]

  function Current(state: Option<AuthState>): (s: AuthState)
    ensures state.None? ==> s == INITIAL_STATE
    ensures state.Some? ==> s == state.value
  {
    state.GetOr(INITIAL_STATE)
  }

  /** `{ ...state, ...user }`: every key of either, the user's value winning. */
  function Spread(state: AuthState, user: UserObject): (r: AuthState)
    ensures r.Keys == state.Keys + user.Keys
    ensures forall k | k in user :: r[k] == Copied(user[k])
    ensures forall k | k in state && k !in user :: r[k] == state[k]
  {
    map k | k in state.Keys + user.Keys :: if k in user then Copied(user[k]) else state[k]
  }

  /** `LOGIN_REQUEST` sets `loggingIn` and `user`; `LOGIN_SUCCESS` spreads
      the user and then sets `loggedIn` and `authenticated`; `FETCH_USER`
      sets `user`; anything else leaves the state. */
  function AuthReducer(state: Option<AuthState>, action: AuthAction): (s: AuthState)
    ensures action.LoginRequest? ==>
              s.Keys == Current(state).Keys + {"loggingIn", "user"}
              && s["loggingIn"] == Flag(true) && s["user"] == UserValue(action.user)
              && forall k | k in Current(state) && k !in {"loggingIn", "user"} :: s[k] == Current(state)[k]
    ensures action.LoginSuccess? ==>
              s.Keys == Current(state).Keys + action.user.Keys + {"loggedIn", "authenticated"}
              && s["loggedIn"] == Flag(true) && s["authenticated"] == Flag(true)
              && (forall k | k in action.user && k !in {"loggedIn", "authenticated"} :: s[k] == Copied(action.user[k]))
              && (forall k | k in Current(state) && k !in action.user && k !in {"loggedIn", "authenticated"} ::
                    s[k] == Current(state)[k])
    ensures action.FetchUser? ==>
              s == Current(state)["user" := UserValue(action.user)]
    ensures action.OtherAction? ==> s == Current(state)
  {
    var current := Current(state);
    match action
    case LoginRequest(u) => current["loggingIn" := Flag(true)]["user" := UserValue(u)]
    case LoginSuccess(u) => Spread(current, u)["loggedIn" := Flag(true)]["authenticated" := Flag(true)]
    case FetchUser(u) => current["user" := UserValue(u)]
    case OtherAction(_) => current
  }

  /** A login request followed by its success, for a user without keys of its
      own named like the state's: `loggingIn` is still set and `user` still
      holds the user — the success does not reset them — and the user's
      fields are also at the top level. */
  lemma RequestThenSuccessKeepsLoggingIn(state: Option<AuthState>, user: UserObject)
    requires "loggingIn" !in user && "user" !in user
    ensures var s := AuthReducer(Some(AuthReducer(state, LoginRequest(user))), LoginSuccess(user));
            && s["loggingIn"] == Flag(true)
            && s["user"] == UserValue(user)
            && s["loggedIn"] == Flag(true) && s["authenticated"] == Flag(true)
            && forall k | k in user && k !in {"loggedIn", "authenticated"} :: s[k] == Copied(user[k])
  {
    var requested := AuthReducer(state, LoginRequest(user));
    assert "loggingIn" in requested && "user" in requested;
  }

  /** A user object with a `loggedIn` field cannot switch the flags off: they
      are written after the spread. */
  lemma FlagsWrittenAfterSpread(state: Option<AuthState>, user: UserObject)
    ensures AuthReducer(state, LoginSuccess(user))["loggedIn"] == Flag(true)
    ensures AuthReducer(state, LoginSuccess(user))["authenticated"] == Flag(true)
  {
  }

  /** `FETCH_USER` changes nothing but `user`. */
  lemma FetchUserChangesOnlyUser(state: Option<AuthState>, user: UserObject, k: string)
    requires k in Current(state) && k != "user"
    ensures k in AuthReducer(state, FetchUser(user)) && AuthReducer(state, FetchUser(user))[k] == Current(state)[k]
  {
  }
}
