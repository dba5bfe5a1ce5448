/** The session slice of the store (`state.user`) and the pure reducer that
    moves it from one snapshot to the next on each dispatched action. */
module Session {
  import opened Js

  /** The user record the API returns (`GET /api/v1/users/{id}`, or `user` in a login answer). */
  datatype UserRecord = UserRecord(username: string, email: string, displayName: string, role: string)

  /** One entry of `GET /api/v1/roles`: `{_id, name}`. */
  datatype Role = Role(id: string, name: string)

  /** The `roles` field of the session: absent or undefined, present but not an
      array (null, an object, ...), or an array of roles. */
  datatype RolesValue = Undefined | NotAnArray | RoleArray(items: seq<Role>)

  /** `response.data` of a successful login: `{token, user, userId}`; a missing field is `None`. */
  datatype LoginData = LoginData(token: string, user: Option<UserRecord>, userId: Option<string>)

  /** The actions the thunks dispatch. `Unrecognized` stands for an action whose
      type string is none of the ten exported constants (the store's own
      initialisation action, for one). */
  datatype Action =
    | AddUserRequest
    | AddUserSuccess(created: UserRecord)
    | AddUserFailure(addError: Option<string>)
    | LoginRequest
    | LoginSuccess(login: LoginData)
    | LoginFailure(loginError: Option<string>)
    | FetchUserRequest
    | FetchUserSuccess(fetched: UserRecord)
    | FetchUserFailure(fetchError: Option<string>)
    | FetchRolesSuccess(roles: RolesValue)
    | Unrecognized
  {
    /** A REQUEST of the login or fetch-user family. */
    predicate IsRequest()
    {
      LoginRequest? || FetchUserRequest?
    }

    /** A SUCCESS or FAILURE of the login or fetch-user family. */
    predicate IsCompletion()
    {
      LoginSuccess? || LoginFailure? || FetchUserSuccess? || FetchUserFailure?
    }

    /** An action the reducer has a case for. */
    predicate IsHandled()
    {
      IsRequest() || IsCompletion() || FetchRolesSuccess?
    }

    predicate IsAddUser()
    {
      AddUserRequest? || AddUserSuccess? || AddUserFailure?
    }
  }

  datatype SessionState = SessionState(
    loading: bool,
    user: Option<UserRecord>,
    userId: Option<string>,
    error: Option<string>,
    roles: RolesValue)

  /** `initialState`: not loading, no user, no id, no error, and no `roles` field. */
  const InitialState := SessionState(false, None, None, None, Undefined)

  /** `userReducer(state, action)`. */
  function Reduce(s: SessionState, a: Action): (r: SessionState)
    ensures !a.IsHandled() ==> r == s
    ensures r.loading != s.loading ==> a.IsRequest() || a.IsCompletion()
    ensures r.roles != s.roles ==> a.FetchRolesSuccess?
    ensures r.userId != s.userId ==> a.LoginSuccess? || a.LoginFailure?
    ensures r.user != s.user ==> a.IsCompletion()
    ensures r.error.Some? ==> a.LoginFailure? || a.FetchUserFailure? || r.error == s.error
  {
    match a
    case LoginRequest => s.(loading := true, error := None)
    case LoginSuccess(d) => s.(loading := false, user := d.user, userId := d.userId, error := None)
    case LoginFailure(e) => s.(loading := false, user := None, userId := None, error := e)
    case FetchUserRequest => s.(loading := true, error := None)
    case FetchUserSuccess(u) => s.(loading := false, user := Some(u), error := None)
    case FetchUserFailure(e) => s.(loading := false, user := None, error := e)
    case FetchRolesSuccess(rs) => s.(roles := rs)
    case _ => s
  }

  /** The state after the store has received `log`, one action at a time, starting from `s`. */
  function Run(s: SessionState, log: seq<Action>): (r: SessionState)
    ensures log == [] ==> r == s
    ensures r.error.Some? && r.error != s.error ==>
      exists i :: 0 <= i < |log| && (log[i].LoginFailure? || log[i].FetchUserFailure?)
    decreases |log|
  {
    if log == [] then s
    else
      var prefix := log[..|log| - 1];
      assert forall i :: 0 <= i < |prefix| ==> prefix[i] == log[i];
      Reduce(Run(s, prefix), log[|log| - 1])
  }

  lemma InitialStateIsIdle()
    ensures !InitialState.loading
    ensures InitialState.user == None && InitialState.userId == None && InitialState.error == None
    ensures InitialState.roles == Undefined
  {
  }

  /** Both REQUEST actions raise `loading` and clear `error`, keeping user, id and roles. */
  lemma RequestStartsLoading(s: SessionState, a: Action)
    requires a.IsRequest()
    ensures Reduce(s, a) == s.(loading := true, error := None)
  {
  }

  lemma LoginSuccessInstallsUser(s: SessionState, d: LoginData)
    ensures Reduce(s, LoginSuccess(d)).loading == false
    ensures Reduce(s, LoginSuccess(d)).error == None
    ensures Reduce(s, LoginSuccess(d)).user == d.user
    ensures Reduce(s, LoginSuccess(d)).userId == d.userId
    ensures Reduce(s, LoginSuccess(d)).roles == s.roles
  {
  }

  /** LOGIN_FAILURE clears both `user` and `userId`, whatever they were. */
  lemma LoginFailureClearsIdentity(s: SessionState, e: Option<string>)
    ensures Reduce(s, LoginFailure(e)) == s.(loading := false, user := None, userId := None, error := e)
  {
  }

  /** FETCH_USER_SUCCESS replaces `user` wholesale, FETCH_USER_FAILURE nulls it; neither touches `userId`. */
  lemma FetchUserOutcome(s: SessionState, u: UserRecord, e: Option<string>)
    ensures Reduce(s, FetchUserSuccess(u)) == s.(loading := false, user := Some(u), error := None)
    ensures Reduce(s, FetchUserFailure(e)) == s.(loading := false, user := None, error := e)
    ensures Reduce(s, FetchUserSuccess(u)).userId == s.userId == Reduce(s, FetchUserFailure(e)).userId
  {
  }

  /** FETCH_ROLES_SUCCESS is a side channel: only `roles` changes. */
  lemma RolesMergeIsSideChannel(s: SessionState, rs: RolesValue)
    ensures Reduce(s, FetchRolesSuccess(rs)) == s.(roles := rs)
  {
  }

  /** ADD_USER_* actions (imported by the reducer but never handled) leave the state identical. */
  lemma AddUserActionsIgnored(s: SessionState, a: Action)
    requires a.IsAddUser() || a.Unrecognized?
    ensures Reduce(s, a) == s
  {
  }

  /** `loading` is one flag for both families: a fetch-user completion clears a
      login request's `loading`, and the other way round. */
  lemma SharedLoadingFlag(s: SessionState, u: UserRecord, d: LoginData)
    ensures !Run(s, [LoginRequest, FetchUserSuccess(u)]).loading
    ensures !Run(s, [FetchUserRequest, LoginSuccess(d)]).loading
  {
    assert [LoginRequest, FetchUserSuccess(u)][..1] == [LoginRequest];
    assert [FetchUserRequest, LoginSuccess(d)][..1] == [FetchUserRequest];
  }

  /** Replaying two logs one after the other is replaying their concatenation. */
  lemma {:induction false} RunConcat(s: SessionState, xs: seq<Action>, ys: seq<Action>)
    ensures Run(s, xs + ys) == Run(Run(s, xs), ys)
    decreases |ys|
  {
    if ys == [] {
      assert xs + ys == xs;
    } else {
      var last := ys[|ys| - 1];
      assert (xs + ys)[..|xs + ys| - 1] == xs + ys[..|ys| - 1];
      RunConcat(s, xs, ys[..|ys| - 1]);
    }
  }

  /** Replaying one more action is one more reducer step. */
  lemma RunSnoc(s: SessionState, log: seq<Action>, a: Action)
    ensures Run(s, log + [a]) == Reduce(Run(s, log), a)
  {
    assert (log + [a])[..|log|] == log;
  }

  /** A log made only of ADD_USER_* actions never changes the session. */
  lemma {:induction false} AddUserLogIsInert(s: SessionState, log: seq<Action>)
    requires forall i :: 0 <= i < |log| ==> log[i].IsAddUser()
    ensures Run(s, log) == s
    decreases |log|
  {
    if log != [] {
      AddUserLogIsInert(s, log[..|log| - 1]);
    }
  }

  /** Without a FETCH_ROLES_SUCCESS in the log, `roles` keeps its value. */
  lemma {:induction false} RolesChangeOnlyOnRolesSuccess(s: SessionState, log: seq<Action>)
    requires forall i :: 0 <= i < |log| ==> !log[i].FetchRolesSuccess?
    ensures Run(s, log).roles == s.roles
    decreases |log|
  {
    if log != [] {
      RolesChangeOnlyOnRolesSuccess(s, log[..|log| - 1]);
    }
  }

  /** Without a LOGIN_SUCCESS or LOGIN_FAILURE in the log, `userId` keeps its value. */
  lemma {:induction false} UserIdChangesOnlyOnLoginCompletion(s: SessionState, log: seq<Action>)
    requires forall i :: 0 <= i < |log| ==> !log[i].LoginSuccess? && !log[i].LoginFailure?
    ensures Run(s, log).userId == s.userId
    decreases |log|
  {
    if log != [] {
      UserIdChangesOnlyOnLoginCompletion(s, log[..|log| - 1]);
    }
  }

  /** No REQUEST, SUCCESS or FAILURE of either family follows position `i`. */
  ghost predicate QuietAfter(log: seq<Action>, i: int)
  {
    forall j :: 0 <= j < |log| && i < j ==> !log[j].IsRequest() && !log[j].IsCompletion()
  }

  /** Some REQUEST is still outstanding after `log`: either the last lifecycle
      action of the log is a REQUEST, or the log has none and `loading` was already set. */
  ghost predicate RequestOutstanding(loading: bool, log: seq<Action>)
  {
    (exists i :: 0 <= i < |log| && log[i].IsRequest() && QuietAfter(log, i))
    || (loading && QuietAfter(log, -1))
  }

  /** `loading` after a log is true exactly when a REQUEST of either family is
      the most recent lifecycle action (one flag serves both families). */
  lemma {:induction false} LoadingTracksLastLifecycleAction(s: SessionState, log: seq<Action>)
    ensures Run(s, log).loading <==> RequestOutstanding(s.loading, log)
    decreases |log|
  {
    if log != [] {
      var n := |log|;
      var init, e := log[..n - 1], log[n - 1];
      assert log == init + [e];
      LoadingTracksLastLifecycleAction(s, init);
      if e.IsRequest() {
        assert QuietAfter(log, n - 1);
      } else if e.IsCompletion() {
        assert !QuietAfter(log, -1);
        forall i | 0 <= i < n - 1 ensures !QuietAfter(log, i) {
          assert log[n - 1] == e;
        }
      } else {
        forall i | -1 <= i < n - 1 ensures QuietAfter(log, i) <==> QuietAfter(init, i) {
          if QuietAfter(init, i) {
            forall j | i < j < n ensures !log[j].IsRequest() && !log[j].IsCompletion() {
              if j < n - 1 { assert log[j] == init[j]; }
            }
          }
          if QuietAfter(log, i) {
            forall j | i < j < n - 1 ensures !init[j].IsRequest() && !init[j].IsCompletion() {
              assert log[j] == init[j];
            }
          }
        }
        if RequestOutstanding(s.loading, init) {
          if i :| 0 <= i < n - 1 && init[i].IsRequest() && QuietAfter(init, i) {
            assert log[i] == init[i];
          }
        }
        if RequestOutstanding(s.loading, log) {
          if i :| 0 <= i < n && log[i].IsRequest() && QuietAfter(log, i) {
            assert i < n - 1;
            assert init[i] == log[i];
          }
        }
      }
    }
  }

  /** The scenario LOGIN_REQUEST, LOGIN_SUCCESS{user, userId} from the initial state. */
  lemma LoginScenario(u: UserRecord, id: string, token: string)
    ensures Run(InitialState, [LoginRequest, LoginSuccess(LoginData(token, Some(u), Some(id)))])
            == SessionState(false, Some(u), Some(id), None, Undefined)
  {
    assert [LoginRequest, LoginSuccess(LoginData(token, Some(u), Some(id)))][..1] == [LoginRequest];
    assert [LoginRequest][..0] == [];
  }

  /** The scenario LOGIN_REQUEST, LOGIN_FAILURE{error} from the initial state. */
  lemma LoginFailureScenario(e: string)
    ensures Run(InitialState, [LoginRequest, LoginFailure(Some(e))])
            == SessionState(false, None, None, Some(e), Undefined)
  {
    assert [LoginRequest, LoginFailure(Some(e))][..1] == [LoginRequest];
    assert [LoginRequest][..0] == [];
  }
}
