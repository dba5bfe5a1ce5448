/** The action thunks: each dispatches a fixed sequence of actions around one
    request, whose result is given as an input. The store records every
    dispatched action in `log` and keeps `state` equal to the replay of `log`. */
module Actions {
  import opened Js
  import opened Http
  import opened Session

  /** The Redux store, restricted to the session slice. */
  class Store {
    var state: SessionState
    var log: seq<Action>

    ghost predicate Valid()
      reads this
    {
      state == Run(InitialState, log)
    }

    /** The store is created by running the reducer on its own initialisation
        action, which falls through to the default case. */
    constructor ()
      ensures Valid() && log == [] && state == InitialState
    {
      state := Reduce(InitialState, Unrecognized);
      log := [];
    }

    /** `dispatch(action)`: one reducer step, recorded in the log. */
    method Dispatch(a: Action)
      requires Valid()
      modifies this
      ensures Valid()
      ensures log == old(log) + [a]
      ensures state == Reduce(old(state), a)
    {
      RunSnoc(InitialState, log, a);
      state := Reduce(state, a);
      log := log + [a];
    }
  }

  /** How `login` ends for its caller: it returns `response.data`, or it rejects. */
  datatype LoginOutcome = Returned(data: LoginData) | Threw(thrown: Thrown)

  /** What `login` rejects with: the request's own error, rethrown, or the
      TypeError raised by reading `error.response.data` when there is no response. */
  datatype Thrown = Rethrown(error: HttpError) | MissingResponse

  /** `addUser(user)`: ADD_USER_REQUEST, then ADD_USER_SUCCESS with the created
      record or ADD_USER_FAILURE with `error.message`; it never rejects. */
  method AddUser(store: Store, response: Outcome<UserRecord>)
    requires store.Valid()
    modifies store
    ensures store.Valid()
    ensures response.Ok? ==> store.log == old(store.log) + [AddUserRequest, AddUserSuccess(response.data)]
    ensures response.Fail? ==> store.log == old(store.log) + [AddUserRequest, AddUserFailure(Some(response.error.message))]
    ensures store.state == old(store.state)
  {
    store.Dispatch(AddUserRequest);
    match response {
      case Ok(created) =>
        store.Dispatch(AddUserSuccess(created));
      case Fail(e) =>
        store.Dispatch(AddUserFailure(Some(e.message)));
    }
  }

  /** `login(credentials)`: LOGIN_REQUEST, then on success LOGIN_SUCCESS and the
      data is returned; on failure with a response, LOGIN_FAILURE with
      `response.data.message` and the error is rethrown; on failure without a
      response, reading `error.response.data` throws before anything is
      dispatched, so the session is left loading. */
  method Login(store: Store, response: Outcome<LoginData>) returns (r: LoginOutcome)
    requires store.Valid()
    modifies store
    ensures store.Valid()
    ensures response.Ok? ==>
      && store.log == old(store.log) + [LoginRequest, LoginSuccess(response.data)]
      && r == Returned(response.data)
    ensures response.Fail? && response.error.response.Some? ==>
      && store.log == old(store.log) + [LoginRequest, LoginFailure(response.error.response.value.message)]
      && r == Threw(Rethrown(response.error))
    ensures response.Fail? && response.error.response.None? ==>
      && store.log == old(store.log) + [LoginRequest]
      && r == Threw(MissingResponse)
      && store.state.loading
  {
    store.Dispatch(LoginRequest);
    match response {
      case Ok(data) =>
        store.Dispatch(LoginSuccess(data));
        r := Returned(data);
      case Fail(e) =>
        if e.response.None? {
          r := Threw(MissingResponse);
        } else {
          store.Dispatch(LoginFailure(e.response.value.message));
          r := Threw(Rethrown(e));
        }
    }
  }

  /** `fetchUserDetails(userId)`: FETCH_USER_REQUEST, then FETCH_USER_SUCCESS
      with the record or FETCH_USER_FAILURE with `error.message`; it never rejects. */
  method FetchUserDetails(store: Store, response: Outcome<UserRecord>)
    requires store.Valid()
    modifies store
    ensures store.Valid()
    ensures response.Ok? ==> store.log == old(store.log) + [FetchUserRequest, FetchUserSuccess(response.data)]
    ensures response.Fail? ==> store.log == old(store.log) + [FetchUserRequest, FetchUserFailure(Some(response.error.message))]
    ensures !store.state.loading
    ensures store.state.userId == old(store.state.userId)
    ensures store.state.roles == old(store.state.roles)
  {
    store.Dispatch(FetchUserRequest);
    match response {
      case Ok(u) =>
        store.Dispatch(FetchUserSuccess(u));
      case Fail(e) =>
        store.Dispatch(FetchUserFailure(Some(e.message)));
    }
  }

  /** `fetchRoles()`: no REQUEST; FETCH_ROLES_SUCCESS with `response.data.roles`
      on success, nothing at all on failure (the error is only logged). */
  method FetchRoles(store: Store, response: Outcome<RolesValue>)
    requires store.Valid()
    modifies store
    ensures store.Valid()
    ensures response.Ok? ==> store.log == old(store.log) + [FetchRolesSuccess(response.data)]
    ensures response.Ok? ==> store.state == old(store.state).(roles := response.data)
    ensures response.Fail? ==> store.log == old(store.log) && store.state == old(store.state)
  {
    match response {
      case Ok(roles) =>
        store.Dispatch(FetchRolesSuccess(roles));
      case Fail(_) =>
    }
  }

  /** The first action each REQUEST-emitting thunk dispatches is its REQUEST,
      whatever the result of the request turns out to be. */
  method RequestComesFirst(u: Outcome<UserRecord>, l: Outcome<LoginData>, f: Outcome<UserRecord>)
    returns (addUserFirst: Action, loginFirst: Action, fetchUserFirst: Action)
    ensures addUserFirst == AddUserRequest
    ensures loginFirst == LoginRequest
    ensures fetchUserFirst == FetchUserRequest
  {
    var s1 := new Store();
    AddUser(s1, u);
    addUserFirst := s1.log[0];
    var s2 := new Store();
    var _ := Login(s2, l);
    loginFirst := s2.log[0];
    var s3 := new Store();
    FetchUserDetails(s3, f);
    fetchUserFirst := s3.log[0];
  }
}
