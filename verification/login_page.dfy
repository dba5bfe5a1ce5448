/** `LoginPage`: the login schema and the submit handler. */
module LoginPage {
  import opened Js
  import opened Browser
  import opened Http
  import opened Session
  import opened Validation
  import Actions
  import ProtectedRoute

  datatype Values = Values(username: string, password: string)

  /** Both fields are required; the password has no other rule. */
  function Valid(v: Values): (b: bool)
    ensures b <==> v.username != "" && v.password != ""
  {
    Required(v.username) && Required(v.password)
  }

  lemma AnyNonEmptyPasswordPasses(username: string, password: string)
    requires username != "" && password != ""
    ensures Valid(Values(username, password))
  {
  }

  const SuccessText := "Login successful!"
  const FallbackText := "Login failed. Please try again."

  /** `error.response?.data?.message || "Login failed. Please try again."` for what `login` threw. */
  function FailureText(t: Actions.Thrown): (text: string)
    ensures text != ""
    ensures t.Rethrown? && t.error.response.Some? && Truthy(t.error.response.value.message)
            ==> text == t.error.response.value.message.value
    ensures t.MissingResponse? ==> text == FallbackText
    ensures t.Rethrown? && t.error.response.None? ==> text == FallbackText
    ensures t.Rethrown? && t.error.response.Some? ==> text == OrElse(t.error.response.value.message, FallbackText)
    ensures t.Rethrown? && t.error.response.Some? && !Truthy(t.error.response.value.message) ==> text == FallbackText
  {
    match t
    case Rethrown(e) =>
      (match e.response
       case Some(body) => OrElse(body.message, FallbackText)
       case None => FallbackText)
    case MissingResponse => FallbackText
  }

  datatype Message = Message(text: string, severity: string)

  /** The page's own state. `clearPending` stands for the 10-second timer that clears the message. */
  class Page {
    var message: Message
    var loading: bool
    var submitting: bool
    var clearPending: bool

    constructor ()
      ensures message == Message("", "") && !loading && !submitting && !clearPending
    {
      message, loading, submitting, clearPending := Message("", ""), false, false, false;
    }

    /** `handleSubmit`: on success the returned token is stored, a success
        message is shown and the browser goes to `/members`; on failure the
        message is the server's or the fallback. `loading` and `submitting`
        are false afterwards either way. */
    method HandleSubmit(store: Actions.Store, w: Window, submitted: Values, response: Outcome<LoginData>)
      requires store.Valid()
      modifies this, store, w
      ensures store.Valid()
      ensures !loading && !submitting && clearPending
      ensures response.Ok? ==>
        && w.storage == old(w.storage)["token" := response.data.token]
        && w.location == "/members"
        && message == Message(SuccessText, "success")
        && store.log == old(store.log) + [LoginRequest, LoginSuccess(response.data)]
        && !store.state.loading && store.state.user == response.data.user
        && store.state.userId == response.data.userId && store.state.error == None
      ensures response.Ok? && response.data.token != "" ==> ProtectedRoute.IsLoggedIn(w.storage)
      ensures response.Fail? ==> w.storage == old(w.storage) && w.location == old(w.location)
      ensures response.Fail? && response.error.response.Some? ==>
        && message == Message(OrElse(response.error.response.value.message, FallbackText), "error")
        && store.log == old(store.log) + [LoginRequest, LoginFailure(response.error.response.value.message)]
        && !store.state.loading && store.state.error == response.error.response.value.message
        && store.state.user == None && store.state.userId == None
      ensures response.Fail? && response.error.response.None? ==>
        && message == Message(FallbackText, "error")
        && store.log == old(store.log) + [LoginRequest]
        && store.state.loading
    {
      submitting := true;
      loading := true;
      var result := Actions.Login(store, response);
      match result {
        case Returned(data) =>
          w.SetItem("token", data.token);
          message := Message(SuccessText, "success");
          w.Navigate("/members");
        case Threw(t) =>
          message := Message(FailureText(t), "error");
      }
      loading := false;
      submitting := false;
      clearPending := true;
    }

    /** The timer callback: the message is cleared. */
    method FireTimer()
      requires clearPending
      modifies this
      ensures message == Message("", "") && !clearPending
      ensures loading == old(loading) && submitting == old(submitting)
    {
      message := Message("", "");
      clearPending := false;
    }
  }
}
