/** `AdminPage`: the category schema, the authorised POST and its message. */
module AdminPage {
  import opened Js
  import opened Browser
  import opened Validation

  datatype Values = Values(name: string, description: string)

  const InitialValues := Values("", "")

  /** The whole schema: a name of 3 to 30 characters and a description of 50 to 500. */
  function Valid(v: Values): (b: bool)
    ensures b <==> 3 <= |v.name| <= 30 && 50 <= |v.description| <= 500
  {
    && Required(v.name) && LengthBetween(v.name, 3, 30)
    && Required(v.description) && LengthBetween(v.description, 50, 500)
  }

  /** The empty form the page starts from never passes, and a two-letter name fails whatever the description. */
  lemma InitialValuesInvalid(description: string)
    ensures !Valid(InitialValues)
    ensures !Valid(Values("ab", description))
  {
  }

  /** `` `Bearer ${localStorage.getItem('token')}` ``: a missing token is written as `null`. */
  function AuthorizationHeader(st: Storage): (h: string)
    ensures |h| >= 7 && h[..7] == "Bearer "
    ensures "token" in st ==> h[7..] == st["token"]
    ensures "token" !in st ==> h[7..] == "null"
  {
    "Bearer " + match GetItem(st, "token") case Some(t) => t case None => "null"
  }

  /** The request the page sends: the form values and the Authorization header. */
  datatype Request = Request(body: Values, authorization: string)

  const SuccessText := "Category added successfully!"
  const FailureText := "Error adding category."

  /** The alert's severity: `message.includes("Error") ? "error" : "success"`. */
  function SeverityOf(message: string): (severity: string)
    ensures severity == "error" <==> Includes(message, "Error")
    ensures severity == "success" <==> !Includes(message, "Error")
  {
    if Includes(message, "Error") then "error" else "success"
  }

  /** The two messages the handler sets get the two severities. */
  lemma MessagesGetTheirSeverity()
    ensures SeverityOf(SuccessText) == "success"
    ensures SeverityOf(FailureText) == "error"
  {
    SuccessTextHasNoError();
    FailureTextHasError();
  }

  lemma SuccessTextHasNoError()
    ensures !Includes(SuccessText, "Error")
  {
    assert 'E' !in SuccessText;
    MissingFirstCharExcludes(SuccessText, "Error");
  }

  lemma FailureTextHasError()
    ensures Includes(FailureText, "Error")
  {
    assert FailureText[..5] == "Error";
    assert OccursAt(FailureText, "Error", 0);
  }

  /** The page's own state. `navigatePending` stands for the 3-second timer
      that goes to the product form after a success. */
  class Page {
    var message: string
    var loading: bool
    var values: Values
    var navigatePending: bool

    constructor ()
      ensures message == "" && !loading && values == InitialValues && !navigatePending
    {
      message, loading, values, navigatePending := "", false, InitialValues, false;
    }

    /** `handleSubmit`: the POST carries the stored token; success or failure
        sets its message, and `loading` is false afterwards either way. */
    method HandleSubmit(w: Window, submitted: Values, posted: bool) returns (request: Request)
      modifies this
      ensures request == Request(submitted, AuthorizationHeader(w.storage))
      ensures !loading
      ensures posted ==> message == SuccessText && values == InitialValues && navigatePending
      ensures !posted ==> message == FailureText && values == submitted && navigatePending == old(navigatePending)
    {
      values := submitted;
      loading := true;
      request := Request(submitted, AuthorizationHeader(w.storage));
      if posted {
        message := SuccessText;
        values := InitialValues;
        navigatePending := true;
      } else {
        message := FailureText;
      }
      loading := false;
    }

    /** The delayed step after a success. */
    method FireTimer(w: Window)
      requires navigatePending
      modifies this, w
      ensures w.location == "/admin/add-product" && w.storage == old(w.storage)
      ensures !navigatePending && message == old(message) && loading == old(loading) && values == old(values)
    {
      navigatePending := false;
      w.Navigate("/admin/add-product");
    }

    /** Closing the alert clears the message. */
    method CloseMessage()
      modifies this
      ensures message == ""
      ensures loading == old(loading) && values == old(values) && navigatePending == old(navigatePending)
    {
      message := "";
    }
  }
}
