/** `RegistrationPage`: the registration schema and the submit handler. */
module RegistrationPage {
  import opened Js
  import opened Http
  import opened Session
  import opened Validation
  import Actions

  datatype Values = Values(displayName: string, email: string, username: string, password: string, role: string)

  const InitialValues := Values("", "", "", "", "")

  const GmailSuffix := "@gmail.com"

  /** `/^[a-zA-Z0-9._%+-]+@gmail\.com$/`: a non-empty local part from that
      character set followed by exactly `@gmail.com` at the end. */
  function MatchesGmail(s: string): (b: bool)
    ensures b <==> exists local :: local != [] && AllInClass(local, EmailLocal) && s == local + GmailSuffix
  {
    SplitAtSuffix(s);

    |s| > |GmailSuffix|
    && s[|s| - |GmailSuffix|..] == GmailSuffix
    && AllInClass(s[..|s| - |GmailSuffix|], EmailLocal)
  }

  /** Splitting off the last ten characters is the only way to read `s` as a local part and the suffix. */
  lemma SplitAtSuffix(s: string)
    ensures (|s| > |GmailSuffix| && s[|s| - |GmailSuffix|..] == GmailSuffix
             && AllInClass(s[..|s| - |GmailSuffix|], EmailLocal))
        <==> exists local :: local != [] && AllInClass(local, EmailLocal) && s == local + GmailSuffix
  {
    var k := |s| - |GmailSuffix|;
    if k > 0 && s[k..] == GmailSuffix && AllInClass(s[..k], EmailLocal) {
      assert s == s[..k] + GmailSuffix;
    }
    if local :| local != [] && AllInClass(local, EmailLocal) && s == local + GmailSuffix {
      assert s[k..] == GmailSuffix && s[..k] == local;
    }
  }

  /** Every allowed local part makes an accepted address, and it is recovered from it. */
  lemma GmailFromLocalPart(local: string)
    requires local != [] && AllInClass(local, EmailLocal)
    ensures MatchesGmail(local + GmailSuffix)
    ensures (local + GmailSuffix)[..|local|] == local
  {
    var s := local + GmailSuffix;
    assert s[|s| - |GmailSuffix|..] == GmailSuffix;
    assert s[..|s| - |GmailSuffix|] == local;
  }

  /** An accepted address holds exactly one `@`: the local part's character set has none. */
  lemma GmailHasOneAt(s: string)
    requires MatchesGmail(s)
    ensures Count(s, '@') == 1
  {
    var k := |s| - |GmailSuffix|;
    assert s == s[..k] + s[k..];
    LocalPartHasNoAt(s[..k]);
    SuffixHasOneAt();
    CountConcat(s[..k], s[k..], '@');
  }

  lemma LocalPartHasNoAt(local: string)
    requires AllInClass(local, EmailLocal)
    ensures Count(local, '@') == 0
  {
    assert !InClass('@', EmailLocal);
  }

  lemma SuffixHasOneAt()
    ensures Count(GmailSuffix, '@') == 1
  {
    assert GmailSuffix[0] == '@';
    assert '@' !in GmailSuffix[1..];
  }

  /** `password`: at least 8 characters with a lower-case letter, an upper-case
      letter, a digit and a character outside `[A-Za-z0-9]`. */
  function ValidPassword(p: string): (b: bool)
    ensures b <==> && |p| >= 8
                   && (exists i :: 0 <= i < |p| && 'a' <= p[i] <= 'z')
                   && (exists i :: 0 <= i < |p| && 'A' <= p[i] <= 'Z')
                   && (exists i :: 0 <= i < |p| && '0' <= p[i] <= '9')
                   && (exists i :: 0 <= i < |p| && !('a' <= p[i] <= 'z' || 'A' <= p[i] <= 'Z' || '0' <= p[i] <= '9'))
  {
    && Required(p)
    && |p| >= 8
    && ContainsClass(p, LowerAlpha)
    && ContainsClass(p, UpperAlpha)
    && ContainsClass(p, Digit)
    && ContainsClass(p, NotAlphanumeric)
  }

  /** `email`: required, Yup's own `email()` test (given as `isEmail`), and the gmail pattern. */
  predicate ValidEmail(e: string, isEmail: string -> bool)
  {
    Required(e) && isEmail(e) && MatchesGmail(e)
  }

  /** The whole schema: valid exactly when every field's rules hold. */
  function Valid(v: Values, isEmail: string -> bool): (b: bool)
    ensures b <==> && v.displayName != "" && v.username != "" && v.role != ""
                   && isEmail(v.email) && MatchesGmail(v.email) && ValidPassword(v.password)
  {
    && Required(v.displayName)
    && ValidEmail(v.email, isEmail)
    && Required(v.username)
    && ValidPassword(v.password)
    && Required(v.role)
  }

  /** What a submittable form guarantees about the address and the password. */
  lemma ValidFormFacts(v: Values, isEmail: string -> bool)
    requires Valid(v, isEmail)
    ensures isEmail(v.email) && Count(v.email, '@') == 1
    ensures |v.email| > |GmailSuffix| && v.email[|v.email| - |GmailSuffix|..] == GmailSuffix
    ensures |v.password| >= 8
    ensures exists i, j :: 0 <= i < |v.password| && 0 <= j < |v.password| && i != j
                           && InClass(v.password[i], LowerAlpha) && InClass(v.password[j], UpperAlpha)
  {
    GmailHasOneAt(v.email);
    var i :| 0 <= i < |v.password| && InClass(v.password[i], LowerAlpha);
    var j :| 0 <= j < |v.password| && InClass(v.password[j], UpperAlpha);
    assert i != j;
  }

  /** A valid password has at least eight characters, one from each class;
      whitespace counts as a special character. */
  lemma SpaceCountsAsSpecial()
    ensures ValidPassword("Abcdef1 ")
  {
    var p := "Abcdef1 ";
    assert InClass(p[1], LowerAlpha) && InClass(p[0], UpperAlpha) && InClass(p[6], Digit) && InClass(p[7], NotAlphanumeric);
  }

  /** Length alone is not enough: eight lower-case letters fail. */
  lemma LowerCaseOnlyPasswordRejected()
    ensures !ValidPassword("password")
  {
    var p := "password";
    assert forall i :: 0 <= i < |p| ==> !InClass(p[i], UpperAlpha);
  }

  /** The empty form the page starts from never passes. */
  lemma InitialValuesInvalid(isEmail: string -> bool)
    ensures !Valid(InitialValues, isEmail)
  {
  }

  const SuccessMessage := "Registration successful!"

  /** The page's own state. `clearPending` stands for the 10-second timer that clears the message. */
  class Page {
    var roles: seq<Role>
    var loading: bool
    var successMessage: string
    var values: Values
    var clearPending: bool

    constructor ()
      ensures roles == [] && !loading && successMessage == "" && values == InitialValues && !clearPending
    {
      roles, loading, successMessage, values, clearPending := [], false, "", InitialValues, false;
    }

    /** The mount effect: the role menu is filled from `GET /api/v1/roles`; a failure is only logged. */
    method LoadRoles(response: Outcome<seq<Role>>)
      modifies this
      ensures response.Ok? ==> roles == response.data
      ensures response.Fail? ==> roles == old(roles)
      ensures loading == old(loading) && successMessage == old(successMessage) && values == old(values)
      ensures clearPending == old(clearPending)
    {
      if response.Ok? {
        roles := response.data;
      }
    }

    /** The submit button is disabled while the store, the page or Formik is busy. */
    function SubmitDisabled(storeLoading: bool, isSubmitting: bool): bool
      reads this
    {
      storeLoading || loading || isSubmitting
    }

    /** `handleSubmit`: `addUser` never rejects, so the success message is set,
        the form reset and the clearing timer started after every submit, even
        one whose request failed; `loading` is false when it returns. */
    method HandleSubmit(store: Actions.Store, submitted: Values, response: Outcome<UserRecord>)
      requires store.Valid()
      modifies this, store
      ensures store.Valid()
      ensures response.Ok? ==> store.log == old(store.log) + [AddUserRequest, AddUserSuccess(response.data)]
      ensures response.Fail? ==> store.log == old(store.log) + [AddUserRequest, AddUserFailure(Some(response.error.message))]
      ensures store.state == old(store.state)
      ensures successMessage == SuccessMessage
      ensures values == InitialValues && clearPending
      ensures !loading && roles == old(roles)
      ensures !SubmitDisabled(store.state.loading, false) <==> !old(store.state.loading)
    {
      values := submitted;
      loading := true;
      Actions.AddUser(store, response);
      successMessage := SuccessMessage;
      values := InitialValues;
      clearPending := true;
      loading := false;
    }

    /** The timer callback: the success message is cleared. */
    method FireTimer()
      requires clearPending
      modifies this
      ensures successMessage == "" && !clearPending
      ensures loading == old(loading) && values == old(values) && roles == old(roles)
    {
      successMessage := "";
      clearPending := false;
    }
  }
}
