/** `ProtectedRoute`: shows its children when a token is stored and redirects
    to the login page otherwise. */
module ProtectedRoute {
  import opened Js
  import opened Browser

  /** `Boolean(localStorage.getItem('token'))`: a token is stored and is not empty. */
  function IsLoggedIn(st: Storage): (b: bool)
    ensures b <==> "token" in st && st["token"] != ""
  {
    Truthy(GetItem(st, "token"))
  }

  /** What the guard renders: its children unchanged, or `<Navigate to=.../>`. */
  datatype Guarded<+E> = Children(element: E) | Redirect(to: string)

  const LoginPath := "/login"

  function Guard<E>(st: Storage, children: E): (r: Guarded<E>)
    ensures r.Children? <==> "token" in st && st["token"] != ""
    ensures r.Children? ==> r.element == children
    ensures r.Redirect? ==> r.to == LoginPath
  {
    if !IsLoggedIn(st) then Redirect(LoginPath) else Children(children)
  }

  /** A stored empty token is refused like a missing one (`Boolean("")` is false). */
  lemma EmptyTokenRedirects<E>(st: Storage, children: E)
    requires "token" in st && st["token"] == ""
    ensures Guard(st, children) == Redirect(LoginPath)
  {
  }

  /** The guard reads nothing but the token: no content, expiry or other key is consulted. */
  lemma GuardReadsOnlyToken<E>(st1: Storage, st2: Storage, children: E)
    requires GetItem(st1, "token") == GetItem(st2, "token")
    ensures Guard(st1, children) == Guard(st2, children)
  {
  }
}
