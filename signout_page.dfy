/** frontend/pages/auth/signout.js: the sign-out confirmation. The gate and the display
    fallbacks are pure; `handleSignOut` changes `loading` around the awaited `signOut`. */
module SignOutPage {
  import opened JsValues
  import Sessions

  /** The custom sign-in page this gate sends to, unlike the other protected pages. */
  const SignInPath := "/auth/signin"

  function GetServerSideProps(session: Option<Sessions.Session>): (r: Sessions.ServerSideProps)
    ensures session.None? ==> r == Sessions.Redirect("/auth/signin", false)
    ensures session.Some? ==> r == Sessions.SessionProps(session.value)
  {
    Sessions.RequireSession(session, SignInPath)
  }

  /** `a || fallback` on an optional string: a missing or empty string falls back. */
  function OrText(a: Option<string>, fallback: string): (r: string)
    ensures a.Some? && a.value != "" ==> r == a.value
    ensures a.None? || a.value == "" ==> r == fallback
  {
    if a.Some? && Truthy(Str(a.value)) then a.value else fallback
  }

  /** The session user's name and email, when the session carries them (`session?.user?.x`). */
  function UserName(session: Option<Sessions.Session>): Option<string> {
    if session.Some? && session.value.user.Some? then session.value.user.value.name else None
  }

  function UserEmail(session: Option<Sessions.Session>): Option<string> {
    if session.Some? && session.value.user.Some? then session.value.user.value.email else None
  }

  /** `session?.user?.name || 'User'`: the user's name when it is non-empty. */
  function DisplayName(session: Option<Sessions.Session>): (r: string)
    ensures UserName(session).Some? && UserName(session).value != "" ==> r == UserName(session).value
    ensures UserName(session).None? || UserName(session).value == "" ==> r == "User"
  {
    OrText(UserName(session), "User")
  }

  /** `session?.user?.email || 'No email available'` */
  function DisplayEmail(session: Option<Sessions.Session>): (r: string)
    ensures UserEmail(session).Some? && UserEmail(session).value != "" ==> r == UserEmail(session).value
    ensures UserEmail(session).None? || UserEmail(session).value == "" ==> r == "No email available"
  {
    OrText(UserEmail(session), "No email available")
  }

  /** The calls the page makes to next-auth and the router. */
  datatype Effect = SignOutCall(callbackUrl: string) | Push(path: string)

  class SignOut {
    var loading: bool
    var effects: seq<Effect>

    constructor ()
      ensures !loading && effects == []
    {
      loading := false;
      effects := [];
    }

    /** Both buttons are disabled while loading. */
    predicate ButtonsDisabled()
      reads this
    {
      loading
    }

    /** `handleSignOut` up to the await. */
    method StartSignOut()
      modifies this
      ensures loading && ButtonsDisabled()
      ensures effects == old(effects) + [SignOutCall("/auth/signin")]
    {
      loading := true;
      effects := effects + [SignOutCall(SignInPath)];
    }

    /** `handleSignOut` after the await: only the catch resets `loading`. */
    method CompleteSignOut(threw: bool)
      modifies this
      ensures loading == (old(loading) && !threw)
      // a successful sign-out leaves both buttons disabled until the page is left
      ensures ButtonsDisabled() <==> old(ButtonsDisabled()) && !threw
      ensures effects == old(effects)
    {
      if threw {
        loading := false;
      }
    }

    /** `handleCancel`: home, without signing out. */
    method HandleCancel()
      modifies this
      ensures effects == old(effects) + [Push("/")]
      ensures loading == old(loading)
    {
      effects := effects + [Push("/")];
    }
  }
}
