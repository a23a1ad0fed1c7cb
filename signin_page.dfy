/** frontend/pages/auth/signin.js: the custom sign-in page. The gate, the error banner, the
    provider list and the disable rule are pure; the two handlers change `loading` and push the
    router around the awaited `signIn`. */
module SignInPage {
  import opened JsValues
  import Sessions

  /** The inverse gate: a signed-in visitor is sent home; otherwise the page gets the configured
      providers (`getProviders()` or `{}` when that is null or undefined), as `Object.values`
      lists them. */
  function GetServerSideProps(session: Option<Sessions.Session>, providers: Option<seq<Sessions.Provider>>)
    : (r: Sessions.ServerSideProps)
    ensures r.Redirect? <==> session.Some?
    ensures session.Some? ==> r == Sessions.Redirect("/", false)
    ensures session.None? && providers.Some? ==> r == Sessions.ProvidersProps(providers.value)
    ensures session.None? && providers.None? ==> r == Sessions.ProvidersProps([])
  {
    if session.Some? then Sessions.Redirect("/", false)
    else Sessions.ProvidersProps(if providers.Some? then providers.value else [])
  }

  const CredentialsMessage := "Invalid credentials. Please try again."
  const NotLinkedMessage := "This account is linked to another provider."
  const SessionRequiredMessage := "Please sign in to access this page."
  const GenericMessage := "An error occurred. Please try again."

  /** One `{cond && 'text'}` child: the text when the condition holds, nothing otherwise. */
  function When(cond: bool, text: string): seq<string> {
    if cond then [text] else []
  }

  /** The lines of the error banner for the `error` query value: no banner for a falsy value;
      otherwise the four conditional children of the paragraph, in order. */
  function BannerLines(error: Value): (lines: seq<string>)
    ensures !Truthy(error) ==> lines == []
    ensures Truthy(error) ==> |lines| == 1
    ensures error == Str("CredentialsSignin") ==> lines == [CredentialsMessage]
    ensures error == Str("OAuthAccountNotLinked") ==> lines == [NotLinkedMessage]
    ensures error == Str("SessionRequired") ==> lines == [SessionRequiredMessage]
    ensures Truthy(error) && error !in {Str("CredentialsSignin"), Str("OAuthAccountNotLinked"), Str("SessionRequired")} ==>
      lines == [GenericMessage]
  {
    if !Truthy(error) then []
    else
      var known := [Str("CredentialsSignin"), Str("OAuthAccountNotLinked"), Str("SessionRequired")];
      When(error == Str("CredentialsSignin"), CredentialsMessage)
      + When(error == Str("OAuthAccountNotLinked"), NotLinkedMessage)
      + When(error == Str("SessionRequired"), SessionRequiredMessage)
      + When(error !in known, GenericMessage)
  }

  /** `disabled={loading || !username || !password}` */
  predicate SubmitDisabled(loading: bool, username: string, password: string) {
    loading || !Truthy(Str(username)) || !Truthy(Str(password))
  }

  /** The prefilled form can be submitted at once; emptying either field, or a request in
      flight, disables the button. */
  lemma SubmitRule(username: string, password: string)
    ensures !SubmitDisabled(false, "admin", "password")
    ensures SubmitDisabled(false, "", password) && SubmitDisabled(false, username, "")
    ensures SubmitDisabled(true, username, password)
    ensures !SubmitDisabled(false, username, password) <==> username != "" && password != ""
  {
  }

  /** `.filter(p => p.id !== 'credentials')` */
  function WithoutCredentials(ps: seq<Sessions.Provider>): (r: seq<Sessions.Provider>)
    ensures |r| <= |ps|
    ensures forall p :: p in r <==> p in ps && p.id != "credentials"
  {
    if ps == [] then []
    else (if ps[0].id != "credentials" then [ps[0]] else []) + WithoutCredentials(ps[1..])
  }

  /** The filter keeps the order and the repetitions of the list: it distributes over
      concatenation, and a single provider is kept exactly when it is not the credentials one. */
  lemma {:induction false} WithoutCredentialsAppend(a: seq<Sessions.Provider>, b: seq<Sessions.Provider>)
    ensures WithoutCredentials(a + b) == WithoutCredentials(a) + WithoutCredentials(b)
    decreases |a|
  {
    if a == [] {
      assert a + b == b;
    } else {
      assert (a + b)[0] == a[0];
      assert (a + b)[1..] == a[1..] + b;
      WithoutCredentialsAppend(a[1..], b);
    }
  }

  lemma WithoutCredentialsSingle(p: Sessions.Provider)
    ensures WithoutCredentials([p]) == (if p.id != "credentials" then [p] else [])
  {
    assert [p][1..] == [];
  }

  /** The alternative provider buttons: none unless there is more than one provider. */
  function AlternativeProviders(ps: seq<Sessions.Provider>): (r: seq<Sessions.Provider>)
    ensures |ps| <= 1 ==> r == []
    ensures forall p :: p in r <==> |ps| > 1 && p in ps && p.id != "credentials"
  {
    if |ps| > 1 then WithoutCredentials(ps) else []
  }

  /** A provider list made only of credentials providers, of any length, shows no alternative
      button. */
  lemma OnlyCredentialsNoButtons(ps: seq<Sessions.Provider>)
    requires forall i :: 0 <= i < |ps| ==> ps[i].id == "credentials"
    ensures AlternativeProviders(ps) == []
  {
    OnlyCredentialsFiltered(ps);
  }

  lemma {:induction false} OnlyCredentialsFiltered(ps: seq<Sessions.Provider>)
    requires forall i :: 0 <= i < |ps| ==> ps[i].id == "credentials"
    ensures WithoutCredentials(ps) == []
  {
    if ps != [] {
      assert ps[0].id == "credentials";
      OnlyCredentialsFiltered(ps[1..]);
    }
  }

  /** The only configured provider is the credentials one, so no alternative button ever shows. */
  lemma ConfiguredProvidersNoButtons(name: string)
    ensures AlternativeProviders([Sessions.Provider("credentials", name)]) == []
  {
    OnlyCredentialsNoButtons([Sessions.Provider("credentials", name)]);
  }

  /** The calls the page makes to next-auth's `signIn`. */
  datatype SignInCall =
    | CredentialsCall(username: string, password: string, redirect: bool)
    | ProviderCall(providerId: string, callbackUrl: string)

  /** How the awaited `signIn('credentials', …)` settled: resolved with `result.ok`, or rejected
      (there is no try around it, so the rejection escapes the handler). */
  datatype CredentialsOutcome = Resolved(ok: bool) | Rejected

  class SignIn {
    var username: string
    var password: string
    var loading: bool
    var calls: seq<SignInCall>
    var navigations: seq<string>

    constructor ()
      ensures username == "admin" && password == "password" && !loading
      ensures calls == [] && navigations == []
    {
      username := "admin";
      password := "password";
      loading := false;
      calls := [];
      navigations := [];
    }

    /** `handleCredentialsSignIn` up to the await. */
    method StartCredentials()
      modifies this
      ensures loading
      ensures calls == old(calls) + [CredentialsCall(username, password, false)]
      ensures username == old(username) && password == old(password) && navigations == old(navigations)
    {
      loading := true;
      calls := calls + [CredentialsCall(username, password, false)];
    }

    /** `handleCredentialsSignIn` after the await: home on success, no navigation otherwise, and
        `loading` reset on both; a rejection leaves everything as it was, `loading` included. */
    method CompleteCredentials(outcome: CredentialsOutcome)
      modifies this
      ensures outcome.Resolved? ==> !loading
      ensures outcome == Resolved(true) ==> navigations == old(navigations) + ["/"]
      ensures outcome == Resolved(false) ==> navigations == old(navigations)
      ensures outcome.Rejected? ==> loading == old(loading) && navigations == old(navigations)
      ensures username == old(username) && password == old(password) && calls == old(calls)
    {
      if outcome.Rejected? {
        return;
      }
      if outcome.ok {
        navigations := navigations + ["/"];
      }
      loading := false;
    }

    /** `handleProviderSignIn(providerId)` up to the await. */
    method StartProvider(providerId: string)
      modifies this
      ensures loading
      ensures calls == old(calls) + [ProviderCall(providerId, "/")]
      ensures username == old(username) && password == old(password) && navigations == old(navigations)
    {
      loading := true;
      calls := calls + [ProviderCall(providerId, "/")];
    }

    /** `handleProviderSignIn` after the await: only the catch resets `loading`; on success
        next-auth navigates away itself. */
    method CompleteProvider(threw: bool)
      modifies this
      ensures loading == (old(loading) && !threw)
      ensures username == old(username) && password == old(password)
      ensures calls == old(calls) && navigations == old(navigations)
    {
      if threw {
        loading := false;
      }
    }
  }
}
