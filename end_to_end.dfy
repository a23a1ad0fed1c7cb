/** How the pieces meet: what the pages send is what the servers validate, and what the
    servers answer is what the pages' handlers read. Each lemma composes the model of one side
    with the model of the other. */
module EndToEnd {
  import opened JsValues
  import opened Http
  import JsNumbers
  import Sessions
  import FlaskAuth
  import FlaskUpload
  import ModelServing
  import PredictYearApi
  import ModelsApi
  import HomePage
  import ModelsPage
  import SignInPage
  import SignOutPage
  import UploadPage

  // -----------------------------------------------------------------------------------------
  // Upload page -> Flask guard and upload view

  /** The header the upload page builds splits into the scheme and the token's own parts. */
  lemma UploadHeaderSplit(t: string)
    ensures FlaskAuth.Split("Bearer " + t) == ["Bearer"] + FlaskAuth.Split(t)
  {
    var scheme := "Bearer";
    LettersNoSpace(scheme);
    SchemeSpaceSplit(scheme, t);
    assert scheme + " " == "Bearer ";
  }

  lemma SchemeSpaceSplit(scheme: string, t: string)
    requires scheme != [] && FlaskAuth.NoSpace(scheme)
    ensures FlaskAuth.Split(scheme + " " + t) == [scheme] + FlaskAuth.Split(t)
  {
    assert scheme + " " + t == scheme + [' '] + t;
    FlaskAuth.SplitAtSpace(scheme, ' ', t);
    FlaskAuth.SplitWord(scheme);
  }

  /** The page's header passes the guard's shape check exactly when the token text splits into
      one part, and the decoder then receives exactly the token text exactly when that text is
      non-empty and free of whitespace (" x" passes too, but "x" reaches the decoder). */
  lemma UploadHeaderShape(token: Option<string>)
    ensures
      var t := UploadPage.TokenText(token);
      var check := FlaskAuth.CheckHeader(Some(UploadPage.AuthorizationHeader(token)));
      && (check.BearerToken? <==> |FlaskAuth.Split(t)| == 1)
      && (check == FlaskAuth.BearerToken(t) <==> t != "" && FlaskAuth.NoSpace(t))
  {
    var t := UploadPage.TokenText(token);
    var h := UploadPage.AuthorizationHeader(token);
    UploadHeaderSplit(t);
    BearerPrefixCheck(t, h);
    if t != "" && FlaskAuth.NoSpace(t) {
      FlaskAuth.SplitWord(t);
    }
  }

  /** A non-empty header that splits into "Bearer" and the parts of `t` passes the shape check
      exactly when `t` is one part, and then that part is the token. */
  lemma BearerPrefixCheck(t: string, h: string)
    requires h != "" && FlaskAuth.Split(h) == ["Bearer"] + FlaskAuth.Split(t)
    ensures FlaskAuth.CheckHeader(Some(h)).BearerToken? <==> |FlaskAuth.Split(t)| == 1
    ensures FlaskAuth.CheckHeader(Some(h)).BearerToken? ==> FlaskAuth.CheckHeader(Some(h)).token == FlaskAuth.Split(t)[0]
  {
    assert FlaskAuth.LowerAscii("Bearer") == "bearer";
    var parts := FlaskAuth.Split(h);
    assert parts[0] == "Bearer";
    if |FlaskAuth.Split(t)| == 1 {
      assert parts[1] == FlaskAuth.Split(t)[0];
    }
  }

  /** A session without a token still sends a well-formed header: "Bearer undefined" reaches the
      decoder, which decides alone. */
  lemma UndefinedTokenReachesDecoder(decode: string -> FlaskAuth.DecodeOutcome)
    ensures FlaskAuth.CheckHeader(Some(UploadPage.AuthorizationHeader(None))) == FlaskAuth.BearerToken("undefined")
    ensures FlaskAuth.Guard(Some(UploadPage.AuthorizationHeader(None)), decode).None? <==> decode("undefined") == FlaskAuth.DecodeOk
  {
    var t := UploadPage.TokenText(None);
    assert t == "undefined";
    LettersNoSpace(t);
    TokenReachesDecoder(None, decode);
  }

  /** A non-empty whitespace-free token is decoded as it is, and the guard admits exactly what
      the decoder accepts. */
  lemma TokenReachesDecoder(token: Option<string>, decode: string -> FlaskAuth.DecodeOutcome)
    requires UploadPage.TokenText(token) != "" && FlaskAuth.NoSpace(UploadPage.TokenText(token))
    ensures FlaskAuth.CheckHeader(Some(UploadPage.AuthorizationHeader(token))) == FlaskAuth.BearerToken(UploadPage.TokenText(token))
    ensures FlaskAuth.Guard(Some(UploadPage.AuthorizationHeader(token)), decode).None?
        <==> decode(UploadPage.TokenText(token)) == FlaskAuth.DecodeOk
  {
    UploadHeaderShape(token);
  }

  /** ASCII letters are not whitespace. */
  lemma LettersNoSpace(s: string)
    requires forall i :: 0 <= i < |s| ==> 'a' <= s[i] <= 'z' || 'A' <= s[i] <= 'Z'
    ensures FlaskAuth.NoSpace(s)
  {
  }

  /** Without a chosen file the form carries the string "null" or "undefined", which the server
      does not see as a file part: the upload view answers "No file part". */
  lemma NoFileChosenRefused(choice: UploadPage.FileChoice)
    requires !choice.Chosen?
    ensures FlaskUpload.CheckUpload(UploadPage.ServerFiles([UploadPage.FormEntry("file", UploadPage.AppendValue(choice))]))
         == FlaskUpload.Refused(Response(400, ErrorJson("No file part")))
  {
    UploadPage.ChosenFileArrives(choice);
  }

  /** A chosen file with a name, sent with a whitespace-free token the decoder accepts, passes
      every check before the file-system effects, with the file's own name and bytes. */
  lemma ChosenFileAccepted(f: FlaskUpload.FilePart, token: string, decode: string -> FlaskAuth.DecodeOutcome)
    requires f.filename != "" && token != "" && FlaskAuth.NoSpace(token) && decode(token) == FlaskAuth.DecodeOk
    ensures FlaskAuth.Guard(Some(UploadPage.AuthorizationHeader(Some(token))), decode).None?
    ensures
      var files := UploadPage.ServerFiles([UploadPage.FormEntry("file", UploadPage.AppendValue(UploadPage.Chosen(f)))]);
      FlaskUpload.CheckUpload(files) == FlaskUpload.Accepted(FlaskUpload.Plan(FlaskUpload.PosixJoin("/tmp", f.filename), "/data/" + f.filename, f.content))
  {
    UploadHeaderShape(Some(token));
    UploadPage.ChosenFileArrives(UploadPage.Chosen(f));
  }

  // -----------------------------------------------------------------------------------------
  // Home page -> model serving

  /** The point request the home page sends is refused with 400 exactly when one of the two
      fields does not parse to a finite number (NaN and the infinities travel as JSON null,
      which the server reads as None). */
  lemma PointRequestRefusedIffNull(year: string, month: string, model: seq<Value> -> Option<real>)
    ensures ModelServing.Predict(ModelServing.Post, Parsed(HomePage.PointRequestBody(year, month)), model).status == 400
        <==> !JsNumbers.ParsesFinite(year) || !JsNumbers.ParsesFinite(month)
  {
  }

  /** A round trip of the point prediction: parsed fields reach the model as one row of two
      numbers, and the model's value becomes `prediction`, which the panel shows. */
  lemma PointPredictionRoundTrip(prev: Value, year: string, month: string, model: seq<Value> -> Option<real>)
    requires JsNumbers.ParsesFinite(year) && JsNumbers.ParsesFinite(month)
    requires model([HomePage.IntOrNull(year), HomePage.IntOrNull(month)]).Some?
    ensures
      var resp := ModelServing.Predict(ModelServing.Post, Parsed(HomePage.PointRequestBody(year, month)), model);
      var p := HomePage.PredictionAfter(prev, AsReply(resp));
      && p == Num(model([Num(JsNumbers.ParseInt(year).value as real), Num(JsNumbers.ParseInt(month).value as real)]).value)
      && HomePage.PredictionPanel(p) == Normal(true)
  {
  }

  /** A refused point request (a field that does not parse to a finite number) sets `prediction` to undefined, and
      the next render of the result panel throws at `toFixed`. */
  lemma RefusedPointRequestBreaksPanel(prev: Value, year: string, month: string, model: seq<Value> -> Option<real>)
    requires !JsNumbers.ParsesFinite(year) || !JsNumbers.ParsesFinite(month)
    ensures
      var resp := ModelServing.Predict(ModelServing.Post, Parsed(HomePage.PointRequestBody(year, month)), model);
      var p := HomePage.PredictionAfter(prev, AsReply(resp));
      p == Undefined && HomePage.PredictionPanel(p) == Threw
  {
    var fields := HomePage.PointRequestBody(year, month).fields;
    assert PyGet(fields, "year").None? || PyGet(fields, "month").None?;
    RefusalClearsPrediction(prev, fields, model);
  }

  /** The server's refusal body has no `predicted_avg_temp`, so it sets `prediction` to undefined. */
  lemma RefusalClearsPrediction(prev: Value, fields: map<string, Value>, model: seq<Value> -> Option<real>)
    requires PyGet(fields, "year").None? || PyGet(fields, "month").None?
    ensures HomePage.PredictionAfter(prev, AsReply(ModelServing.Predict(ModelServing.Post, Parsed(Obj(fields)), model))) == Undefined
  {
    var resp := ModelServing.Predict(ModelServing.Post, Parsed(Obj(fields)), model);
    assert resp == Response(400, ErrorJson("year and month required"));
    var body := Obj(map["error" := Str("year and month required")]);
    assert AsReply(resp) == Replied(false, Some(body));
    HomePage.PredictionUndefinedWithoutKey(prev, false, body.fields);
  }

  /** A model that raises gives Flask's HTML 500 page, `res.json()` rejects, and `prediction`
      keeps its previous value. */
  lemma FailingModelKeepsPrediction(prev: Value, year: string, month: string, model: seq<Value> -> Option<real>)
    requires JsNumbers.ParsesFinite(year) && JsNumbers.ParsesFinite(month)
    requires model([HomePage.IntOrNull(year), HomePage.IntOrNull(month)]).None?
    ensures
      var resp := ModelServing.Predict(ModelServing.Post, Parsed(HomePage.PointRequestBody(year, month)), model);
      HomePage.PredictionAfter(prev, AsReply(resp)) == prev
  {
  }

  // -----------------------------------------------------------------------------------------
  // Home page -> year prediction proxy

  /** The chart request goes through the proxy: a backend ok with a JSON object gives a chart
      of that object's `predictions`; any other backend outcome leaves the chart as it was. */
  lemma ChartThroughProxy(prev: Option<HomePage.ChartData>, year: string, env: Option<string>, backend: Reply)
    ensures
      var proxied := PredictYearApi.Handler("POST", HomePage.YearRequestBody(year), env, backend);
      var chart := HomePage.ChartAfter(prev, AsReply(proxied.response), year);
      && (backend.Replied? && backend.ok && backend.json.Some? && !Nullish(backend.json.value) ==>
            chart == Some(HomePage.ChartData(HomePage.MonthLabels, "Predicted Temperature " + year,
                                             GetOpt(backend.json.value, "predictions"))))
      && (!(backend.Replied? && backend.ok) ==> chart == prev)
  {
  }

  // -----------------------------------------------------------------------------------------
  // Models page -> models proxy

  /** Behind the proxy, the page never shows its own non-ok default: every backend failure
      reaches the page as the proxy's "failed to load models". */
  method ModelsPageOverProxy(env: Option<string>, backend: Reply) returns (page: ModelsPage.Models)
    requires !(backend.Replied? && backend.ok && backend.json.Some?)
    ensures page.error == Str("failed to load models") && page.models == Null && !page.loading
  {
    page := new ModelsPage.Models();
    var proxied := ModelsApi.Handler(env, backend);
    page.LoadModels(AsReply(proxied.response));
  }

  // -----------------------------------------------------------------------------------------
  // Sign-in flow

  /** `authorize` in the next-auth configuration: a user (carrying the backend token) only for an
      ok login answer with a truthy `token`. */
  function Authorize(reply: Reply): (user: Option<Value>)
    ensures user.Some? <==>
      reply.Replied? && reply.ok && reply.json.Some? && !Nullish(reply.json.value)
      && Truthy(Get(reply.json.value, "token").value)
    ensures user.Some? ==> user.value == Get(reply.json.value, "token").value
  {
    if reply.Replied? && reply.ok && reply.json.Some? && !Nullish(reply.json.value)
       && Truthy(Get(reply.json.value, "token").value)
    then Some(Get(reply.json.value, "token").value)
    else None
  }

  /** The sign-in form's prefilled pair is the backend's default admin pair: with no environment
      overrides it yields a user, provided the signer produced a non-empty token. */
  lemma PrefilledCredentialsSignIn(now: int, encode: (FlaskAuth.Claims, string) -> string)
    requires encode(FlaskAuth.Claims("admin", now + 7200), "supersecretkey") != ""
    ensures
      var creds := map["username" := Str("admin"), "password" := Str("password")];
      Authorize(AsReply(FlaskAuth.Login(Parsed(Obj(creds)), FlaskAuth.Env(None, None, None), now, encode)))
        == Some(Str(encode(FlaskAuth.Claims("admin", now + 7200), "supersecretkey")))
  {
  }

  /** Any other request body, whether another pair or not a credentials object at all, is
      refused by the backend, and `authorize` yields no user. */
  lemma WrongCredentialsNoUser(body: RequestJson, env: FlaskAuth.Env, now: int,
                               encode: (FlaskAuth.Claims, string) -> string)
    requires !(body.Parsed? && body.v.Obj? && FlaskAuth.IsAdmin(body.v.fields, env))
    ensures Authorize(AsReply(FlaskAuth.Login(body, env, now, encode))).None?
  {
  }

  /** The gates never bounce a visitor back and forth: for every session exactly one of the home
      page and the sign-in page redirects, and the sign-out page's target renders for anyone
      without a session. */
  lemma NoRedirectLoop(session: Option<Sessions.Session>, providers: Option<seq<Sessions.Provider>>)
    ensures HomePage.GetServerSideProps(session).Redirect? != SignInPage.GetServerSideProps(session, providers).Redirect?
    ensures SignOutPage.GetServerSideProps(session).Redirect? ==> !SignInPage.GetServerSideProps(session, providers).Redirect?
    ensures ModelsPage.GetServerSideProps(session) == HomePage.GetServerSideProps(session)
  {
  }
}
