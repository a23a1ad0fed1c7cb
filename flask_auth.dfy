/** flask_app/auth.py: the `/auth/login` credential check and the `jwt_required` guard.
    JWT signing and verification are oracles: `encode` stands for `jwt.encode(payload,
    secret, "HS256")` and `decode` for the outcome of `jwt.decode(token, secret, ["HS256"])`. */
module FlaskAuth {
  import opened JsValues
  import opened Http

  const JwtSecretDefault := "supersecretkey"
  const JwtAlgorithm := "HS256"
  const JwtExpDeltaHours := 2
  const AdminUserDefault := "admin"
  const AdminPassDefault := "password"

  /** The environment variables the module reads; None when a variable is unset. */
  datatype Env = Env(adminUser: Option<string>, adminPass: Option<string>, jwtSecret: Option<string>)

  /** `os.getenv(name, default)`: a set variable wins, even when it is empty. */
  function Getenv(v: Option<string>, default: string): string {
    if v.Some? then v.value else default
  }

  /** The claims `login` signs: the user name and the expiry instant (whole seconds). */
  datatype Claims = Claims(user: string, exp: int)

  /** The credential pair `login` accepts: the submitted username and password are exactly the
      configured admin strings. */
  predicate IsAdmin(creds: map<string, Value>, env: Env) {
    && PyGet(creds, "username") == Some(Str(Getenv(env.adminUser, AdminUserDefault)))
    && PyGet(creds, "password") == Some(Str(Getenv(env.adminPass, AdminPassDefault)))
  }

  /** `login()` on a request whose body `get_json()` read as `body`; `now` is `utcnow()` in
      whole seconds. A refused body gets Flask's 4xx answer and a decoded document other than
      an object makes `creds.get` raise (500). A token is issued for the configured admin pair
      only; it carries the submitted user name and expires two hours after `now`. */
  function Login(body: RequestJson, env: Env, now: int, encode: (Claims, string) -> string): (r: Response)
    ensures r.status == 200 <==> body.Parsed? && body.v.Obj? && IsAdmin(body.v.fields, env)
    ensures !body.Parsed? ==> r == GetJsonAbort(body)
    ensures body.Parsed? && !body.v.Obj? ==> r == Response(500, ServerErrorPage)
    ensures body.Parsed? && body.v.Obj? && IsAdmin(body.v.fields, env) ==>
      var claims := Claims(Getenv(env.adminUser, AdminUserDefault), now + 2 * 3600);
      r.body == Json(Obj(map["token" := Str(encode(claims, Getenv(env.jwtSecret, JwtSecretDefault)))]))
    ensures body.Parsed? && body.v.Obj? && !IsAdmin(body.v.fields, env) ==>
      r == Response(401, ErrorJson("Invalid credentials"))
  {
    match body
    case Parsed(Obj(creds)) =>
      var username := PyGet(creds, "username");
      var password := PyGet(creds, "password");
      if username == Some(Str(Getenv(env.adminUser, AdminUserDefault)))
        && password == Some(Str(Getenv(env.adminPass, AdminPassDefault)))
      then
        var claims := Claims(username.value.s, now + JwtExpDeltaHours * 3600);
        var token := encode(claims, Getenv(env.jwtSecret, JwtSecretDefault));
        Response(200, Json(Obj(map["token" := Str(token)])))
      else
        Response(401, ErrorJson("Invalid credentials"))
    case Parsed(_) => Response(500, ServerErrorPage)
    case _ => GetJsonAbort(body)
  }

  /** With no environment overrides, only the object admin/password gets a token. */
  lemma LoginDefaults(creds: map<string, Value>, now: int, encode: (Claims, string) -> string)
    ensures Login(Parsed(Obj(creds)), Env(None, None, None), now, encode).status == 200
        <==> PyGet(creds, "username") == Some(Str("admin")) && PyGet(creds, "password") == Some(Str("password"))
    ensures PyGet(creds, "password") == Some(Str("wrong")) ==>
      Login(Parsed(Obj(creds)), Env(None, None, None), now, encode) == Response(401, ErrorJson("Invalid credentials"))
  {
  }

  // ---------------------------------------------------------------------------------------
  // Python's str.split() with no arguments

  /** The characters Python's `str.split()` treats as whitespace. */
  predicate IsPySpace(c: char) {
    || ('\t' <= c <= '\r')
    || ('\U{1c}' <= c <= '\U{1f}')
    || c == ' ' || c == '\U{85}' || c == '\U{a0}' || c == '\U{1680}'
    || ('\U{2000}' <= c <= '\U{200a}')
    || c == '\U{2028}' || c == '\U{2029}' || c == '\U{202f}' || c == '\U{205f}' || c == '\U{3000}'
  }

  predicate NoSpace(s: string) {
    forall i :: 0 <= i < |s| ==> !IsPySpace(s[i])
  }

  predicate AllSpace(s: string) {
    forall i :: 0 <= i < |s| ==> IsPySpace(s[i])
  }

  /** Length of the leading run of non-whitespace characters of `s`. */
  function WordLen(s: string): (n: nat)
    ensures n <= |s|
    ensures NoSpace(s[..n])
    ensures n < |s| ==> IsPySpace(s[n])
  {
    if s == [] || IsPySpace(s[0]) then 0
    else
      var k := WordLen(s[1..]);
      assert s[..k + 1] == [s[0]] + s[1..][..k];
      k + 1
  }

  /** `s.split()`: the maximal runs of non-whitespace characters, in order. */
  function Split(s: string): (parts: seq<string>)
    ensures forall i :: 0 <= i < |parts| ==> parts[i] != [] && NoSpace(parts[i])
    decreases |s|
  {
    if s == [] then []
    else if IsPySpace(s[0]) then Split(s[1..])
    else
      var n := WordLen(s);
      [s[..n]] + Split(s[n..])
  }

  /** A run ending at a whitespace character (or at the end) is the leading run. */
  lemma {:induction false} WordLenUnique(s: string, m: nat)
    requires m <= |s| && NoSpace(s[..m])
    requires m < |s| ==> IsPySpace(s[m])
    ensures WordLen(s) == m
    decreases m
  {
    if m > 0 {
      assert s[0] == s[..m][0];
      assert s[1..][..m - 1] == s[..m][1..];
      assert m - 1 < |s[1..]| ==> s[1..][m - 1] == s[m];
      WordLenUnique(s[1..], m - 1);
    }
  }

  lemma {:induction false} SplitEmptyIff(s: string)
    ensures Split(s) == [] <==> AllSpace(s)
    decreases |s|
  {
    if s != [] {
      if IsPySpace(s[0]) {
        SplitEmptyIff(s[1..]);
        if AllSpace(s[1..]) {
          forall i | 0 <= i < |s| ensures IsPySpace(s[i]) {
            if i > 0 { assert s[i] == s[1..][i - 1]; }
          }
        } else {
          var i :| 0 <= i < |s[1..]| && !IsPySpace(s[1..][i]);
          assert s[i + 1] == s[1..][i];
        }
      }
    }
  }

  /** Leading whitespace does not change the split. */
  lemma {:induction false} SplitLeadingSpace(pre: string, s: string)
    requires AllSpace(pre)
    ensures Split(pre + s) == Split(s)
    decreases |pre|
  {
    if pre != [] {
      assert (pre + s)[0] == pre[0];
      assert (pre + s)[1..] == pre[1..] + s;
      assert IsPySpace(pre[0]);
      assert Split(pre + s) == Split(pre[1..] + s);
      SplitLeadingSpace(pre[1..], s);
    } else {
      assert pre + s == s;
    }
  }

  /** Splitting at one whitespace character splits the two sides independently. */
  lemma {:induction false} SplitAtSpace(a: string, c: char, b: string)
    requires IsPySpace(c)
    ensures Split(a + [c] + b) == Split(a) + Split(b)
    decreases |a|
  {
    var s := a + [c] + b;
    if a == [] {
      assert s == [c] + b;
      assert s[1..] == b;
    } else if IsPySpace(a[0]) {
      assert s[1..] == a[1..] + [c] + b;
      SplitAtSpace(a[1..], c, b);
    } else {
      var k := WordLen(a);
      assert a[..k] == s[..k];
      if k < |a| {
        assert s[k] == a[k];
        WordLenUnique(s, k);
        assert s[k..] == a[k..] + [c] + b;
        SplitAtSpace(a[k..], c, b);
      } else {
        assert s[k] == c;
        WordLenUnique(s, k);
        assert s[k..] == [c] + b;
        assert ([c] + b)[1..] == b;
        assert a[k..] == [];
      }
    }
  }

  /** Trailing whitespace does not change the split. */
  lemma SplitTrailingSpace(s: string, post: string)
    requires AllSpace(post)
    ensures Split(s + post) == Split(s)
  {
    if post != [] {
      assert s + post == s + [post[0]] + post[1..];
      SplitAtSpace(s, post[0], post[1..]);
      SplitEmptyIff(post[1..]);
    } else {
      assert s + post == s;
    }
  }

  /** A non-empty string without whitespace splits to itself. */
  lemma SplitWord(w: string)
    requires w != [] && NoSpace(w)
    ensures Split(w) == [w]
  {
    assert w[..|w|] == w;
    WordLenUnique(w, |w|);
    assert w[|w|..] == [];
  }

  /** Prepending a whitespace character keeps a string all-whitespace. */
  lemma ConsSpace(c: char, s: string)
    requires IsPySpace(c) && AllSpace(s)
    ensures AllSpace([c] + s)
  {
    forall i | 0 <= i < |[c] + s| ensures IsPySpace(([c] + s)[i]) {
      if i > 0 { assert ([c] + s)[i] == s[i - 1]; }
    }
  }

  /** One step of the split at a word: the leading run, then the split of what follows it. */
  lemma SplitAtWord(s: string)
    requires s != [] && !IsPySpace(s[0])
    ensures |Split(s)| == 1 + |Split(s[WordLen(s)..])|
    ensures Split(s)[0] == s[..WordLen(s)]
    ensures Split(s)[1..] == Split(s[WordLen(s)..])
  {
    var n := WordLen(s);
    assert Split(s) == [s[..n]] + Split(s[n..]);
  }

  /** The split of a string with exactly one part: whitespace, the part, whitespace. */
  lemma {:induction false} SplitOne(s: string, w: string) returns (pre: string, post: string)
    requires Split(s) == [w]
    ensures AllSpace(pre) && AllSpace(post) && s == pre + w + post
    decreases |s|, 1
  {
    assert s != [];
    if IsPySpace(s[0]) {
      pre, post := SplitOneAfterSpace(s, w);
    } else {
      pre, post := SplitOneAtWord(s, w);
    }
  }

  lemma {:induction false} SplitOneAfterSpace(s: string, w: string) returns (pre: string, post: string)
    requires s != [] && IsPySpace(s[0]) && Split(s) == [w]
    ensures AllSpace(pre) && AllSpace(post) && s == pre + w + post
    decreases |s|, 0
  {
    assert Split(s[1..]) == [w];
    var pre1, post1 := SplitOne(s[1..], w);
    ConsSpace(s[0], pre1);
    pre, post := [s[0]] + pre1, post1;
    assert s == [s[0]] + s[1..];
  }

  lemma SplitOneAtWord(s: string, w: string) returns (pre: string, post: string)
    requires s != [] && !IsPySpace(s[0]) && Split(s) == [w]
    ensures AllSpace(pre) && AllSpace(post) && s == pre + w + post
  {
    SplitAtWord(s);
    var n := WordLen(s);
    pre, post := [], s[n..];
    assert w == s[..n];
    assert Split(post) == [];
    SplitEmptyIff(post);
    assert s == s[..n] + s[n..];
  }

  /** The split of a string with exactly two parts: whitespace, the first part, at least one
      whitespace character, the second part, whitespace. */
  lemma {:induction false} SplitTwo(s: string, a: string, b: string) returns (pre: string, gap: string, post: string)
    requires Split(s) == [a, b]
    ensures AllSpace(pre) && AllSpace(gap) && gap != [] && AllSpace(post)
    ensures s == pre + a + gap + b + post
    decreases |s|, 1
  {
    assert s != [];
    if IsPySpace(s[0]) {
      pre, gap, post := SplitTwoAfterSpace(s, a, b);
    } else {
      pre, gap, post := SplitTwoAtWord(s, a, b);
    }
  }

  lemma {:induction false} SplitTwoAfterSpace(s: string, a: string, b: string) returns (pre: string, gap: string, post: string)
    requires s != [] && IsPySpace(s[0]) && Split(s) == [a, b]
    ensures AllSpace(pre) && AllSpace(gap) && gap != [] && AllSpace(post)
    ensures s == pre + a + gap + b + post
    decreases |s|, 0
  {
    assert Split(s[1..]) == [a, b];
    var pre1;
    pre1, gap, post := SplitTwo(s[1..], a, b);
    ConsSpace(s[0], pre1);
    pre := [s[0]] + pre1;
    assert s == [s[0]] + s[1..];
  }

  lemma SplitTwoAtWord(s: string, a: string, b: string) returns (pre: string, gap: string, post: string)
    requires s != [] && !IsPySpace(s[0]) && Split(s) == [a, b]
    ensures AllSpace(pre) && AllSpace(gap) && gap != [] && AllSpace(post)
    ensures s == pre + a + gap + b + post
  {
    SplitAtWord(s);
    var n := WordLen(s);
    assert s[n..] != [];
    assert Split(s[n..]) == [b];
    gap, post := SplitSecond(s[n..], b);
    pre := [];
    assert a == s[..n];
    assert s == s[..n] + s[n..];
  }

  /** What follows the first word of a two-part split: whitespace (at least one character,
      since the word ended there), the second part, whitespace. */
  lemma SplitSecond(rest: string, b: string) returns (gap: string, post: string)
    requires Split(rest) == [b] && IsPySpace(rest[0])
    ensures AllSpace(gap) && gap != [] && AllSpace(post) && rest == gap + b + post
  {
    gap, post := SplitOne(rest, b);
    assert b != [] && !IsPySpace(b[0]) by { assert b == Split(rest)[0]; }
    assert gap != [] by {
      assert rest == gap + (b + post);
      assert (b + post)[0] == b[0];
    }
  }

  // ---------------------------------------------------------------------------------------
  // The Authorization header

  /** ASCII lower-casing. Python's `.lower()` also maps non-ASCII letters, but no character
      outside A-Z lowers to one of the letters of "bearer", so the comparison the guard makes
      is decided exactly by this function. */
  function LowerChar(c: char): char {
    if 'A' <= c <= 'Z' then (c as int + 32) as char else c
  }

  function LowerAscii(s: string): (r: string)
    ensures |r| == |s|
    ensures forall i :: 0 <= i < |s| ==> r[i] == LowerChar(s[i])
  {
    seq(|s|, i requires 0 <= i < |s| => LowerChar(s[i]))
  }

  /** A word spelling "bearer" in any letter case contains no whitespace. */
  lemma SchemeIsWord(scheme: string)
    requires LowerAscii(scheme) == "bearer"
    ensures scheme != [] && NoSpace(scheme)
  {
    assert |scheme| == 6;
    forall i | 0 <= i < |scheme| ensures !IsPySpace(scheme[i]) {
      assert LowerAscii(scheme)[i] == LowerChar(scheme[i]);
    }
  }

  /** How the guard classifies the header before decoding. */
  datatype HeaderCheck = MissingHeader | WhitespaceOnly | MalformedHeader | BearerToken(token: string)

  /** Lines 35-41 of the guard: no header or an empty one is missing; otherwise the header is
      split on whitespace and `parts[0]` is indexed BEFORE the length test, so a header of
      whitespace alone raises IndexError; two parts whose first is "bearer" in any case yield
      the second part as the token; everything else is invalid. */
  function CheckHeader(header: Option<string>): (r: HeaderCheck)
    ensures r == MissingHeader <==> header == None || header == Some("")
    ensures r == WhitespaceOnly <==> header.Some? && header.value != "" && AllSpace(header.value)
    ensures r.BearerToken? ==> r.token != "" && NoSpace(r.token)
  {
    if header.None? || header.value == "" then MissingHeader
    else
      var parts := Split(header.value);
      SplitEmptyIff(header.value);
      if |parts| == 0 then WhitespaceOnly
      else if LowerAscii(parts[0]) != "bearer" || |parts| != 2 then MalformedHeader
      else BearerToken(parts[1])
  }

  /** The Bearer header shape the guard actually accepts, as a grammar: optional whitespace,
      the scheme in any letter case, at least one whitespace character, a whitespace-free
      token, optional whitespace. Wider than the `credentials` rule of section 2.1 of RFC 6750
      (`"Bearer" 1*SP b64token`: spaces only, and b64token characters): it is what `split()`
      lets through. */
  ghost predicate BearerForm(h: string, token: string) {
    exists pre, scheme, gap, post ::
      && AllSpace(pre) && LowerAscii(scheme) == "bearer" && AllSpace(gap) && gap != []
      && token != [] && NoSpace(token) && AllSpace(post)
      && h == pre + scheme + gap + token + post
  }

  /** Soundness of the shape check: a token handed to the decoder sits in a Bearer-form header. */
  lemma CheckHeaderSound(h: string, token: string)
    requires CheckHeader(Some(h)) == BearerToken(token)
    ensures BearerForm(h, token)
  {
    var parts := Split(h);
    var pre, gap, post := SplitTwo(h, parts[0], parts[1]);
    assert AllSpace(pre) && LowerAscii(parts[0]) == "bearer" && AllSpace(gap) && gap != []
      && token != [] && NoSpace(token) && AllSpace(post)
      && h == pre + parts[0] + gap + token + post;
  }

  /** Completeness of the shape check: every Bearer-form header hands its token to the decoder. */
  lemma CheckHeaderComplete(h: string, token: string)
    requires BearerForm(h, token)
    ensures CheckHeader(Some(h)) == BearerToken(token)
  {
    var pre, scheme, gap, post :|
      && AllSpace(pre) && LowerAscii(scheme) == "bearer" && AllSpace(gap) && gap != []
      && token != [] && NoSpace(token) && AllSpace(post)
      && h == pre + scheme + gap + token + post;
    SplitBearerForm(pre, scheme, gap, token, post);
    assert h != "" by { assert |h| >= |scheme| == 6; }
  }

  lemma SplitBearerForm(pre: string, scheme: string, gap: string, token: string, post: string)
    requires AllSpace(pre) && LowerAscii(scheme) == "bearer" && AllSpace(gap) && gap != []
    requires token != [] && NoSpace(token) && AllSpace(post)
    ensures Split(pre + scheme + gap + token + post) == [scheme, token]
  {
    SchemeIsWord(scheme);
    SplitWordForm(pre, scheme, gap, token, post);
  }

  /** Whitespace, a word, whitespace, a word, whitespace: the split is the two words. */
  lemma SplitWordForm(pre: string, scheme: string, gap: string, token: string, post: string)
    requires AllSpace(pre) && scheme != [] && NoSpace(scheme) && AllSpace(gap) && gap != []
    requires token != [] && NoSpace(token) && AllSpace(post)
    ensures Split(pre + scheme + gap + token + post) == [scheme, token]
  {
    var body := scheme + gap + token + post;
    SplitWordPaddedWord(scheme, gap, token, post, body);
    assert pre + scheme + gap + token + post == pre + body;
    SplitLeadingSpace(pre, body);
  }

  /** A word, whitespace, a word, whitespace: the split is the two words. */
  lemma SplitWordPaddedWord(w: string, gap: string, v: string, post: string, s: string)
    requires w != [] && NoSpace(w) && AllSpace(gap) && gap != []
    requires v != [] && NoSpace(v) && AllSpace(post)
    requires s == w + gap + v + post
    ensures Split(s) == [w, v]
  {
    SpaceTail(gap);
    var rest := gap[1..] + v + post;
    assert s == w + [gap[0]] + rest by {
      assert gap == [gap[0]] + gap[1..];
    }
    SplitWordThenSpace(w, gap[0], rest, s);
    SplitPaddedWord(gap[1..], v, post);
  }

  /** A word ended by a whitespace character is the first part; the rest splits on its own. */
  lemma SplitWordThenSpace(w: string, c: char, rest: string, s: string)
    requires w != [] && NoSpace(w) && IsPySpace(c)
    requires s == w + [c] + rest
    ensures Split(s) == [w] + Split(rest)
  {
    SplitAtSpace(w, c, rest);
    SplitWord(w);
  }

  lemma SpaceTail(s: string)
    requires s != [] && AllSpace(s)
    ensures AllSpace(s[1..])
  {
    forall i | 0 <= i < |s[1..]| ensures IsPySpace(s[1..][i]) { assert s[1..][i] == s[i + 1]; }
  }

  /** A word between whitespace splits to the word alone. */
  lemma SplitPaddedWord(gap: string, w: string, post: string)
    requires AllSpace(gap) && w != [] && NoSpace(w) && AllSpace(post)
    ensures Split(gap + w + post) == [w]
  {
    assert gap + w + post == gap + (w + post);
    SplitLeadingSpace(gap, w + post);
    SplitTrailingSpace(w, post);
    SplitWord(w);
  }

  /** The guard hands `token` to the decoder exactly when the header has the Bearer form
      around that token. */
  lemma CheckHeaderBearerIff(h: string, token: string)
    ensures CheckHeader(Some(h)) == BearerToken(token) <==> BearerForm(h, token)
  {
    if CheckHeader(Some(h)) == BearerToken(token) { CheckHeaderSound(h, token); }
    if BearerForm(h, token) { CheckHeaderComplete(h, token); }
  }

  /** What `jwt.decode` did with the token: returned, raised ExpiredSignatureError, or raised
      any other InvalidTokenError. */
  datatype DecodeOutcome = DecodeOk | ExpiredSignature | InvalidToken

  /** The guard's verdict: None lets the wrapped view run; otherwise the response it returns
      instead. */
  function Guard(header: Option<string>, decode: string -> DecodeOutcome): (r: Option<Response>)
    ensures r.None? <==> CheckHeader(header).BearerToken? && decode(CheckHeader(header).token) == DecodeOk
    ensures CheckHeader(header) == MissingHeader ==> r == Some(Response(401, ErrorJson("Missing Authorization header")))
    ensures CheckHeader(header) == WhitespaceOnly ==> r == Some(Response(500, ServerErrorPage))
    ensures CheckHeader(header) == MalformedHeader ==> r == Some(Response(401, ErrorJson("Invalid Authorization header")))
    ensures CheckHeader(header).BearerToken? ==>
      var d := decode(CheckHeader(header).token);
      && (d == ExpiredSignature ==> r == Some(Response(401, ErrorJson("Token expired"))))
      && (d == InvalidToken ==> r == Some(Response(401, ErrorJson("Invalid token"))))
  {
    match CheckHeader(header)
    case MissingHeader => Some(Response(401, ErrorJson("Missing Authorization header")))
    case WhitespaceOnly => Some(Response(500, ServerErrorPage))
    case MalformedHeader => Some(Response(401, ErrorJson("Invalid Authorization header")))
    case BearerToken(token) =>
      match decode(token)
      case DecodeOk => None
      case ExpiredSignature => Some(Response(401, ErrorJson("Token expired")))
      case InvalidToken => Some(Response(401, ErrorJson("Invalid token")))
  }

  /** Every refusal the guard itself produces is a 401, except the IndexError of a
      whitespace-only header, which Flask turns into its 500 page. */
  lemma GuardRefusals(header: Option<string>, decode: string -> DecodeOutcome)
    ensures Guard(header, decode).Some? ==>
      (Guard(header, decode).value.status == 401 <==> CheckHeader(header) != WhitespaceOnly)
  {
  }

  /** `jwt_required(f)` applied to a view whose response is `view`: the view's own response is
      returned unchanged exactly when the decoded token is accepted. */
  function JwtRequired(header: Option<string>, decode: string -> DecodeOutcome, view: Response): (r: Response)
    ensures Guard(header, decode).None? ==> r == view
    ensures Guard(header, decode).Some? ==> r == Guard(header, decode).value
  {
    match Guard(header, decode)
    case None => view
    case Some(refusal) => refusal
  }

  /** The view runs exactly when the header has the Bearer form around a token the decoder
      accepts. */
  lemma JwtRequiredAdmits(h: string, decode: string -> DecodeOutcome)
    ensures Guard(Some(h), decode).None? <==> exists t :: BearerForm(h, t) && decode(t) == DecodeOk
  {
    if Guard(Some(h), decode).None? {
      var t := CheckHeader(Some(h)).token;
      CheckHeaderBearerIff(h, t);
    }
    if exists t :: BearerForm(h, t) && decode(t) == DecodeOk {
      var t :| BearerForm(h, t) && decode(t) == DecodeOk;
      CheckHeaderBearerIff(h, t);
    }
  }
}
