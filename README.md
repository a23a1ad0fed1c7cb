# Temperature prediction dashboard: access and response handling

This project is a Dafny model of the decision logic in a small temperature-prediction system. The system has two Python web services and a Next.js front end (its Python batch, streaming and training jobs are outside this model):

- a Flask API with a JWT login endpoint (`/auth/login`) and a token-guarded upload endpoint (`/upload`) that stores files in HDFS;
- a model-serving Flask app (`/predict`) that asks a trained model for a monthly average temperature;
- two Next.js API routes, which proxy to the year-prediction backend and to the model inventory;
- the pages: home (point prediction and year chart), dashboard (global temperature chart), models, sign-in, sign-out, support and upload.

Every piece is a short branch ladder, once its oracles are made parameters. The oracles are the JWT signer and verifier, the trained model, next-auth's session and sign-in calls, `fetch`, and the file stores.

- The pure ladders become functions whose contracts name each branch.
- Page components become classes. Their fields are the React state (`loading`, `prediction`, `chartData`, `models`, `error`, `status` and the form fields).
- Each async handler is split into a `Start…` method and a `Complete…` method. `Start…` covers what happens before its `await`; `Complete…` takes the awaited outcome and covers what follows. This makes "loading while in flight" statable.
- The upload endpoint's save, HDFS upload and removal change two path-to-content maps in sequence.

Modules:

| module | file | models |
|---|---|---|
| `JsValues`, `Http` | values.dfy | JSON values plus `undefined`, truthiness, `||`, property access (which throws on null/undefined), Python's `dict.get`; responses and what a `fetch` sees of them |
| `JsNumbers`, `Sessions` | js_numbers.dfy | `parseInt` without a radix, the decimal text of a count; next-auth sessions and the shared page gate |
| `FlaskAuth` | flask_auth.dfy | `login`; `jwt_required`, including Python's `str.split()` and the case-insensitive scheme test |
| `FlaskUpload` | flask_upload.dfy | `upload_file`: the validation ladder, the paths, the file-store effects |
| `ModelServing` | model_serving.dfy | `predict` |
| `PredictYearApi`, `ModelsApi` | api_routes.dfy | the two proxy handlers |
| `HomePage`, `Dashboard`, `ModelsPage`, `SignInPage`, `SignOutPage`, `SupportPage`, `UploadPage` | one file per page | the gates, pure render helpers and state machines |
| `EndToEnd` | end_to_end.dfy | properties that span a page and the service it calls |

The header check is specified twice. `CheckHeader` is what the code does: `split()`, then `parts[0].lower() != "bearer" or len(parts) != 2`. `BearerForm` is an independent grammar: optional whitespace, the scheme in any letter case, whitespace, a whitespace-free token, optional whitespace. `CheckHeaderBearerIff` proves that the two agree. The grammar is wider than the `credentials` rule of section 2.1 of RFC 6750 (`"Bearer" 1*SP b64token`): that rule allows one or more spaces, but no other whitespace, no leading or trailing whitespace and only b64token characters in the token. The code follows `split()`, and the model follows the code.

## Model

| member | source | states |
|---|---|---|
| FlaskAuth.Login | flask_app/auth.py:14-28 | 200 exactly when the body is a JSON object whose username and password equal the configured admin pair (defaults "admin"/"password"); the token then signs the user name with expiry now + 2 hours under JWT_SECRET (default "supersecretkey"); any other object gets 401 "Invalid credentials"; a body `get_json()` refuses gets its 415 or 400 answer, and a JSON null, list, string or number makes `creds.get` raise (500) |
| FlaskAuth.LoginDefaults | flask_app/auth.py:19-21 | with no environment overrides only admin/password is accepted; a wrong password gets the 401 body |
| FlaskAuth.Split | flask_app/auth.py:38 | `split()` yields only non-empty, whitespace-free parts |
| FlaskAuth.SplitEmptyIff | flask_app/auth.py:38 | the split is empty exactly when the string is all whitespace |
| FlaskAuth.SplitLeadingSpace | flask_app/auth.py:38 | leading whitespace does not change the split |
| FlaskAuth.SplitTrailingSpace | flask_app/auth.py:38 | trailing whitespace does not change the split |
| FlaskAuth.SplitAtSpace | flask_app/auth.py:38 | a whitespace character splits the two sides independently |
| FlaskAuth.SplitWord | flask_app/auth.py:38 | a non-empty whitespace-free string splits to itself |
| FlaskAuth.LowerAscii | flask_app/auth.py:39 | lower-casing keeps the length and lowers each character |
| FlaskAuth.SchemeIsWord | flask_app/auth.py:39 | a scheme that lowers to "bearer" is a non-empty whitespace-free word |
| FlaskAuth.CheckHeader | flask_app/auth.py:35-41 | absent or empty header is missing; a non-empty whitespace-only header is its own outcome (the IndexError at `parts[0]`); a returned token is non-empty and whitespace-free |
| FlaskAuth.SplitBearerForm | flask_app/auth.py:38-39 | a header in the Bearer grammar splits into exactly the scheme and the token |
| FlaskAuth.CheckHeaderSound | flask_app/auth.py:38-41 | a token handed to the decoder sits in a header of the Bearer grammar |
| FlaskAuth.CheckHeaderComplete | flask_app/auth.py:38-41 | every header of the Bearer grammar hands its token to the decoder |
| FlaskAuth.CheckHeaderBearerIff | flask_app/auth.py:38-41 | the shape check passes token t exactly when the header has the Bearer grammar around t |
| FlaskAuth.Guard | flask_app/auth.py:35-47 | the view is admitted exactly when the shape check yields a token that decodes; missing header, malformed header, expired and invalid tokens get their four 401 bodies; whitespace-only gets Flask's 500 page |
| FlaskAuth.GuardRefusals | flask_app/auth.py:35-47 | every refusal is a 401 except the whitespace-only header's 500 |
| FlaskAuth.JwtRequired | flask_app/auth.py:32-50 | the wrapped view's own response unchanged when admitted, the guard's refusal otherwise |
| FlaskAuth.JwtRequiredAdmits | flask_app/auth.py:38-48 | the view runs exactly when some token in Bearer grammar is accepted by the decoder |
| FlaskUpload.PosixJoin | flask_app/app.py:25 | `os.path.join`: an absolute second part wins, otherwise one separator is inserted |
| FlaskUpload.CheckUpload | flask_app/app.py:19-27 | missing "file" part gives 400 "No file part", checked before the empty filename's 400 "Empty filename"; accepted exactly otherwise, with tmp path join("/tmp", name), HDFS path "/data/" + name and the part's bytes |
| FlaskUpload.TmpPathPlacement | flask_app/app.py:25 | a relative filename lands under "/tmp/", an absolute one replaces the directory |
| FlaskUpload.UploadServer.UploadFile | flask_app/app.py:16-33 | a guard or validation refusal writes nothing; an accepted request saves the temp file; an upload failure gives 500 with its message and leaves the temp file; success stores the bytes in HDFS, removes the temp file and returns 200 with the HDFS path; a removal failure gives 500 after the HDFS write |
| ModelServing.Predict | model_serving/app.py:13-24 | OPTIONS gives 204 with no body and no model call; a body `get_json()` refuses gets its 415 or 400 answer; a JSON document other than an object makes `data.get` raise (500); in an object, a None year or month gives 400 "year and month required"; any present values reach the model as one row; its value comes back under `predicted_avg_temp`, a model exception as the 500 page |
| JsValues.Get | frontend/pages/index.js:52 | reading a property throws exactly on null and undefined; an object's own field is its value, a missing one undefined; any non-`length` property of a non-object is undefined |
| JsValues.PyGet | model_serving/app.py:18-19 | `dict.get` is None exactly for a missing key or a JSON null, and otherwise the stored value |
| Http.AsReply | frontend/pages/index.js:68-69 | the client sees `res.ok` exactly for a 2xx status, and `res.json()` succeeds exactly on a JSON body, with that body |
| Http.GetJsonAbort | model_serving/app.py:17 | a body without a JSON content type gets 415 and a malformed one 400, both with Flask's error page and without running the handler further |
| ModelServing.PredictSuccessShape | model_serving/app.py:22-24 | a 200 body has exactly the one numeric key `predicted_avg_temp` |
| PredictYearApi.ModelUrl | frontend/pages/api/predict_year.js:8 | MODEL_URL when set and non-empty, the localhost default otherwise |
| PredictYearApi.Handler | frontend/pages/api/predict_year.js:1-19 | non-POST gives 405 and no backend call; POST forwards the body unchanged, or no body when `req.body` is undefined; backend JSON passes through with 200 for ok and 500 otherwise; a fetch or parse failure gives 500 "failed to fetch predictions"; one response per call |
| PredictYearApi.HandlerStatus | frontend/pages/api/predict_year.js:2-18 | 200 exactly for POST with an ok JSON backend answer; every status is 200, 405 or 500 |
| ModelsApi.BackendUrl | frontend/pages/api/models/index.js:3 | BACKEND_URL when set and non-empty, the localhost default otherwise |
| ModelsApi.Handler | frontend/pages/api/models/index.js:1-11 | always one GET to the backend, whatever the method; ok JSON passes through with 200; everything else gives 500 "failed to load models" |
| ModelsApi.NonOkBodyIgnored | frontend/pages/api/models/index.js:5-10 | a non-ok backend body never affects the answer, which equals the transport failure's |
| Sessions.RequireSession | frontend/pages/index.js:27-33 | a missing session redirects non-permanently and yields no props; a session is handed to the page |
| JsNumbers.ShowNat | frontend/pages/models.js:78 | a count renders as non-empty decimal digits without a leading zero |
| JsNumbers.ShowNatValue | frontend/pages/models.js:78 | the rendered digits denote the count |
| JsNumbers.ParseInt | frontend/pages/index.js:49 | NaN exactly when no digit follows the leading whitespace, the optional sign and an optional "0x"/"0X" prefix (a hexadecimal digit after the prefix, a decimal one otherwise); only a leading minus gives a negative result |
| JsNumbers.ParseIntShowNat | frontend/pages/index.js:49 | `parseInt` reads back a number's decimal text followed by any non-digit character ("x" excepted after the text "0", where it would be a hex prefix) |
| JsNumbers.ParseIntNaN | frontend/pages/index.js:49 | "", "-" and "abc" parse to NaN |
| HomePage.GetServerSideProps | frontend/pages/index.js:27-33 | no session redirects to "/api/auth/signin", non-permanently; a session becomes the props |
| HomePage.IntOrNull | frontend/pages/index.js:49 | `JSON.stringify` writes null exactly when `parseInt` is NaN or overflows the double range to an infinity (magnitude 2^1024 - 2^970 or more), the integer otherwise |
| HomePage.PointRequestBody | frontend/pages/index.js:49 | exactly the keys year and month, each the parsed field |
| HomePage.YearRequestBody | frontend/pages/index.js:66 | exactly the key year, the parsed field |
| HomePage.PredictionAfter | frontend/pages/index.js:45-54 | `prediction` becomes the body's `predicted_avg_temp` when there is a non-null JSON body; otherwise it keeps its value |
| HomePage.PredictionIgnoresStatus | frontend/pages/index.js:51-52 | the response status never matters to `prediction` |
| HomePage.PredictionUndefinedWithoutKey | frontend/pages/index.js:52 | a JSON object without the key sets `prediction` to undefined |
| HomePage.ChartAfter | frontend/pages/index.js:68-90 | the chart changes only on an ok response with a non-null JSON body; then it has the twelve month labels, the label "Predicted Temperature " + the clicked year, and `json.predictions` as data |
| HomePage.ChartDataUnchecked | frontend/pages/index.js:70-75 | any predictions array is taken as is, with no length check |
| HomePage.PredictionPanel | frontend/pages/index.js:232-241 | hidden exactly for null, shown exactly for a number, a render error otherwise |
| HomePage.Home.constructor | frontend/pages/index.js:36-40 | empty fields, null prediction and chart, not loading |
| HomePage.Home.SetYear | frontend/pages/index.js:173 | sets the year and nothing else |
| HomePage.Home.SetMonth | frontend/pages/index.js:187 | sets the month and nothing else |
| HomePage.Home.SubmitDisabled | frontend/pages/index.js:205 | disabled while loading; whenever it is disabled, so is the chart button |
| HomePage.Home.ChartDisabled | frontend/pages/index.js:223 | disabled exactly while loading or while the year field is empty |
| HomePage.Home.StartSubmit | frontend/pages/index.js:42-50 | sets loading, which disables both buttons, and sends the point request to the model server |
| HomePage.Home.CompleteSubmit | frontend/pages/index.js:51-57 | `prediction` becomes `PredictionAfter`, loading is cleared on every outcome, nothing else changes |
| HomePage.Home.StartLoadChart | frontend/pages/index.js:60-67 | sets loading, which disables both buttons, sends the year request to the proxy, captures the year |
| HomePage.Home.CompleteLoadChart | frontend/pages/index.js:68-93 | `chartData` becomes `ChartAfter` for the captured year, loading is cleared on every outcome |
| HomePage.SubmitRound | frontend/pages/index.js:205 | after a whole submission loading is cleared, the submit button is enabled again and the chart is unchanged |
| Dashboard.IsGlobal | frontend/pages/dashboard.js:37 | a record passes exactly when it is an object whose own `station_id` is the string "GLOBAL" |
| Dashboard.KeepGlobal | frontend/pages/dashboard.js:37 | kept records are non-null GLOBAL-station records, no more of them than the input |
| Dashboard.KeepGlobalThrows | frontend/pages/dashboard.js:37 | the filter throws exactly when some record is null or undefined |
| Dashboard.KeepGlobalMembers | frontend/pages/dashboard.js:37 | a record is kept exactly when it is in the input and has `station_id` "GLOBAL" |
| Dashboard.KeepGlobalAppend | frontend/pages/dashboard.js:37 | the filter distributes over concatenation, so input order is kept |
| Dashboard.KeepGlobalAllGlobal | frontend/pages/dashboard.js:37 | all-GLOBAL input comes back whole: no deduplication |
| Dashboard.Project | frontend/pages/dashboard.js:37-40 | labels and values have the kept records' length and are index-aligned with them; a non-array or null record throws |
| Dashboard.GlobalTempChart.constructor | frontend/pages/dashboard.js:29 | no chart data |
| Dashboard.GlobalTempChart.OnLoad | frontend/pages/dashboard.js:31-57 | the projected series replaces the chart whatever the status; every failure leaves the state as it was, so the loading text of line 57 (`ShowsLoading`) stays exactly when it showed before and the load failed |
| Dashboard.FailedLoadKeepsLoading | frontend/pages/dashboard.js:54-57 | after a failed load the page still shows "Loading chart…" |
| ModelsPage.GetServerSideProps | frontend/pages/models.js:6-12 | the home page's gate |
| ModelsPage.FileTotal | frontend/pages/models.js:158 | the total counts every model's files: no model has more files than the total |
| ModelsPage.FileTotalAppend | frontend/pages/models.js:158 | the file total is additive over the model list |
| ModelsPage.FileTotalZero | frontend/pages/models.js:158 | the total is zero exactly when no model has a file |
| ModelsPage.ModelCount | frontend/pages/models.js:133 | the array's length, or 0 for null/undefined |
| ModelsPage.FilesLabel | frontend/pages/models.js:78 | the count's decimal digits, then " file", then an "s" exactly when the count is not 1 |
| ModelsPage.FilesLabelPlural | frontend/pages/models.js:78 | the label ends in "s" exactly when the count is not 1 |
| ModelsPage.FilesLabelCount | frontend/pages/models.js:78 | `parseInt` of the label gives back the count |
| ModelsPage.Render | frontend/pages/models.js:85-186 | loading first, then a truthy error, then the listing; null models list nothing with zero counts; past loading and error the page renders exactly for null models or an array whose entries have a `files` array and whose names and files are valid React children (no plain object, lines 47 and 64); a listing of an array has its entries as cards and its length as total |
| ModelsPage.EmptyListNoModels | frontend/pages/models.js:169-186 | an empty list renders the empty listing, not the error view |
| ModelsPage.ListingFileTotal | frontend/pages/models.js:133-158 | the stats of a list whose cards render are its length, its length and its file total |
| ModelsPage.ObjectChildThrows | frontend/pages/models.js:47-64 | a card whose name is an object, or one of whose files is, makes the page throw |
| ModelsPage.LoadError | frontend/pages/models.js:27 | the body's truthy `error`, or "Failed to load models"; always truthy |
| ModelsPage.Models.constructor | frontend/pages/models.js:15-17 | models null, loading true, error null |
| ModelsPage.Models.LoadModels | frontend/pages/models.js:20-35 | ok sets `models` to `data.models`; non-ok sets `error` to `LoadError`; a fetch, parse or null-body failure sets "Failed to connect to models API"; loading is cleared on every outcome |
| ModelsPage.FailedLoadShowsError | frontend/pages/models.js:24-31 | every failed load renders the error view |
| SignInPage.GetServerSideProps | frontend/pages/auth/signin.js:159-166 | redirects exactly when signed in, to "/"; otherwise the providers, or none when `getProviders()` is null |
| SignInPage.BannerLines | frontend/pages/auth/signin.js:60-67 | no line for a falsy code; exactly one line otherwise, the three known codes' own messages and the generic message for any other code |
| SignInPage.SubmitRule | frontend/pages/auth/signin.js:105 | enabled exactly when not loading and both fields are non-empty; the prefilled form is enabled |
| SignInPage.WithoutCredentials | frontend/pages/auth/signin.js:124 | keeps exactly the providers whose id is not "credentials" |
| SignInPage.WithoutCredentialsAppend | frontend/pages/auth/signin.js:124 | the filter distributes over concatenation, so the buttons keep the list's order and repetitions |
| SignInPage.WithoutCredentialsSingle | frontend/pages/auth/signin.js:124 | one provider is kept exactly when its id is not "credentials" |
| SignInPage.AlternativeProviders | frontend/pages/auth/signin.js:111-125 | no button unless more than one provider; never the credentials provider |
| SignInPage.OnlyCredentialsNoButtons | frontend/pages/auth/signin.js:111 | a provider list of credentials providers only, of any length, shows no alternative button |
| SignInPage.ConfiguredProvidersNoButtons | frontend/pages/auth/signin.js:111 | with the one provider the next-auth configuration declares (the credentials provider, lines 5-25 of frontend/pages/api/auth/[...nextauth].js) no alternative button shows |
| SignInPage.SignIn.constructor | frontend/pages/auth/signin.js:7-9 | prefilled "admin"/"password", not loading |
| SignInPage.SignIn.StartCredentials | frontend/pages/auth/signin.js:13-22 | sets loading and calls `signIn` with the fields and `redirect: false` |
| SignInPage.SignIn.CompleteCredentials | frontend/pages/auth/signin.js:25-30 | home on ok, no navigation otherwise, loading cleared on both; a rejection escapes with the state as it was |
| SignInPage.SignIn.StartProvider | frontend/pages/auth/signin.js:33-36 | sets loading and calls `signIn` with `callbackUrl: '/'` |
| SignInPage.SignIn.CompleteProvider | frontend/pages/auth/signin.js:35-40 | loading is cleared only when `signIn` threw |
| SignOutPage.GetServerSideProps | frontend/pages/auth/signout.js:134-145 | no session redirects to "/auth/signin", non-permanently; a session becomes the props |
| SignOutPage.DisplayName | frontend/pages/auth/signout.js:59 | the user's non-empty name, "User" otherwise |
| SignOutPage.DisplayEmail | frontend/pages/auth/signout.js:62 | the user's non-empty email, "No email available" otherwise |
| SignOutPage.SignOut.constructor | frontend/pages/auth/signout.js:7 | not loading, no calls |
| SignOutPage.SignOut.StartSignOut | frontend/pages/auth/signout.js:10-13 | sets loading, disabling both buttons (`ButtonsDisabled`, lines 76 and 94), and calls `signOut` with callback "/auth/signin" |
| SignOutPage.SignOut.CompleteSignOut | frontend/pages/auth/signout.js:12-17 | loading is cleared, and the buttons enabled, only when `signOut` threw |
| SignOutPage.SignOut.HandleCancel | frontend/pages/auth/signout.js:20-22 | navigates home without calling `signOut` |
| SupportPage.GetServerSideProps | frontend/pages/support.js:6-12 | the home page's gate |
| SupportPage.RequestBody | frontend/pages/support.js:29 | exactly the keys message, email and subject with the field values |
| SupportPage.StatusAfter | frontend/pages/support.js:32-42 | success exactly for an ok response; error for non-ok and for a rejected fetch |
| SupportPage.Support.constructor | frontend/pages/support.js:15-19 | empty fields, no status, not loading |
| SupportPage.Support.SetEmail | frontend/pages/support.js:96 | sets the email only |
| SupportPage.Support.SetSubject | frontend/pages/support.js:110 | sets the subject only |
| SupportPage.Support.SetMessage | frontend/pages/support.js:130 | sets the message only |
| SupportPage.Support.StartSubmit | frontend/pages/support.js:21-30 | sets loading, disabling the button (`SubmitDisabled`, line 140), and posts the three fields to "/api/support" |
| SupportPage.Support.CompleteSubmit | frontend/pages/support.js:31-45 | status is `StatusAfter`; success clears the three fields, failure keeps them; loading is cleared and the button enabled on every outcome |
| SupportPage.Banner | frontend/pages/support.js:158-172 | no banner before a submission; "Message sent successfully!" after a success and "Failed to send message" after a failure |
| SupportPage.BannerAfterSubmit | frontend/pages/support.js:32-42 | after a submission the banner is never empty and reports success exactly for a 2xx answer |
| UploadPage.AppendValue | frontend/pages/upload.js:11 | the form value is a file exactly when one was chosen; null and undefined become the strings "null" and "undefined" |
| UploadPage.TokenText | frontend/pages/upload.js:16 | the token's string form, "undefined" when absent |
| UploadPage.AuthorizationHeader | frontend/pages/upload.js:16 | "Bearer " followed by the token's string form |
| UploadPage.ServerFiles | flask_app/app.py:19-21 | a name is among `request.files` exactly when some file entry carries it |
| UploadPage.UploadForm.constructor | frontend/pages/upload.js:5 | no file |
| UploadPage.UploadForm.OnChange | frontend/pages/upload.js:26 | the first selected file, undefined for an empty selection |
| UploadPage.UploadForm.HandleSubmit | frontend/pages/upload.js:7-19 | a null session throws; otherwise a POST to "/upload" with exactly the Authorization header and exactly one form entry named "file" |
| UploadPage.ChosenFileArrives | frontend/pages/upload.js:10-11 | the server sees a "file" part exactly when a file was chosen, and then that file |
| EndToEnd.UploadHeaderSplit | frontend/pages/upload.js:16 | the header splits into "Bearer" followed by the token's own parts |
| EndToEnd.UploadHeaderShape | frontend/pages/upload.js:16 | the header passes the shape check exactly when the token text is one part; the decoder receives exactly the token text exactly when it is non-empty and whitespace-free |
| EndToEnd.BearerPrefixCheck | flask_app/auth.py:38-41 | a header splitting into "Bearer" and the parts of t passes exactly when t is one part, yielding that part |
| EndToEnd.TokenReachesDecoder | frontend/pages/upload.js:16 | a non-empty whitespace-free token reaches the decoder as is; the guard admits exactly what it accepts |
| EndToEnd.UndefinedTokenReachesDecoder | frontend/pages/upload.js:16 | a session without a token sends "Bearer undefined", which the decoder alone decides |
| EndToEnd.LettersNoSpace | flask_app/auth.py:38 | ASCII letters are not whitespace to `split()` |
| EndToEnd.NoFileChosenRefused | frontend/pages/upload.js:11 | without a chosen file the upload view answers 400 "No file part" |
| EndToEnd.ChosenFileAccepted | flask_app/app.py:16-27 | a named chosen file with an accepted whitespace-free token passes every check, with its own name and bytes |
| EndToEnd.PointRequestRefusedIffNull | model_serving/app.py:18-21 | the home page's point request is refused with 400 exactly when a field does not parse to a finite number (NaN or an overflow, both sent as null) |
| EndToEnd.PointPredictionRoundTrip | frontend/pages/index.js:46-52 | parsed fields reach the model as one numeric row and its value becomes the shown prediction |
| EndToEnd.RefusalClearsPrediction | frontend/pages/index.js:51-52 | the server's refusal body sets `prediction` to undefined |
| EndToEnd.RefusedPointRequestBreaksPanel | frontend/pages/index.js:232-241 | after a field that does not parse to a finite number the prediction panel's render throws at `toFixed` |
| EndToEnd.FailingModelKeepsPrediction | frontend/pages/index.js:51-54 | a raising model yields the HTML 500 page and `prediction` keeps its value |
| EndToEnd.ChartThroughProxy | frontend/pages/index.js:63-88 | through the proxy, an ok backend object gives a chart of its predictions and any non-ok backend outcome leaves the chart |
| EndToEnd.ModelsPageOverProxy | frontend/pages/models.js:24-28 | every backend failure reaches the page as the proxy's "failed to load models", never the page's own default |
| EndToEnd.Authorize | frontend/pages/auth/signin.js:18-25 | the `authorize` callback behind this `signIn('credentials', …)` (lines 12-23 of frontend/pages/api/auth/[...nextauth].js): a user exactly for an ok login answer with a truthy token, carrying that token |
| EndToEnd.PrefilledCredentialsSignIn | frontend/pages/auth/signin.js:7-8 | the prefilled pair signs in against the backend defaults |
| EndToEnd.WrongCredentialsNoUser | flask_app/auth.py:15-28 | every other body, another pair or not a credentials object at all, is refused by the backend, so `authorize` (lines 19-22 of frontend/pages/api/auth/[...nextauth].js) yields no user |
| EndToEnd.NoRedirectLoop | frontend/pages/auth/signin.js:159-163 | for every session exactly one of the home and sign-in gates redirects; the sign-out target renders for anyone without a session |

## Left out

- JWT signing and verification, the trained model, next-auth (`getSession`, `signIn`, `signOut`, `getProviders`), `fetch` and `console`: these are oracles, passed in as parameters or outcome values.
- The HDFS client: it is the map `hdfs`. `f.save` is taken to succeed, and an exception it raises is not modelled.
- Response bodies that are not JSON are reduced to "not parseable" (`res.json()` rejects). Flask's 500 page is a constant.
- Numbers are exact reals. Float rounding, `float(pred)`, `toFixed(2)` output and `new Date(…)` are not modelled; dashboard labels keep the raw timestamp value.
- JsNumbers.ParseInt: the result is an exact integer. JavaScript rounds a finite value beyond 2^53 to the nearest double, and a user can reach that: the year-chart button is `type="button"`, skips form validation and sends whatever year was typed. The overflow to an infinity is modelled (`ParsesFinite`, used by `IntOrNull`), with the exact rounding boundary; an engine may approximate digits after the 20th significant one, which can move that boundary slightly. The radix argument is not modelled; the pages never pass one.
- EndToEnd.Authorize: a throwing `authorize` (`res.json()` rejecting on a non-JSON login answer, or `data.token` on a null body) is merged with one returning null; both give no user, and next-auth's different error reporting for the two is not modelled.
- The request bodies of `login` and `predict` follow current Flask, where `get_json()` answers 415 for a request without a JSON content type and 400 for malformed JSON. Older Flask versions return None for the first, which would then raise (500); the repository pins no version.
- JsValues.Get: prototype properties and numeric index keys are not modelled; objects are their own fields, and arrays and strings have `length`.
- FlaskAuth.LowerAscii: lowers ASCII only. Python's `.lower()` also maps other letters, but none of them lowers to a letter of "bearer", so the comparison is decided the same way.
- UploadPage.ServerFiles: states which names are present, not which part wins for a repeated name; the page only ever sends one entry.
- Browser form validation (`required` on inputs) is not modelled; the handlers accept any field values.
- Async interleaving: each handler runs once per outcome, split at its `await`; overlapping runs, and the React batching of state updates, are not modelled.
- The `/api/support` route and a `/predict_year` backend route are not part of this repository, so their answers are abstract replies.
- The upload page's relative `fetch('/upload')` goes to the Next.js app. There `/upload` is this page's own route, and no API handler behind it accepts the POST. The cross-service lemmas pair the page's request with the Flask endpoint directly; the routing between them is not modelled.
- The jwt and session callbacks of the next-auth configuration (copying the backend token into `accessToken`) are represented by `Sessions.Session.accessToken`, not as functions.
- JSX markup, styles, chart options, the FAQ text, `Layout.js` and `_app.js`.
- The ML pipeline, batch jobs, streaming job and HDFS ingestion script: numeric and I/O wrappers outside the decision logic.
- The code does not sort, deduplicate or check the length of predictions, and the client never expires tokens. The model adds none of these.
- The upload header passes the shape check for more tokens than "non-empty and whitespace-free". A token such as " x" passes too, and the decoder then receives "x". `EndToEnd.UploadHeaderShape` states the exact condition.
