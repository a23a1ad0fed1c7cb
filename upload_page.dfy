/** frontend/pages/upload.js: the bare upload form. `onChange` sets the `file` state; the
    submit handler builds a one-entry `FormData` by `append` and the Authorization header from
    the session, and ignores the response. There is no session gate. */
module UploadPage {
  import opened JsValues
  import Sessions
  import FlaskUpload

  /** The `file` state: null before any choice, undefined when the picker was emptied
      (`e.target.files[0]` of an empty list), or a chosen file. */
  datatype FileChoice = NoFile | UndefinedFile | Chosen(file: FlaskUpload.FilePart)

  /** A FormData value: a file, or the string a non-Blob value is converted to. */
  datatype FormValue = Blob(part: FlaskUpload.FilePart) | Text(s: string)

  datatype FormEntry = FormEntry(name: string, value: FormValue)

  /** `formData.append(name, v)` converts null and undefined to the strings "null" and
      "undefined". */
  function AppendValue(choice: FileChoice): (v: FormValue)
    ensures v.Blob? <==> choice.Chosen?
    ensures choice.Chosen? ==> v == Blob(choice.file)
    // a non-Blob value is converted to its string form
    ensures choice == NoFile ==> v == Text("null")
    ensures choice == UndefinedFile ==> v == Text("undefined")
  {
    match choice
    case NoFile => Text("null")
    case UndefinedFile => Text("undefined")
    case Chosen(f) => Blob(f)
  }

  /** `${session.accessToken}`: the token, or "undefined" when the session has none. */
  function TokenText(token: Option<string>): (s: string)
    ensures token.Some? ==> s == token.value
    ensures token.None? ==> s == "undefined"
  {
    if token.Some? then token.value else "undefined"
  }

  /** The header value `Bearer ${session.accessToken}`. */
  function AuthorizationHeader(token: Option<string>): (h: string)
    ensures h == "Bearer " + TokenText(token)
    ensures |h| > 7 || token == Some("")
  {
    "Bearer " + TokenText(token)
  }

  /** The request the form sends. */
  datatype UploadRequest = UploadRequest(url: string, verb: string, headers: map<string, string>, form: seq<FormEntry>)

  /** What the multipart parser hands the Flask view as `request.files`: the file entries by
      name, the first per name; text entries go to `request.form` instead. */
  function ServerFiles(form: seq<FormEntry>): (files: map<string, FlaskUpload.FilePart>)
    ensures forall k :: k in files <==> exists i :: 0 <= i < |form| && form[i].name == k && form[i].value.Blob?
  {
    if form == [] then map[]
    else
      var rest := ServerFiles(form[1..]);
      assert forall k :: k in rest <==> exists i :: 1 <= i < |form| && form[i].name == k && form[i].value.Blob? by {
        forall k ensures k in rest <==> exists i :: 1 <= i < |form| && form[i].name == k && form[i].value.Blob? {
          if k in rest {
            var j :| 0 <= j < |form[1..]| && form[1..][j].name == k && form[1..][j].value.Blob?;
            assert form[j + 1] == form[1..][j];
          }
          if exists i :: 1 <= i < |form| && form[i].name == k && form[i].value.Blob? {
            var i :| 1 <= i < |form| && form[i].name == k && form[i].value.Blob?;
            assert form[1..][i - 1] == form[i];
          }
        }
      }
      if form[0].value.Blob? then rest[form[0].name := form[0].value.part] else rest
  }

  class UploadForm {
    var file: FileChoice

    constructor ()
      ensures file == NoFile
    {
      file := NoFile;
    }

    /** `onChange`: the first selected file, or undefined when the list is empty. */
    method OnChange(selected: seq<FlaskUpload.FilePart>)
      modifies this
      ensures selected == [] ==> file == UndefinedFile
      ensures selected != [] ==> file == Chosen(selected[0])
    {
      if selected == [] {
        file := UndefinedFile;
      } else {
        file := Chosen(selected[0]);
      }
    }

    /** `handleSubmit` with the session `getSession()` resolved to: the form gets exactly one
        entry, named "file"; reading `accessToken` of a null session throws before the fetch. */
    method HandleSubmit(session: Option<Sessions.Session>) returns (r: Completion<UploadRequest>)
      ensures session.None? <==> r.Threw?
      ensures session.Some? ==>
        && r.value.url == "/upload" && r.value.verb == "POST"
        && r.value.headers == map["Authorization" := AuthorizationHeader(session.value.accessToken)]
        && r.value.form == [FormEntry("file", AppendValue(file))]
    {
      var form: seq<FormEntry> := [];
      form := form + [FormEntry("file", AppendValue(file))];
      if session.None? {
        return Threw;
      }
      var header := AuthorizationHeader(session.value.accessToken);
      r := Normal(UploadRequest("/upload", "POST", map["Authorization" := header], form));
    }
  }

  /** The server sees a "file" part exactly when a file was chosen, and then that very file. */
  lemma ChosenFileArrives(choice: FileChoice)
    ensures "file" in ServerFiles([FormEntry("file", AppendValue(choice))]) <==> choice.Chosen?
    ensures choice.Chosen? ==> ServerFiles([FormEntry("file", AppendValue(choice))])["file"] == choice.file
  {
  }
}
