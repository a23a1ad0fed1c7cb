/** flask_app/app.py: the `/upload` endpoint behind `jwt_required`. The guard and the validation
    ladder are pure; saving the part, the HDFS upload and the removal of the temporary file
    change the two file stores in sequence. */
module FlaskUpload {
  import opened JsValues
  import opened Http
  import FlaskAuth

  type Bytes = seq<bv8>

  /** One file part of a multipart request: the client-supplied filename and the content. */
  datatype FilePart = FilePart(filename: string, content: Bytes)

  /** `os.path.join(a, b)` on POSIX: an absolute `b` discards `a`; otherwise a separator is
      inserted unless `a` is empty or already ends with one. */
  function PosixJoin(a: string, b: string): (r: string)
    ensures b != [] && b[0] == '/' ==> r == b
    ensures (b == [] || b[0] != '/') && a != [] && a[|a| - 1] != '/' ==> r == a + "/" + b
  {
    if b != [] && b[0] == '/' then b
    else if a == [] || a[|a| - 1] == '/' then a + b
    else a + "/" + b
  }

  /** Where an accepted upload goes: the local temporary path, the HDFS path and the bytes. */
  datatype Plan = Plan(tmpPath: string, hdfsPath: string, content: Bytes)

  datatype Checked = Refused(response: Response) | Accepted(plan: Plan)

  /** Lines 19-27: the "file" part is looked for first, then its filename; an accepted request
      is saved under `os.path.join("/tmp", filename)` and uploaded to "/data/" + filename. */
  function CheckUpload(files: map<string, FilePart>): (r: Checked)
    ensures "file" !in files ==> r == Refused(Response(400, ErrorJson("No file part")))
    ensures "file" in files && files["file"].filename == "" ==> r == Refused(Response(400, ErrorJson("Empty filename")))
    ensures r.Accepted? <==> "file" in files && files["file"].filename != ""
    ensures r.Accepted? ==>
      var name := files["file"].filename;
      && r.plan.hdfsPath == "/data/" + name
      && r.plan.tmpPath == PosixJoin("/tmp", name)
      && r.plan.content == files["file"].content
  {
    if "file" !in files then Refused(Response(400, ErrorJson("No file part")))
    else
      var f := files["file"];
      if f.filename == "" then Refused(Response(400, ErrorJson("Empty filename")))
      else Accepted(Plan(PosixJoin("/tmp", f.filename), "/data/" + f.filename, f.content))
  }

  /** A relative filename keeps the temporary file under /tmp/; an absolute one (the filename is
      the client's, unsanitised) replaces the directory altogether. */
  lemma TmpPathPlacement(name: string)
    requires name != ""
    ensures name[0] != '/' ==> PosixJoin("/tmp", name) == "/tmp/" + name
    ensures name[0] == '/' ==> PosixJoin("/tmp", name) == name
  {
  }

  /** The success body: `{"status": "success", "hdfs_path": path}`. */
  function SuccessJson(hdfsPath: string): Body {
    Json(Obj(map["status" := Str("success"), "hdfs_path" := Str(hdfsPath)]))
  }

  /** The server's two stores: the local filesystem and HDFS, both as path-to-content maps. */
  class UploadServer {
    var local: map<string, Bytes>
    var hdfs: map<string, Bytes>

    constructor (local0: map<string, Bytes>, hdfs0: map<string, Bytes>)
      ensures local == local0 && hdfs == hdfs0
    {
      local := local0;
      hdfs := hdfs0;
    }

    /** `upload_file` wrapped by `jwt_required`. `uploadError` and `removeError` are the messages
        of the exceptions `client.upload` and `os.remove` raise, None when they succeed. */
    method UploadFile(header: Option<string>, decode: string -> FlaskAuth.DecodeOutcome,
                      files: map<string, FilePart>, uploadError: Option<string>, removeError: Option<string>)
      returns (resp: Response)
      modifies this
      // refused by the guard or by validation: nothing is written anywhere
      ensures FlaskAuth.Guard(header, decode).Some? ==>
        resp == FlaskAuth.Guard(header, decode).value && local == old(local) && hdfs == old(hdfs)
      ensures FlaskAuth.Guard(header, decode).None? && CheckUpload(files).Refused? ==>
        resp == CheckUpload(files).response && local == old(local) && hdfs == old(hdfs)
      ensures FlaskAuth.Guard(header, decode).None? && CheckUpload(files).Accepted? ==>
        var p := CheckUpload(files).plan;
        var saved := old(local)[p.tmpPath := p.content];
        && (uploadError.Some? ==>
              resp == Response(500, ErrorJson(uploadError.value)) && local == saved && hdfs == old(hdfs))
        && (uploadError.None? ==> hdfs == old(hdfs)[p.hdfsPath := p.content])
        && (uploadError.None? && removeError.Some? ==>
              resp == Response(500, ErrorJson(removeError.value)) && local == saved)
        && (uploadError.None? && removeError.None? ==>
              resp == Response(200, SuccessJson(p.hdfsPath)) && local == saved - {p.tmpPath})
    {
      var refusal := FlaskAuth.Guard(header, decode);
      if refusal.Some? {
        return refusal.value;
      }
      var checked := CheckUpload(files);
      if checked.Refused? {
        return checked.response;
      }
      var p := checked.plan;
      local := local[p.tmpPath := p.content];        // f.save(tmp_path)
      if uploadError.Some? {                           // client.upload raised
        return Response(500, ErrorJson(uploadError.value));
      }
      hdfs := hdfs[p.hdfsPath := local[p.tmpPath]];    // client.upload(..., overwrite=True)
      if removeError.Some? {                           // os.remove raised
        return Response(500, ErrorJson(removeError.value));
      }
      local := local - {p.tmpPath};                    // os.remove(tmp_path)
      resp := Response(200, SuccessJson(p.hdfsPath));
    }
  }
}
