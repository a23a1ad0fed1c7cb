/** model_serving/app.py: the `/predict` endpoint. The trained model is an oracle: `model(row)`
    is what `model.predict` gives for a one-row frame holding `row`, or None when it raises. */
module ModelServing {
  import opened JsValues
  import opened Http

  /** The two methods the route accepts; Flask's router answers every other one itself. */
  datatype Method = Post | Options

  /** `predict()` on a request whose body `get_json()` read as `body`: a refused body gets
      Flask's 4xx answer, and any decoded document other than an object makes `data.get`
      raise, which Flask answers with 500. */
  function Predict(verb: Method, body: RequestJson, model: seq<Value> -> Option<real>): (r: Response)
    // the preflight answer never consults the body or the model
    ensures verb == Options ==> r == Response(204, NoBody)
    ensures verb == Post && !body.Parsed? ==> r == GetJsonAbort(body)
    ensures verb == Post && body.Parsed? && !body.v.Obj? ==> r == Response(500, ServerErrorPage)
    ensures verb == Post && body.Parsed? && body.v.Obj? ==>
      var data := body.v.fields;
      && ((PyGet(data, "year").None? || PyGet(data, "month").None?) ==>
            r == Response(400, ErrorJson("year and month required")))
      // only presence is checked: any present year and month, whatever their value, reach the model
      && (PyGet(data, "year").Some? && PyGet(data, "month").Some? ==>
            var row := [data["year"], data["month"]];
            && (model(row).Some? ==> r == Response(200, Json(Obj(map["predicted_avg_temp" := Num(model(row).value)]))))
            && (model(row).None? ==> r == Response(500, ServerErrorPage)))
  {
    if verb == Options then Response(204, NoBody)
    else
      match body
      case Parsed(Obj(data)) =>
        var year := PyGet(data, "year");
        var month := PyGet(data, "month");
        if year.None? || month.None? then Response(400, ErrorJson("year and month required"))
        else
          (match model([year.value, month.value])
           case Some(pred) => Response(200, Json(Obj(map["predicted_avg_temp" := Num(pred)])))
           case None => Response(500, ServerErrorPage))
      case Parsed(_) => Response(500, ServerErrorPage)
      case _ => GetJsonAbort(body)
  }

  /** A successful prediction answers with exactly one key, `predicted_avg_temp`. */
  lemma PredictSuccessShape(body: RequestJson, model: seq<Value> -> Option<real>)
    ensures Predict(Post, body, model).status == 200 ==>
      var b := Predict(Post, body, model).body;
      b.Json? && b.v.Obj? && b.v.fields.Keys == {"predicted_avg_temp"} && b.v.fields["predicted_avg_temp"].Num?
  {
  }
}
