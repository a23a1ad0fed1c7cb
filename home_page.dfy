/** frontend/pages/index.js: the prediction form. The gate is pure; `handleSubmit` and
    `loadChart` change the page's state around one `fetch` each, and are modelled as a
    Start method (what happens before the await: `loading` is set and the request is built
    from the state the click saw) and a Complete method (what the awaited outcome does). */
module HomePage {
  import opened JsValues
  import opened Http
  import JsNumbers
  import Sessions

  /** `getServerSideProps`: no session redirects (temporarily) to the built-in sign-in route. */
  function GetServerSideProps(session: Option<Sessions.Session>): (r: Sessions.ServerSideProps)
    ensures session.None? ==> r == Sessions.Redirect("/api/auth/signin", false)
    ensures session.Some? ==> r == Sessions.SessionProps(session.value)
  {
    Sessions.RequireSession(session, Sessions.ApiSignInPath)
  }

  /** `parseInt(s)` as `JSON.stringify` writes it: the integer, or null for NaN and for the
      infinities an oversized digit string overflows to. */
  function IntOrNull(s: string): (v: Value)
    ensures v == Null <==> !JsNumbers.ParsesFinite(s)
    ensures JsNumbers.ParseInt(s).None? ==> v == Null
    ensures v != Null ==> v == Num(JsNumbers.ParseInt(s).value as real)
  {
    if JsNumbers.ParsesFinite(s) then Num(JsNumbers.ParseInt(s).value as real) else Null
  }

  /** The body of the point prediction: `{year: parseInt(year), month: parseInt(month)}`. */
  function PointRequestBody(year: string, month: string): (v: Value)
    ensures v.Obj? && v.fields.Keys == {"year", "month"}
    ensures v.fields["year"] == IntOrNull(year) && v.fields["month"] == IntOrNull(month)
  {
    Obj(map["year" := IntOrNull(year), "month" := IntOrNull(month)])
  }

  /** The body of the year chart request: `{year: parseInt(year)}`. */
  function YearRequestBody(year: string): (v: Value)
    ensures v.Obj? && v.fields.Keys == {"year"} && v.fields["year"] == IntOrNull(year)
  {
    Obj(map["year" := IntOrNull(year)])
  }

  const PredictUrl := "http://localhost:8000/predict"
  const PredictYearUrl := "/api/predict_year"

  const MonthLabels: seq<string> :=
    ["Jan", "Feb", "Mar", "Apr", "May", "Jun", "Jul", "Aug", "Sep", "Oct", "Nov", "Dec"]

  /** The chart state: its labels, the label of its one dataset and the dataset's data
      (styling constants are not modelled). */
  datatype ChartData = ChartData(labels: seq<string>, datasetLabel: string, data: Value)

  /** What `prediction` becomes after `handleSubmit` awaited `reply`: `json.predicted_avg_temp`
      whatever the status, unchanged when the fetch or the JSON parse threw or the body was null
      (reading a property of null throws into the catch). */
  function PredictionAfter(prev: Value, reply: Reply): (r: Value)
    ensures reply.Replied? && reply.json.Some? && !Nullish(reply.json.value) ==>
      Get(reply.json.value, "predicted_avg_temp") == Normal(r)
    ensures !(reply.Replied? && reply.json.Some? && !Nullish(reply.json.value)) ==> r == prev
  {
    match reply
    case Unreachable => prev
    case Replied(_, json) =>
      match json
      case None => prev
      case Some(body) =>
        match Get(body, "predicted_avg_temp")
        case Threw => prev
        case Normal(v) => v
  }

  /** The status of the prediction response is never consulted. */
  lemma PredictionIgnoresStatus(prev: Value, json: Option<Value>)
    ensures PredictionAfter(prev, Replied(true, json)) == PredictionAfter(prev, Replied(false, json))
  {
  }

  /** A JSON object without the key (such as an `{"error": …}` body) sets `prediction` to
      undefined, whatever it was before. */
  lemma PredictionUndefinedWithoutKey(prev: Value, ok: bool, fields: map<string, Value>)
    requires "predicted_avg_temp" !in fields
    ensures PredictionAfter(prev, Replied(ok, Some(Obj(fields)))) == Undefined
  {
  }

  /** What `chartData` becomes after `loadChart` awaited `reply`, for the year the click saw:
      replaced only on an ok response whose JSON is an object-like value. */
  function ChartAfter(prev: Option<ChartData>, reply: Reply, year: string): (r: Option<ChartData>)
    ensures r != prev ==> reply.Replied? && reply.ok && reply.json.Some? && !Nullish(reply.json.value)
    ensures reply.Replied? && reply.ok && reply.json.Some? && !Nullish(reply.json.value) ==>
      && r.Some?
      && r.value.labels == MonthLabels
      && r.value.datasetLabel == "Predicted Temperature " + year
      && Get(reply.json.value, "predictions") == Normal(r.value.data)
  {
    match reply
    case Unreachable => prev
    case Replied(ok, json) =>
      match json
      case None => prev
      case Some(body) =>
        if Nullish(body) then prev      // `json.predictions` throws before `setChartData`
        else if !ok then prev
        else Some(ChartData(MonthLabels, "Predicted Temperature " + year, GetOpt(body, "predictions")))
  }

  /** The predictions are passed to the chart as they came: any array, of any length. */
  lemma ChartDataUnchecked(prev: Option<ChartData>, predictions: seq<Value>, year: string)
    ensures
      var r := ChartAfter(prev, Replied(true, Some(Obj(map["predictions" := Arr(predictions)]))), year);
      r.Some? && r.value.data == Arr(predictions) && |r.value.labels| == 12
  {
  }

  /** The prediction panel: hidden for null, shown for a number; any other value (undefined
      after a body without the key, say) makes `prediction.toFixed(2)` throw during render. */
  function PredictionPanel(prediction: Value): (r: Completion<bool>)
    ensures r == Normal(false) <==> prediction == Null
    ensures r == Normal(true) <==> prediction.Num?
  {
    match prediction
    case Null => Normal(false)
    case Num(_) => Normal(true)
    case _ => Threw
  }

  class Home {
    var year: string
    var month: string
    var prediction: Value
    var chartData: Option<ChartData>
    var loading: bool

    constructor ()
      ensures year == "" && month == "" && prediction == Null && chartData == None && !loading
    {
      year := "";
      month := "";
      prediction := Null;
      chartData := None;
      loading := false;
    }

    /** The submit button is disabled while loading; whenever it is, so is the chart button. */
    predicate SubmitDisabled()
      reads this
      ensures SubmitDisabled() ==> ChartDisabled()
    {
      loading
    }

    /** The chart button is disabled while loading or while the year is empty (`!year`). */
    predicate ChartDisabled()
      reads this
      ensures ChartDisabled() <==> loading || year == ""
    {
      loading || !Truthy(Str(year))
    }

    method SetYear(v: string)
      modifies this
      ensures year == v
      ensures month == old(month) && prediction == old(prediction) && chartData == old(chartData)
      ensures loading == old(loading)
    {
      year := v;
    }

    method SetMonth(v: string)
      modifies this
      ensures month == v
      ensures year == old(year) && prediction == old(prediction) && chartData == old(chartData)
      ensures loading == old(loading)
    {
      month := v;
    }

    /** `handleSubmit` up to the await: loading is set and the point request is sent. */
    method StartSubmit() returns (req: Outbound)
      modifies this
      ensures req == Outbound(PredictUrl, "POST", JsonContentType, Some(PointRequestBody(year, month)))
      ensures loading
      ensures SubmitDisabled() && ChartDisabled()
      ensures year == old(year) && month == old(month) && prediction == old(prediction)
      ensures chartData == old(chartData)
    {
      loading := true;
      assert SubmitDisabled() && ChartDisabled();
      req := Outbound(PredictUrl, "POST", JsonContentType, Some(PointRequestBody(year, month)));
    }

    /** `handleSubmit` after the await: the try block, the empty catch and the finally. */
    method CompleteSubmit(reply: Reply)
      modifies this
      ensures prediction == PredictionAfter(old(prediction), reply)
      ensures !loading
      ensures year == old(year) && month == old(month) && chartData == old(chartData)
    {
      match reply {
        case Unreachable =>
        case Replied(_, json) =>
          if json.Some? {
            var p := Get(json.value, "predicted_avg_temp");
            if p.Normal? {
              prediction := p.value;
            }
          }
      }
      loading := false;
    }

    /** `loadChart` up to the await: loading is set, the year request is sent, and the year the
        closure will use for the label is the one the click saw. */
    method StartLoadChart() returns (req: Outbound, captured: string)
      modifies this
      ensures req == Outbound(PredictYearUrl, "POST", JsonContentType, Some(YearRequestBody(year)))
      ensures captured == year
      ensures loading
      ensures SubmitDisabled() && ChartDisabled()
      ensures year == old(year) && month == old(month) && prediction == old(prediction)
      ensures chartData == old(chartData)
    {
      loading := true;
      assert SubmitDisabled() && ChartDisabled();
      req := Outbound(PredictYearUrl, "POST", JsonContentType, Some(YearRequestBody(year)));
      captured := year;
    }

    /** `loadChart` after the await. */
    method CompleteLoadChart(reply: Reply, captured: string)
      modifies this
      ensures chartData == ChartAfter(old(chartData), reply, captured)
      ensures !loading
      ensures year == old(year) && month == old(month) && prediction == old(prediction)
    {
      if reply.Replied? && reply.json.Some? {
        var json := reply.json.value;
        var predictions := Get(json, "predictions");
        if predictions.Normal? && reply.ok {
          chartData := Some(ChartData(MonthLabels, "Predicted Temperature " + captured, predictions.value));
        }
      }
      loading := false;
    }
  }

  /** A submission, whatever its outcome, leaves the page not loading and the submit button
      enabled again (during the flight `StartSubmit` has disabled both buttons). */
  method SubmitRound(home: Home, reply: Reply) returns (req: Outbound)
    modifies home
    ensures home.prediction == PredictionAfter(old(home.prediction), reply)
    ensures !home.loading && !home.SubmitDisabled()
    ensures home.chartData == old(home.chartData)
  {
    req := home.StartSubmit();
    home.CompleteSubmit(reply);
  }
}
