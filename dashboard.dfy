/** frontend/pages/dashboard.js: the global temperature chart. The effect fetches the records,
    keeps the GLOBAL station's and projects them onto two index-aligned series; the only state
    change is the one `setChartData`. The page exports no session gate. */
module Dashboard {
  import opened JsValues
  import opened Http

  /** `r.station_id === 'GLOBAL'` for a record that is not null or undefined: only an object
      whose own `station_id` is the string "GLOBAL" passes. */
  predicate IsGlobal(r: Value)
    requires !Nullish(r)
    ensures IsGlobal(r) <==> r.Obj? && "station_id" in r.fields && r.fields["station_id"] == Str("GLOBAL")
  {
    Get(r, "station_id") == Normal(Str("GLOBAL"))
  }

  /** `rows.filter(r => r.station_id === 'GLOBAL')`: the callback throws on a null or undefined
      record, which throws out of the filter. */
  function KeepGlobal(rows: seq<Value>): (r: Completion<seq<Value>>)
    ensures r.Normal? ==> forall i :: 0 <= i < |r.value| ==> !Nullish(r.value[i]) && IsGlobal(r.value[i])
    ensures r.Normal? ==> |r.value| <= |rows|
  {
    if rows == [] then Normal([])
    else if Nullish(rows[0]) then Threw
    else
      match KeepGlobal(rows[1..])
      case Threw => Threw
      case Normal(kept) => Normal(if IsGlobal(rows[0]) then [rows[0]] + kept else kept)
  }

  /** The filter throws exactly when some record is null or undefined. */
  lemma {:induction false} KeepGlobalThrows(rows: seq<Value>)
    ensures KeepGlobal(rows).Threw? <==> exists i :: 0 <= i < |rows| && Nullish(rows[i])
  {
    if rows != [] {
      KeepGlobalThrows(rows[1..]);
      if exists i :: 0 <= i < |rows[1..]| && Nullish(rows[1..][i]) {
        var i :| 0 <= i < |rows[1..]| && Nullish(rows[1..][i]);
        assert Nullish(rows[i + 1]);
      }
      if exists i :: 0 <= i < |rows| && Nullish(rows[i]) {
        var i :| 0 <= i < |rows| && Nullish(rows[i]);
        if i > 0 { assert Nullish(rows[1..][i - 1]); }
      }
    }
  }

  /** A record is kept exactly when it is among the input and belongs to the GLOBAL station. */
  lemma {:induction false} KeepGlobalMembers(rows: seq<Value>, x: Value)
    requires KeepGlobal(rows).Normal?
    ensures x in KeepGlobal(rows).value <==> x in rows && !Nullish(x) && IsGlobal(x)
  {
    if rows != [] {
      KeepGlobalMembers(rows[1..], x);
      assert rows == [rows[0]] + rows[1..];
    }
  }

  /** The filter keeps the input order: it distributes over concatenation. */
  lemma {:induction false} KeepGlobalAppend(a: seq<Value>, b: seq<Value>)
    requires KeepGlobal(a).Normal? && KeepGlobal(b).Normal?
    ensures KeepGlobal(a + b) == Normal(KeepGlobal(a).value + KeepGlobal(b).value)
  {
    if a == [] {
      assert a + b == b;
      assert KeepGlobal(a) == Normal([]);
      assert [] + KeepGlobal(b).value == KeepGlobal(b).value;
    } else {
      assert (a + b)[0] == a[0];
      assert (a + b)[1..] == a[1..] + b;
      assert !Nullish(a[0]) && KeepGlobal(a[1..]).Normal?;
      KeepGlobalAppend(a[1..], b);
      var rest := KeepGlobal(a[1..]).value;
      if IsGlobal(a[0]) {
        assert KeepGlobal(a).value == [a[0]] + rest;
        assert [a[0]] + rest + KeepGlobal(b).value == [a[0]] + (rest + KeepGlobal(b).value);
      }
    }
  }

  /** Nothing is dropped or merged when every record is GLOBAL: there is no deduplication. */
  lemma {:induction false} KeepGlobalAllGlobal(rows: seq<Value>)
    requires forall i :: 0 <= i < |rows| ==> !Nullish(rows[i]) && IsGlobal(rows[i])
    ensures KeepGlobal(rows) == Normal(rows)
  {
    if rows != [] {
      KeepGlobalAllGlobal(rows[1..]);
      assert rows == [rows[0]] + rows[1..];
    }
  }

  /** The chart's series: one label (`new Date(r.timestamp)`, kept as the timestamp value; the
      Date conversion is not modelled) and one value (`r.temperature`) per kept record. */
  datatype Series = Series(labels: seq<Value>, values: seq<Value>)

  /** `labels`/`values` from the raw JSON. `raw.filter` is only a function on an array. */
  function Project(raw: Value): (r: Completion<Series>)
    ensures r.Normal? ==> raw.Arr? && KeepGlobal(raw.items).Normal?
    ensures raw.Arr? && KeepGlobal(raw.items).Normal? ==>
      var kept := KeepGlobal(raw.items).value;
      && r.Normal?
      && |r.value.labels| == |kept| && |r.value.values| == |kept|
      && forall i :: 0 <= i < |kept| ==>
           Get(kept[i], "timestamp") == Normal(r.value.labels[i])
           && Get(kept[i], "temperature") == Normal(r.value.values[i])
  {
    match raw
    case Arr(items) =>
      (match KeepGlobal(items)
       case Threw => Threw
       case Normal(kept) =>
         Normal(Series(seq(|kept|, i requires 0 <= i < |kept| => GetOpt(kept[i], "timestamp")),
                       seq(|kept|, i requires 0 <= i < |kept| => GetOpt(kept[i], "temperature")))))
    case _ => Threw
  }

  const DatasetPath := "/datasets/global_temp.json"

  class GlobalTempChart {
    var chartData: Option<Series>

    constructor ()
      ensures chartData == None
    {
      chartData := None;
    }

    /** `if (!chartData) return <p>Loading chart…</p>` */
    predicate ShowsLoading()
      reads this
    {
      chartData.None?
    }

    /** The effect's promise chain after the fetch of the dataset settled with `reply`: the status
        is not looked at, and any rejection (transport, parse, a non-array, a null record) lands
        in the catch with the state untouched. */
    method OnLoad(reply: Reply)
      modifies this
      ensures ShowsLoading() <==> old(ShowsLoading()) && !(reply.Replied? && reply.json.Some? && Project(reply.json.value).Normal?)
      ensures reply.Replied? && reply.json.Some? && Project(reply.json.value).Normal? ==>
        chartData == Some(Project(reply.json.value).value)
      ensures !(reply.Replied? && reply.json.Some? && Project(reply.json.value).Normal?) ==>
        chartData == old(chartData)
    {
      if reply.Replied? && reply.json.Some? {
        var series := Project(reply.json.value);
        if series.Normal? {
          chartData := Some(series.value);
        }
      }
    }
  }

  /** A failed load leaves a fresh chart on its loading text. */
  method FailedLoadKeepsLoading(reply: Reply) returns (chart: GlobalTempChart)
    requires !(reply.Replied? && reply.json.Some? && Project(reply.json.value).Normal?)
    ensures chart.ShowsLoading()
  {
    chart := new GlobalTempChart();
    chart.OnLoad(reply);
  }
}
