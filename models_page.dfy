/** frontend/pages/models.js: the model inventory. The gate and the render-time arithmetic are
    pure; `loadModels` sets `models`, `error` and `loading` once, around one `fetch`. */
module ModelsPage {
  import opened JsValues
  import opened Http
  import JsNumbers
  import Sessions

  /** `getServerSideProps`: the same gate as the home page. */
  function GetServerSideProps(session: Option<Sessions.Session>): (r: Sessions.ServerSideProps)
    ensures session.None? ==> r == Sessions.Redirect("/api/auth/signin", false)
    ensures session.Some? ==> r == Sessions.SessionProps(session.value)
  {
    Sessions.RequireSession(session, Sessions.ApiSignInPath)
  }

  const DefaultLoadError := "Failed to load models"
  const ConnectError := "Failed to connect to models API"

  /** A model entry the card can render: an object-like value whose `files` is an array. */
  predicate WellShaped(m: Value) {
    !Nullish(m) && Get(m, "files").Normal? && Get(m, "files").value.Arr?
  }

  /** A value React accepts as a child in JSX: a plain object is refused ("Objects are not
      valid as a React child"), and so is an array that holds one, at any depth. */
  predicate ReactChild(v: Value)
    decreases v
  {
    match v
    case Obj(_) => false
    case Arr(items) => forall i :: 0 <= i < |items| ==> ReactChild(items[i])
    case _ => true
  }

  /** The card of a well-shaped entry renders: `{model.name}` and each `{file}` are valid
      children. */
  predicate CardRenders(m: Value)
    requires WellShaped(m)
  {
    ReactChild(Get(m, "name").value) && ReactChild(Get(m, "files").value)
  }

  /** The entries of a list whose cards all render. */
  predicate ListRenders(ms: seq<Value>) {
    forall i :: 0 <= i < |ms| ==> WellShaped(ms[i]) && CardRenders(ms[i])
  }

  function FileCount(m: Value): nat
    requires WellShaped(m)
  {
    |Get(m, "files").value.items|
  }

  /** `models.reduce((acc, model) => acc + model.files.length, 0)` over well-shaped entries:
      a left fold, like `reduce`. */
  function FileTotal(ms: seq<Value>): (n: nat)
    requires forall i :: 0 <= i < |ms| ==> WellShaped(ms[i])
    // no model's files are dropped from the total
    ensures forall i :: 0 <= i < |ms| ==> FileCount(ms[i]) <= n
  {
    if ms == [] then 0
    else
      var init := ms[..|ms| - 1];
      assert forall i :: 0 <= i < |init| ==> init[i] == ms[i];
      FileTotal(init) + FileCount(ms[|ms| - 1])
  }

  /** The total is additive over the list: each model's files are counted once. */
  lemma {:induction false} FileTotalAppend(a: seq<Value>, b: seq<Value>)
    requires forall i :: 0 <= i < |a| ==> WellShaped(a[i])
    requires forall i :: 0 <= i < |b| ==> WellShaped(b[i])
    ensures forall i :: 0 <= i < |a + b| ==> WellShaped((a + b)[i])
    ensures FileTotal(a + b) == FileTotal(a) + FileTotal(b)
    decreases |b|
  {
    assert forall i :: 0 <= i < |a + b| ==> WellShaped((a + b)[i]) by {
      forall i | 0 <= i < |a + b| ensures WellShaped((a + b)[i]) {
        if i < |a| { assert (a + b)[i] == a[i]; } else { assert (a + b)[i] == b[i - |a|]; }
      }
    }
    if b == [] {
      assert a + b == a;
    } else {
      var b' := b[..|b| - 1];
      FileTotalAppend(a, b');
      assert (a + b)[..|a + b| - 1] == a + b';
      assert (a + b)[|a + b| - 1] == b[|b| - 1];
    }
  }

  /** A model with no files adds nothing; the total is zero exactly when no model has a file. */
  lemma {:induction false} FileTotalZero(ms: seq<Value>)
    requires forall i :: 0 <= i < |ms| ==> WellShaped(ms[i])
    ensures FileTotal(ms) == 0 <==> forall i :: 0 <= i < |ms| ==> FileCount(ms[i]) == 0
  {
    if ms != [] {
      var init := ms[..|ms| - 1];
      FileTotalZero(init);
      assert forall i :: 0 <= i < |init| ==> init[i] == ms[i];
    }
  }

  /** `{models?.length || 0}` */
  function ModelCount(models: Value): (r: Value)
    ensures models.Arr? ==> r == Num(|models.items| as real)
    ensures Nullish(models) ==> r == Num(0.0)
  {
    Or(GetOpt(models, "length"), Num(0.0))
  }

  /** `{n} file{n !== 1 ? 's' : ''}` on a card. */
  function FilesLabel(n: nat): (text: string)
    // the count's decimal digits, then " file", then an "s" exactly when the count is not one
    ensures var d := JsNumbers.ShowNat(n);
      && |text| >= |d| + 5
      && text[..|d|] == d
      && text[|d|..|d| + 5] == " file"
      && |text| == |d| + 5 + (if n != 1 then 1 else 0)
      && (n != 1 ==> text[|d| + 5] == 's')
    ensures |text| >= 6
  {
    JsNumbers.ShowNat(n) + " file" + (if n != 1 then "s" else "")
  }

  /** The plural ending is used exactly when the count is not one. */
  lemma FilesLabelPlural(n: nat)
    ensures FilesLabel(n)[|FilesLabel(n)| - 1] == 's' <==> n != 1
  {
    var digits := JsNumbers.ShowNat(n);
    if n == 1 {
      assert FilesLabel(n) == digits + " file";
    }
  }

  /** The label starts with the count itself: reading it back with `parseInt` gives `n`. */
  lemma FilesLabelCount(n: nat)
    ensures JsNumbers.ParseInt(FilesLabel(n)) == Some(n)
  {
    var rest := " file" + (if n != 1 then "s" else "");
    assert FilesLabel(n) == JsNumbers.ShowNat(n) + rest;
    JsNumbers.ParseIntShowNat(n, rest);
  }

  /** What the page renders. `Listing` holds the three stat figures and the cards of the grid
      (an empty grid is the "No Models Found" panel). */
  datatype ModelsView =
    | LoadingView
    | ErrorView(message: Value)
    | Listing(totalModels: Value, activeModels: Value, modelFiles: nat, cards: seq<Value>)

  /** The render: loading first, then a truthy error, then the listing. The listing throws when
      `models` is neither nullish nor an array (`models?.reduce` is not a function), when an
      entry has no `files` array (`model.files.length` or `model.files.map` throws), or when a
      card's name or one of its files is not a valid React child. */
  function Render(models: Value, loading: bool, error: Value): (r: Completion<ModelsView>)
    ensures loading ==> r == Normal(LoadingView)
    ensures !loading && Truthy(error) ==> r == Normal(ErrorView(error))
    ensures !loading && !Truthy(error) && Nullish(models) ==> r == Normal(Listing(Num(0.0), Num(0.0), 0, []))
    ensures r.Normal? && r.value.Listing? ==> !loading && !Truthy(error) && (Nullish(models) || models.Arr?)
    ensures r.Normal? && r.value.Listing? && models.Arr? ==>
      r.value.cards == models.items && r.value.totalModels == Num(|models.items| as real)
    // past loading and error, the page renders exactly for no list or a list whose cards render
    ensures !loading && !Truthy(error) ==>
      (r.Normal? <==> Nullish(models) || (models.Arr? && ListRenders(models.items)))
  {
    if loading then Normal(LoadingView)
    else if Truthy(error) then Normal(ErrorView(error))
    else
      match models
      case Undefined => Normal(Listing(Num(0.0), Num(0.0), 0, []))
      case Null => Normal(Listing(Num(0.0), Num(0.0), 0, []))
      case Arr(ms) =>
        if ListRenders(ms) then
          Normal(Listing(ModelCount(models), ModelCount(models), FileTotal(ms), ms))
        else Threw
      case _ => Threw
  }

  /** An empty list renders the "No Models Found" panel with zero counts, not the error view. */
  lemma EmptyListNoModels()
    ensures Render(Arr([]), false, Null) == Normal(Listing(Num(0.0), Num(0.0), 0, []))
  {
  }

  /** The files stat is the sum over the listed models. */
  lemma ListingFileTotal(ms: seq<Value>)
    requires ListRenders(ms)
    ensures forall i :: 0 <= i < |ms| ==> WellShaped(ms[i])
    ensures Render(Arr(ms), false, Null) == Normal(Listing(Num(|ms| as real), Num(|ms| as real), FileTotal(ms), ms))
  {
  }

  /** A card whose name is an object, or whose files hold one, makes the whole page throw. */
  lemma ObjectChildThrows(ms: seq<Value>, i: nat)
    requires i < |ms| && WellShaped(ms[i])
    requires Get(ms[i], "name").value.Obj? || exists j :: 0 <= j < |Get(ms[i], "files").value.items| && Get(ms[i], "files").value.items[j].Obj?
    ensures Render(Arr(ms), false, Null) == Threw
  {
    var files := Get(ms[i], "files").value;
    if !Get(ms[i], "name").value.Obj? {
      var j :| 0 <= j < |files.items| && files.items[j].Obj?;
      assert !ReactChild(files.items[j]);
    }
    assert !CardRenders(ms[i]);
  }

  /** What `setError` receives on a non-ok response with JSON body `data`. */
  function LoadError(data: Value): (e: Value)
    requires !Nullish(data)
    ensures Truthy(e)
    ensures Truthy(Get(data, "error").value) ==> e == Get(data, "error").value
    ensures !Truthy(Get(data, "error").value) ==> e == Str(DefaultLoadError)
  {
    Or(Get(data, "error").value, Str(DefaultLoadError))
  }

  class Models {
    var models: Value
    var loading: bool
    var error: Value

    constructor ()
      ensures models == Null && loading && error == Null
    {
      models := Null;
      loading := true;
      error := Null;
    }

    /** `loadModels` after its fetch settled: the try block, the catch and the finally. */
    method LoadModels(reply: Reply)
      modifies this
      ensures !loading
      ensures reply.Replied? && reply.ok && reply.json.Some? && !Nullish(reply.json.value) ==>
        Get(reply.json.value, "models") == Normal(models) && error == old(error)
      ensures reply.Replied? && !reply.ok && reply.json.Some? && !Nullish(reply.json.value) ==>
        error == LoadError(reply.json.value) && models == old(models)
      ensures !(reply.Replied? && reply.json.Some? && !Nullish(reply.json.value)) ==>
        error == Str(ConnectError) && models == old(models)
    {
      if reply.Unreachable? || reply.json.None? {
        error := Str(ConnectError);              // fetch or res.json() rejected
      } else {
        var data := reply.json.value;
        if reply.ok {
          var m := Get(data, "models");
          if m.Threw? {
            error := Str(ConnectError);          // data.models on null
          } else {
            models := m.value;
          }
        } else {
          var e := Get(data, "error");
          if e.Threw? {
            error := Str(ConnectError);          // data.error on null
          } else {
            error := Or(e.value, Str(DefaultLoadError));
          }
        }
      }
      loading := false;
    }
  }

  /** After any failed load the page shows an error, never the listing. */
  method FailedLoadShowsError(reply: Reply) returns (page: Models)
    requires !(reply.Replied? && reply.ok && reply.json.Some? && !Nullish(reply.json.value))
    ensures Render(page.models, page.loading, page.error).Normal?
    ensures Render(page.models, page.loading, page.error).value.ErrorView?
  {
    page := new Models();
    page.LoadModels(reply);
  }
}
