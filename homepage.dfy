/** The dashboard (app/page.tsx): the filters, the list of scrims and the
    loading/error bookkeeping of the request that fetches them. */
module HomePage {
  import opened Types
  import opened AuthContext
  import RouteGuard

  /** The optional filters, in declaration order. */
  datatype ScrimFilters = ScrimFilters(
    juego: Option<string>,
    region: Option<string>,
    rangoMin: Option<string>,
    formato: Option<string>)

  /** `Object.values(filters)`. */
  function FilterValues(f: ScrimFilters): (r: seq<Option<string>>) {
    [f.juego, f.region, f.rangoMin, f.formato]
  }

  /** `values.some(val => val)`, scanning from the front: it holds exactly
      when one of the values is truthy. */
  predicate SomeTruthy(values: seq<Option<string>>)
    ensures SomeTruthy(values) <==> exists i :: 0 <= i < |values| && Truthy(values[i])
  {
    if values == [] then false
    else
      assert forall i :: 1 <= i < |values| ==> values[1..][i - 1] == values[i];
      Truthy(values[0]) || SomeTruthy(values[1..])
  }

  /** The `params` of the request: the filters when at least one of them is
      set to a non-empty value, none otherwise. */
  function RequestParams(f: ScrimFilters): (p: Option<ScrimFilters>)
    ensures p.Some? <==> Truthy(f.juego) || Truthy(f.region) || Truthy(f.rangoMin) || Truthy(f.formato)
    ensures p.Some? ==> p.value == f
  {
    var values := FilterValues(f);
    assert values[0] == f.juego && values[1] == f.region && values[2] == f.rangoMin && values[3] == f.formato;
    if SomeTruthy(values) then Some(f) else None
  }

  /** `GET /scrims` with its params. */
  datatype ScrimsRequest = ScrimsRequest(params: Option<ScrimFilters>)

  const LoadErrorMessage: string := "No se pudieron cargar los scrims."

  /** What the page renders. */
  datatype HomeView = WaitingView | DashboardView(scrims: seq<Scrim>, loading: bool, error: Option<string>)

  class HomePageState {
    var filters: ScrimFilters
    var scrims: seq<Scrim>
    var loading: bool
    var error: Option<string>

    constructor ()
      ensures filters == ScrimFilters(None, None, None, None)
      ensures scrims == [] && loading && error.None?
    {
      filters := ScrimFilters(None, None, None, None);
      scrims, loading, error := [], true, None;
    }

    /** The fetch effect, up to the request: nothing happens while signed out;
        otherwise loading starts, the error is cleared and the request goes out. */
    method StartFetch(auth: AuthView) returns (request: Option<ScrimsRequest>)
      modifies this`loading, this`error
      ensures request.Some? <==> auth.isAuthenticated
      ensures request.Some? ==> request.value.params == RequestParams(filters) && loading && error.None?
      ensures request.None? ==> loading == old(loading) && error == old(error)
    {
      if !auth.isAuthenticated {
        return None;
      }
      loading := true;
      error := None;
      request := Some(ScrimsRequest(RequestParams(filters)));
    }

    /** The fetch effect, after the response: success replaces the list
        wholesale, failure sets the message and keeps the list; loading ends
        either way. */
    method FinishFetch(response: Response<seq<Scrim>>)
      modifies this`scrims, this`loading, this`error
      ensures !loading
      ensures response.Ok? ==> scrims == response.data && error == old(error)
      ensures response.Failed? ==> scrims == old(scrims) && error == Some(LoadErrorMessage)
    {
      match response {
        case Ok(data) => scrims := data;
        case Failed(_) => error := Some(LoadErrorMessage);
      }
      loading := false;
    }

    /** The render: the waiting view until the session is loaded and signed in. */
    function View(auth: AuthView): (v: HomeView)
      reads this
      ensures v.WaitingView? <==> RouteGuard.ShowsWaiting(auth)
      ensures v.DashboardView? ==> v.scrims == scrims && v.loading == loading && v.error == error
    {
      if RouteGuard.ShowsWaiting(auth) then WaitingView else DashboardView(scrims, loading, error)
    }
  }
}
