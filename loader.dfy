/** The data hook of src/hooks/useEvents.ts: it loads the platform list and the event list
    together and exposes them with a loading flag and an error message. The two backend
    queries are inputs here: each is either a failed query or a successful one whose data
    may be null. */
module EventsLoader {
  import opened EventTypes
  import opened RecordMapper

  datatype Query<T> = QueryFailed | QueryOk(data: Option<T>)

  /** Why `fetchEvents` throws: the query reported an error, or a row could not be mapped. */
  datatype LoadError = QueryError | MappingError(cause: MapError)

  const LOAD_ERROR: string := "Failed to load events. Please try again."

  /** `fetchPlatforms`: never fails; a failed query and null data both give the empty list. */
  function FetchPlatforms(q: Query<seq<Platform>>): (r: seq<Platform>)
    ensures r != [] ==> q.QueryOk? && q.data == Some(r)
    ensures q.QueryOk? && q.data.Some? ==> r == q.data.value
  {
    match q
    case QueryFailed => []
    case QueryOk(data) => if data.Some? then data.value else []
  }

  /** `fetchEvents`: fails on a query error and on any row without its platform; null data
      is an empty list. */
  function FetchEvents(q: Query<seq<RawRow>>): (r: Result<seq<Event>, LoadError>)
    ensures r.Ok? <==> q.QueryOk? && (q.data.None? || forall i :: 0 <= i < |q.data.value| ==> q.data.value[i].platform.Some?)
    ensures q.QueryFailed? ==> r == Err(QueryError)
    ensures r.Ok? ==> |r.value| == (if q.data.None? then 0 else |q.data.value|)
    ensures r.Ok? && q.data.Some? ==> forall i :: 0 <= i < |r.value| ==> MapRow(q.data.value[i]) == Ok(r.value[i])
  {
    match q
    case QueryFailed => Err(QueryError)
    case QueryOk(data) =>
      match MapData(data)
      case Ok(es) => Ok(es)
      case Err(e) => Err(MappingError(e))
  }

  /** The hook's four state cells. */
  class Loader {
    var events: seq<Event>
    var platforms: seq<Platform>
    var isLoading: bool
    var error: Option<string>

    /** The initial render: empty lists, loading, no error. */
    constructor ()
      ensures events == [] && platforms == [] && isLoading && error == None
    {
      events, platforms, isLoading, error := [], [], true, None;
    }

    /** The start of `loadData`. */
    method BeginLoad()
      modifies this
      ensures isLoading && error == None
      ensures events == old(events) && platforms == old(platforms)
    {
      isLoading := true;
      error := None;
    }

    /** The end of `loadData`, once both fetches have settled. When the events fetch
        succeeds both lists are replaced; otherwise `Promise.all` rejects before either
        setter runs, so both lists stay as they were and the fixed message is shown.
        Loading ends either way. The platform fetch cannot make the load fail. */
    method FinishLoad(platformQuery: Query<seq<Platform>>, eventQuery: Query<seq<RawRow>>)
      modifies this
      ensures !isLoading
      ensures FetchEvents(eventQuery).Ok? ==>
        events == FetchEvents(eventQuery).value && platforms == FetchPlatforms(platformQuery)
      ensures FetchEvents(eventQuery).Err? ==>
        events == old(events) && platforms == old(platforms) && error == Some(LOAD_ERROR)
      ensures FetchEvents(eventQuery).Ok? ==> error == old(error)
    {
      var ps := FetchPlatforms(platformQuery);
      var es := FetchEvents(eventQuery);
      if es.Ok? {
        platforms := ps;
        events := es.value;
      } else {
        error := Some(LOAD_ERROR);
      }
      isLoading := false;
    }

    /** `loadData` (also the hook's `refetch`). */
    method LoadData(platformQuery: Query<seq<Platform>>, eventQuery: Query<seq<RawRow>>)
      modifies this
      ensures !isLoading
      ensures FetchEvents(eventQuery).Ok? ==>
        events == FetchEvents(eventQuery).value && platforms == FetchPlatforms(platformQuery) && error == None
      ensures FetchEvents(eventQuery).Err? ==>
        events == old(events) && platforms == old(platforms) && error == Some(LOAD_ERROR)
    {
      BeginLoad();
      FinishLoad(platformQuery, eventQuery);
    }
  }
}
