/**
 * How the browser receives an API response: a 2xx answer yields its JSON
 * body, and any other status (or a failed request) is rethrown as one fixed
 * message, whatever the server said.
 */
module Client {
  import opened Common
  import opened Store
  import opened Routes

  const FetchFailed: string := "Failed to fetch data from server. Please check if the API server is running."

  /** What `makeApiRequest` yields for a route's response: the body on a 2xx status (`response.ok`), else the fixed error. */
  function Receive(resp: Response): (r: Result<Body>)
    ensures r.Ok? <==> 200 <= resp.status < 300
    ensures r.Ok? ==> r.value == resp.body
    ensures r.Err? ==> r.message == FetchFailed
  {
    if 200 <= resp.status < 300 then Ok(resp.body) else Err(FetchFailed)
  }

  /** The event list a search or home request yields. */
  function ReceiveEvents(resp: Response): (r: Result<seq<EventRecord>>)
    ensures r.Ok? <==> 200 <= resp.status < 300 && resp.body.EventList?
    ensures r.Ok? ==> r.value == resp.body.events
    ensures r.Err? ==> r.message == FetchFailed
  {
    match Receive(resp)
    case Ok(EventList(events)) => Ok(events)
    case _ => Err(FetchFailed)
  }

  /** The single event a details request yields. */
  function ReceiveEvent(resp: Response): (r: Result<EventRecord>)
    ensures r.Ok? <==> 200 <= resp.status < 300 && resp.body.EventDetails?
    ensures r.Ok? ==> r.value == resp.body.event
    ensures r.Err? ==> r.message == FetchFailed
  {
    match Receive(resp)
    case Ok(EventDetails(event)) => Ok(event)
    case _ => Err(FetchFailed)
  }

  /** The category list a categories request yields. */
  function ReceiveCategories(resp: Response): (r: Result<seq<Category>>)
    ensures r.Ok? <==> 200 <= resp.status < 300 && resp.body.CategoryList?
    ensures r.Ok? ==> r.value == resp.body.categories
    ensures r.Err? ==> r.message == FetchFailed
  {
    match Receive(resp)
    case Ok(CategoryList(categories)) => Ok(categories)
    case _ => Err(FetchFailed)
  }

  /** A missing event (404) reaches the browser as the same fixed error as a server failure (500). */
  lemma NotFoundLooksLikeFailure(db: Database, id: int)
    requires DetailRoute(db, id).status != 200
    ensures ReceiveEvent(DetailRoute(db, id)) == Err(FetchFailed)
  {
  }

  /** A 200 detail answer reaches the browser as the active event with the requested id. */
  lemma DetailsReachBrowser(db: Database, id: int)
    requires DetailRoute(db, id).status == 200
    ensures ReceiveEvent(DetailRoute(db, id)).Ok?
    ensures var x := ReceiveEvent(DetailRoute(db, id)).value; x.event.id == id && x.event.isActive && x.event in db.events
  {
    DetailFound(db, id);
  }
}
