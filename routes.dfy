/**
 * The four data routes of the API server: each runs one query against the
 * database and answers 200 with the rows, 404 when the detail lookup finds
 * nothing, or 500 with a generic message when the query fails.  The
 * database is a value: its three tables, and whether queries reach it.
 */
module Routes {
  import opened Common
  import opened Ordering
  import opened Store
  import opened SearchQuery

  datatype Database = Database(
    events: seq<Event>,
    categories: seq<Category>,
    organizations: seq<Organization>,
    reachable: bool)

  /** The JSON body of a response. */
  datatype Body =
    | EventList(events: seq<EventRecord>)
    | EventDetails(event: EventRecord)
    | CategoryList(categories: seq<Category>)
    | ErrorMessage(error: string)

  datatype Response = Response(status: int, body: Body)

  const NotFound: string := "Event not found"
  const InternalError: string := "Internal server error"

  /** The three tables joined as every event SELECT joins them. */
  function Joined(db: Database): seq<EventRecord>
  {
    Enrich(db.events, db.categories, db.organizations)
  }

  /** A failed query is answered 500 with the generic message, whatever the route. */
  function Failure(): (r: Response)
    ensures r.status == 500 && r.body.ErrorMessage? && r.body.error == InternalError
  {
    Response(500, ErrorMessage(InternalError))
  }

  /** `GET /api/events/home`, with the server's date as `today`. */
  function HomeRoute(db: Database, today: string): (r: Response)
    ensures r.status == 200 || r.status == 500
    ensures r.status == 200 <==> db.reachable
    ensures r.status == 500 ==> r == Failure()
    ensures r.status == 200 ==> r.body.EventList? && OrderedSelection(r.body.events, Joined(db), HomeCondition(today), DateOf)
  {
    if !db.reachable then Failure()
    else Response(200, EventList(HomeEvents(Joined(db), today)))
  }

  /** `GET /api/events/search`: the handler's query and parameters, run against the database. */
  function SearchRoute(db: Database, date: Option<string>, location: Option<string>, category: Option<string>): (r: Response)
    ensures r.status == 200 || r.status == 500
    ensures r.status == 500 ==> r == Failure()
    ensures !db.reachable ==> r == Failure()
  {
    if !db.reachable then Failure()
    else
      match ExecuteSearch(Joined(db), BuildSearch(date, location, category))
      case Err(_) => Failure()
      case Ok(rows) => Response(200, EventList(rows))
  }

  /** `GET /api/events/:id`: 404 when no active event has the id, else the first row found. */
  function DetailRoute(db: Database, id: int): (r: Response)
    ensures r.status in {200, 404, 500}
    ensures r.status == 500 <==> !db.reachable
    ensures r.status == 500 ==> r == Failure()
    ensures r.status == 404 ==> r.body == ErrorMessage(NotFound)
  {
    if !db.reachable then Failure()
    else
      var rows := DetailRows(Joined(db), id);
      if |rows| == 0 then Response(404, ErrorMessage(NotFound))
      else Response(200, EventDetails(rows[0]))
  }

  /** `GET /api/categories`: every category, ordered by name. */
  function CategoriesRoute(db: Database): (r: Response)
    ensures r.status == 200 <==> db.reachable
    ensures r.status == 200 ==> r.body.CategoryList? && multiset(r.body.categories) == multiset(db.categories) && SortedBy(r.body.categories, NameOf)
    ensures r.status != 200 ==> r == Failure()
  {
    if !db.reachable then Failure()
    else Response(200, CategoryList(CategoriesByName(db.categories)))
  }

  /**
   * A reachable database always answers a search with 200 and exactly the
   * active events meeting every supplied filter, ascending by date: the
   * query the handler builds is never malformed nor short of parameters.
   */
  lemma SearchRouteAnswers(db: Database, date: Option<string>, location: Option<string>, category: Option<string>)
    requires db.reachable
    ensures SearchRoute(db, date, location, category) == Response(200, EventList(Select(Joined(db), SearchCondition(date, location, category), DateOf)))
  {
    SearchQueryMeaning(Joined(db), date, location, category);
  }

  /** A search is answered 200 exactly when the database answers, and 500 with the generic error otherwise. */
  lemma SearchRouteStatus(db: Database, date: Option<string>, location: Option<string>, category: Option<string>)
    ensures SearchRoute(db, date, location, category).status == 200 <==> db.reachable
    ensures !db.reachable ==> SearchRoute(db, date, location, category) == Failure()
  {
    if db.reachable {
      SearchRouteAnswers(db, date, location, category);
    }
  }

  /** Status 404 exactly when the database answers and no active event carries the id. */
  lemma DetailNotFound(db: Database, id: int)
    ensures DetailRoute(db, id).status == 404 <==>
      db.reachable && forall e :: e in db.events ==> !(e.id == id && e.isActive)
  {
    if db.reachable {
      var rows := DetailRows(Joined(db), id);
      if |rows| == 0 {
        forall e | e in db.events ensures !(e.id == id && e.isActive) {
          var k :| 0 <= k < |db.events| && db.events[k] == e;
          assert Joined(db)[k].event == e;
        }
      } else {
        assert rows[0] in rows;
        var k :| 0 <= k < |Joined(db)| && Joined(db)[k] == rows[0];
        assert db.events[k] in db.events;
      }
    }
  }

  /** A 200 detail answer is an active event with the requested id, joined with its names. */
  lemma DetailFound(db: Database, id: int)
    requires DetailRoute(db, id).status == 200
    ensures DetailRoute(db, id).body.EventDetails?
    ensures var x := DetailRoute(db, id).body.event;
      x in Joined(db) && x.event.id == id && x.event.isActive && x.event in db.events
  {
    var rows := DetailRows(Joined(db), id);
    assert rows[0] in rows;
    var k :| 0 <= k < |Joined(db)| && Joined(db)[k] == rows[0];
    assert Joined(db)[k].event == db.events[k];
  }

  /** With primary-key ids the row returned is the only one the SELECT found, so nothing is dropped. */
  lemma DetailUnique(db: Database, id: int)
    requires forall i, j :: 0 <= i < j < |db.events| ==> db.events[i].id != db.events[j].id
    requires DetailRoute(db, id).status == 200
    ensures DetailRows(Joined(db), id) == [DetailRoute(db, id).body.event]
  {
    var records := Joined(db);
    forall i, j | 0 <= i < j < |records| ensures records[i].event.id != records[j].event.id {
      assert records[i].event == db.events[i] && records[j].event == db.events[j];
    }
    DetailAtMostOneRow(records, id);
  }
}
