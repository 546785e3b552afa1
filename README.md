# Charity events: a verified model

The charity-events project is a small web application. An Express server
answers four data routes over a MySQL database of events, categories and
organizations: the home listing, a filtered search, one event's details, and
the category list. Browser scripts render event cards, run the search page
and show one event's details. This project models in Dafny the parts of it
that make decisions:

- **SQL text** (`sql_text.dfy`, module `SqlText`): the fixed text of the search
  query and a count of its `?` placeholders.
- **Search query builder** (`search_query.dfy`, module `SearchQuery`):
  - the search handler, both as the step-by-step method the server runs
    (`SearchHandler`) and as a pure function (`BuildSearch`);
  - a reader that recovers the typed filter conditions from a built text;
  - the meaning of a built query over an in-memory table.
- **Store** (`store.dfy`, module `Store`): the tables, the LEFT JOINs, MySQL
  `LIKE`, and what the home, search, detail and category SELECTs return.
- **Routes** (`routes.dfy`, module `Routes`): each route's status code and
  JSON body. The database is a value: three tables and a flag that says
  whether queries reach it.
- **Client** (`client.dfy`, module `Client`): how the browser turns a response
  into data or into the one fixed error message.
- **Progress** (`progress.dfy`, module `Progress`): `calculateProgress`, with
  the percentage computed exactly over integers.
- **Event views** (`event_views.dfy`, module `EventViews`): what an event card
  and the details page choose to show.
- **Search page** (`search_page.dfy`, class `SearchPage.SearchPage`): the form,
  the category drop-down, the results pane and the error banner.
- **Details page** (`details_page.dfy`, class `DetailsPage.EventDetailsPage`):
  the requested id, the request, and what the container shows.
- **Shared pieces** (`common.dfy`, `ordering.dfy`): `Option`/`Result`,
  JavaScript truthiness of nullable strings, and lexicographic string order.
  The ordering file also holds a filter and an insertion sort, and the
  "ordered selection" a `WHERE … ORDER BY` may return.

Conventions:

- Dates are ISO `YYYY-MM-DD` strings, so lexicographic order is date order.
- Money is a whole number of cents, in the tables and in the views. A
  percentage of two amounts does not depend on their unit.
- A nullable text is "truthy" when it is present and non-empty.
- The browser's asynchronous steps are split at their `await`. The first
  method shows the loading state and issues the request. A second method
  takes what the request yielded, as a `Result`.

## Model

| member | source | states |
|---|---|---|
| SearchQuery.SearchHandler | charity-events-project/api/server.js:40-80 | The handler's three guarded `query +=` / `params.push` steps and the final ORDER BY build exactly the text and parameter array of `BuildSearch`, which the lemmas below characterise |
| SearchQuery.BuildSearch | charity-events-project/api/server.js:44-72 | The pure builder: one parameter per truthy filter, carrying the date and category as given and the location as `%location%`, and as many `?` in the text as parameters |
| SearchQuery.ExecuteSearch | charity-events-project/api/server.js:74 | Running a query fails exactly when its text cannot be read or it has more `?` conditions than values (surplus values are ignored, as the driver fills placeholders in order); a successful run returns only active rows of the table, ascending by date |
| Common.Truthy | charity-events-project/api/server.js:55 | A nullable string is truthy exactly when it is neither null/undefined nor the empty string |
| Store.Like | charity-events-project/api/server.js:61-63 | MySQL `LIKE`: a pattern without `%` or `_` matches exactly the text equal to it, and a non-empty pattern of only `%` matches every text |
| Store.SearchMatches | charity-events-project/api/server.js:49-70 | A search match is always active; with no filter present it is exactly activity; a present wildcard-free location means the event's location contains it |
| SearchQuery.PlaceholdersMatchParams | charity-events-project/api/server.js:55-70 | The number of `?` in the built text always equals the number of parameters |
| SearchQuery.TextPlaceholders | charity-events-project/api/server.js:44-72 | The text has one `?` per present filter and none in the base or the ORDER BY |
| SearchQuery.ParamsCount | charity-events-project/api/server.js:55-70 | One parameter is pushed per truthy filter and none for a falsy or absent one |
| SearchQuery.ClauseHasOnePlaceholder | charity-events-project/api/server.js:56-68 | Each filter clause carries exactly one `?` |
| SqlText.BaseUnbound | charity-events-project/api/server.js:44-50 | The base SELECT carries no placeholder |
| SqlText.OrderByUnbound | charity-events-project/api/server.js:72 | The ORDER BY carries no placeholder |
| SearchQuery.SearchTextRoundTrip | charity-events-project/api/server.js:44-72 | Reading a built text back gives exactly the conditions of the present filters, in the fixed order date, location, category, with nothing else between the base and the ORDER BY |
| SearchQuery.ClausesRoundTrip | charity-events-project/api/server.js:55-70 | The clause section reads back as the present conditions in order |
| SearchQuery.ParseStep | charity-events-project/api/server.js:56-68 | A clause at the front of a text is read as its own condition and never mistaken for another clause |
| SearchQuery.ParamsFollowClauses | charity-events-project/api/server.js:55-70 | The i-th parameter is the value for the i-th clause of the text: the date and category unchanged, the location wrapped as `%location%` |
| SearchQuery.BoundConditionsMeanFilters | charity-events-project/api/server.js:44-74 | With the parameters bound, the conditions in the text hold of a row exactly when the row meets the route's filters |
| SearchQuery.SearchQueryMeaning | charity-events-project/api/server.js:40-80 | Running the built query returns the active rows meeting every supplied filter, ascending by date, and never a parse or argument-count error |
| SearchQuery.BaseAlwaysPresent | charity-events-project/api/server.js:44-50 | Whatever the filters, the text starts with the base SELECT, whose last line is the `e.is_active = TRUE` condition |
| SearchQuery.NoFiltersQuery | charity-events-project/api/server.js:52-72 | With no truthy filter the parameters are empty and the text is the base followed by the ORDER BY |
| SearchQuery.TextIgnoresValues | charity-events-project/api/server.js:56-68 | Two requests with the same filters present produce the same text, so no caller value is spliced into the handler's query text |
| SearchQuery.OrderByLast | charity-events-project/api/server.js:72 | The text ends with the ORDER BY, after every clause |
| Store.CategoryName | charity-events-project/api/server.js:26 | The joined category name is present exactly when the event's category id matches a category, and it is that category's name |
| Store.OrganizationName | charity-events-project/api/server.js:27 | The joined organization name is present exactly when the event's organization id matches an organization, and it is that organization's name |
| Store.Enrich | charity-events-project/api/server.js:23-27 | The LEFT JOINs yield one record per event, in table order. Each record's `category_name` is the name of the category its key resolves to and `organization_name` that of its organization, present exactly when the key resolves |
| Store.LikeSubstring | charity-events-project/api/server.js:62-63 | For a location without wildcards, `LIKE '%location%'` holds exactly when the location text contains it |
| Store.UnderscoreInLocationWidensMatch | charity-events-project/api/server.js:62-63 | A location typed with `_` matches texts that do not contain it literally (`a_c` finds `abc`) |
| Store.HomeEvents | charity-events-project/api/server.js:23-31 | The home SELECT returns the active events dated today or later, each as often as in the table, ascending by date |
| Store.HomeListingSound | charity-events-project/api/server.js:28-30 | Every listed home event is active, upcoming and in the table, and the listing is in ascending date order |
| Store.HomeListingComplete | charity-events-project/api/server.js:28-29 | Every active event dated today or later is listed |
| Store.HomeIsUpcomingPartOfSearch | charity-events-project/api/server.js:28-29 | The home listing is the unfiltered search restricted to dates on or after today |
| Store.SearchWithoutFiltersIsAllActive | charity-events-project/api/server.js:49-72 | With no filters the search selects exactly the active events |
| Store.SearchByCategorySound | charity-events-project/api/server.js:67-69 | A category search returns only active events whose joined category name is that name |
| Store.SearchByLocation | charity-events-project/api/server.js:61-63 | A wildcard-free location search returns exactly the active events whose location contains it |
| Store.DetailRows | charity-events-project/api/server.js:87-93 | The detail SELECT finds exactly the joined records of active events with that id |
| Store.DetailAtMostOneRow | charity-events-project/api/server.js:87-93 | With unique event ids the detail SELECT finds at most one row |
| Store.CategoriesByName | charity-events-project/api/server.js:109 | The categories SELECT returns every category, each as often as stored, ordered by name |
| Ordering.Select | charity-events-project/api/server.js:28-30 | Filter then sort gives the rows satisfying the condition, with their multiplicities, ascending by key |
| Ordering.SelectionSound | charity-events-project/api/server.js:28-30 | Every row of an ordered selection is in the table and satisfies the condition |
| Ordering.SelectionComplete | charity-events-project/api/server.js:28-30 | Every table row satisfying the condition is in an ordered selection |
| Ordering.SortBy | charity-events-project/api/server.js:30 | The sort returns a permutation of its input, ascending by key |
| Ordering.LexLeqTransitive | charity-events-project/api/server.js:30 | The date order is transitive |
| Ordering.LexLeqTotal | charity-events-project/api/server.js:30 | Any two dates are ordered one way or the other |
| Routes.HomeRoute | charity-events-project/api/server.js:21-37 | The home route answers 200 with the home listing when the database answers, else 500 with `Internal server error` |
| Routes.SearchRoute | charity-events-project/api/server.js:40-80 | The search route answers 200 or 500; its 500 is the generic error, and an unreachable database always gets it |
| Routes.SearchRouteStatus | charity-events-project/api/server.js:74-79 | The search route answers 200 exactly when the database answers, and 500 `Internal server error` otherwise |
| Routes.SearchRouteAnswers | charity-events-project/api/server.js:74-75 | A reachable database always answers a search with 200 and exactly the active rows meeting every supplied filter, ascending by date |
| Routes.DetailRoute | charity-events-project/api/server.js:95-103 | The detail route answers 200, 404 `Event not found`, or 500 `Internal server error`, and 500 exactly when the query fails |
| Routes.DetailNotFound | charity-events-project/api/server.js:95-97 | The answer is 404 exactly when the database answers and no active event has the id |
| Routes.DetailFound | charity-events-project/api/server.js:99 | A 200 answer is the joined record of an active event with the requested id |
| Routes.DetailUnique | charity-events-project/api/server.js:95-99 | With unique ids, the row returned is the only row the SELECT found |
| Routes.CategoriesRoute | charity-events-project/api/server.js:107-115 | The categories route answers 200 with every category ordered by name, else 500 |
| Routes.Failure | charity-events-project/api/server.js:100-103 | The failure answer is 500 with `Internal server error`; every route's contract says its 500 is this answer |
| Client.Receive | charity-events-project/client/js/app.js:50-63 | The browser gets the body of a response whose status is 2xx (`response.ok`), and for any other status the one fixed error message |
| Client.ReceiveEvents | charity-events-project/client/js/app.js:50-63 | An event list is received only from a 200 response carrying one |
| Client.ReceiveEvent | charity-events-project/client/js/app.js:50-63 | One event is received only from a 200 response carrying one |
| Client.ReceiveCategories | charity-events-project/client/js/app.js:50-63 | A category list is received only from a 200 response carrying one |
| Client.NotFoundLooksLikeFailure | charity-events-project/client/js/app.js:54-61 | A 404 for a missing event reaches the page as the same fixed error as a server failure |
| Client.DetailsReachBrowser | charity-events-project/client/js/event-details.js:23-24 | A 200 detail answer reaches the page as the active event with the requested id |
| Progress.CalculateProgress | charity-events-project/client/js/app.js:30-33 | A zero goal gives 0 without dividing, and the result never exceeds 100 |
| Progress.RoundedPercent | charity-events-project/client/js/app.js:32 | For a positive goal the value q satisfies q − ½ ≤ 100·current/goal < q + ½, so halves round up |
| Progress.FloorDiv | charity-events-project/client/js/app.js:32 | The floor of a quotient, for either sign of the divisor |
| Progress.ProgressIsNearestPercent | charity-events-project/client/js/app.js:32 | For a positive goal the result is the nearest integer percentage, with halves rounded up, capped at 100 |
| Progress.NearestIsUnique | charity-events-project/client/js/app.js:32 | The nearest integer percentage is unique |
| Progress.ProgressFullWhenGoalMet | charity-events-project/client/js/app.js:32 | A goal met or exceeded gives exactly 100 |
| Progress.ProgressInRange | charity-events-project/client/js/app.js:32 | A non-negative amount against a positive goal gives a result from 0 to 100 |
| Progress.ProgressMonotone | charity-events-project/client/js/app.js:32 | For a fixed positive goal the result never decreases as the amount grows |
| Progress.NegativeProgressPossible | charity-events-project/client/js/app.js:32 | There is no lower clamp: −1 against a goal of 1 gives −100 |
| Common.Label | charity-events-project/client/js/app.js:82 | `a \|\| fallback`: the text when truthy, else the fallback, so never empty for a non-empty fallback |
| Common.OrElse | charity-events-project/client/js/event-details.js:47 | `a \|\| b`: `a` when truthy, else `b`; the result is truthy when either is |
| EventViews.IfTruthy | charity-events-project/client/js/event-details.js:39 | An optional section is present exactly when its text is truthy |
| EventViews.PriceOf | charity-events-project/client/js/app.js:86-89 | A ticket price is shown exactly when it is positive, else "Free Entry" |
| EventViews.FundraisingOf | charity-events-project/client/js/app.js:91-101 | The fundraising block appears exactly for a positive goal, with `calculateProgress` as its percentage, never above 100 |
| EventViews.FundraisingBarWidth | charity-events-project/client/js/app.js:95 | For a non-negative amount the bar is 0 to 100 wide, and full once the goal is met |
| EventViews.CreateEventCard | charity-events-project/client/js/app.js:66-108 | The card shows the image exactly when `image_url` is truthy. Its category label is the joined name when truthy, else "General", never empty. The price is shown exactly when positive. The fundraising block appears exactly for a positive goal, with the raised amount, the goal and `calculateProgress` |
| EventViews.DisplayEventDetails | charity-events-project/client/js/event-details.js:30-94 | The venue suffix and the venue section show `venue_details` exactly when it is truthy. The category label is the joined name when truthy, else "General"; the host is the joined organization name when truthy, else "Heart Charity". The About text is `full_description` when truthy, else `description`. The price is shown exactly when positive; the fundraising block appears exactly for a positive goal, with the raised amount, the goal and `calculateProgress` |
| EventViews.CardAgreesWithDetails | charity-events-project/client/js/event-details.js:31-85 | The card and the details page agree on category label, price line and fundraising block |
| EventViews.CardShowsJoinedCategory | charity-events-project/client/js/app.js:82 | When the event's category id resolves and every category name is non-empty, the card's label is that category's name |
| EventViews.DetailsShowJoinedHost | charity-events-project/client/js/event-details.js:40 | When the event's organization id resolves and every organization name is non-empty, the details page names that organization as host |
| SearchPage.OptionsFor | charity-events-project/client/js/search.js:21-26 | One option per category, in order received, with value and text both the name |
| SearchPage.CardsFor | charity-events-project/client/js/search.js:74-78 | One card per event, in server order |
| SearchPage.FormParams | charity-events-project/client/js/search.js:47-50 | A parameter is sent exactly for each non-empty field, under its own name, at most one each, in the order date, location, category |
| SearchPage.Lookup | charity-events-project/api/server.js:42 | The server reads a key's value from the query string exactly when some pair carries that key |
| SearchPage.ServerSeesFilledFields | charity-events-project/client/js/search.js:47-56 | The server receives each filled field unchanged under its name, and nothing for an empty field |
| SearchPage.FormSearchMeaning | charity-events-project/client/js/search.js:47-56 | End to end, the search selects an event exactly when it is active and agrees with every filled field |
| SearchPage.SearchPage.constructor | charity-events-project/client/js/search.js:2-10 | A new page has an empty form, no appended options, its own results markup and no error shown |
| SearchPage.SearchPage.LoadCategories | charity-events-project/client/js/search.js:17-30 | The options received are appended one per category, in order. A failed request leaves the drop-down and everything else unchanged |
| SearchPage.SearchPage.BeginSearch | charity-events-project/client/js/search.js:43-56 | Sends the parameters of the non-empty fields, shows the loading pane and hides the banner |
| SearchPage.SearchPage.CompleteSearch | charity-events-project/client/js/search.js:56-71 | An empty list shows "No events found" and no cards. A non-empty list shows one card per event in server order. A failure shows the banner with its message and empties the pane |
| SearchPage.SearchPage.DisplaySearchResults | charity-events-project/client/js/search.js:74-78 | The pane holds exactly one card per event, in order, and nothing else changes |
| SearchPage.SearchPage.ClearFilters | charity-events-project/client/js/search.js:80-84 | The form is emptied, the pane shows the prompt and the banner is hidden. The banner's text is kept |
| SearchPage.SearchPage.ShowError | charity-events-project/client/js/search.js:86-90 | The banner shows the message and the results pane is emptied |
| SearchPage.SearchPage.HideError | charity-events-project/client/js/search.js:92-94 | Only the banner's visibility changes |
| DetailsPage.DetailsPath | charity-events-project/client/js/event-details.js:23 | The request path is `/events/` followed by the id |
| DetailsPage.EventDetailsPage.constructor | charity-events-project/client/js/event-details.js:2-12 | A missing or empty `id` shows "No event ID provided" and makes no request. Otherwise the page shows loading and requests `/events/<id>` |
| DetailsPage.EventDetailsPage.LoadEventDetails | charity-events-project/client/js/event-details.js:19-23 | Shows the loading message and requests this page's id |
| DetailsPage.EventDetailsPage.ReceiveDetails | charity-events-project/client/js/event-details.js:23-27 | A received event is displayed through its details view. Any failure shows the failure's message in the container |
| DetailsPage.EventDetailsPage.DisplayEventDetails | charity-events-project/client/js/event-details.js:30-33 | The container shows the event's details view |
| DetailsPage.EventDetailsPage.ShowError | charity-events-project/client/js/event-details.js:100-102 | The container shows the message |

## Left out

- The HTTP framework plumbing is not modelled: Express and CORS setup, route registration, `app.listen`, and the `/api/test` route.
- The database driver is not modelled: the connection pool and `testConnection` (`event_db.js`) are not part of this model. A query outcome is a value: `Database.reachable` says whether queries reach the database.
- The server's clock is a parameter: `CURDATE()` is the `today` argument of the home route.
- The browser's I/O is not modelled:
  - `fetch` and async sequencing are reduced to a request step and a completion step taking a `Result`;
  - `window.location`, `getUrlParam` and the modal wiring (`app.js:110-160`) are left out;
  - `home.js` only repeats the search page's empty/non-empty branching, and is not part of this model.
- No concurrent searches: the model does not capture two searches in flight at once, whose completions can interleave.
- Logging is not modelled: the `console.error` calls in the server's and the pages' catch blocks (`server.js:34,77,101,112`, `app.js:60`, `search.js:28`) write to a console and change no state the model tracks.
- Rendering is not modelled: the HTML markup and its lack of escaping, and the locale formatting of dates, times and amounts (`formatDate`, `formatTime`, `formatCurrency`). Views carry the dates and times those functions receive, and amounts in whole cents.
- Progress.CalculateProgress: the source computes `Math.round(current / goal * 100)` in IEEE doubles. The model uses exact rational rounding, so results may differ when the double product lands just beside a .5 boundary.
- Progress.CalculateProgress: the source tests `goal === 0` strictly. With mysql2 a DECIMAL column may arrive as a string, so the test would be false. The model assumes numeric amounts.
- Store.Like: the model matches characters exactly. MySQL's default collation compares `LIKE` case-insensitively, and `\` is an escape character there. Neither is modelled.
- Store.SearchMatches: the category filter `c.name = ?` compares names character by character. Under MySQL's default case-insensitive collation "gala" also finds "Gala"; the model does not capture that.
- Store.CategoriesByName: `ORDER BY name` is modelled as character-code order. MySQL's default collation orders case-insensitively, so "apple" sorts before "Banana" there and after it in the model.
- Store.Enrich: one record per event assumes that `categories.id` and `organizations.id` are unique, as primary keys are. With a duplicated id the LEFT JOIN would emit one row per match, while the model takes the first match.
- Store.SearchMatches: the filter values are plain strings. The date comparison of a DATE column with a string, and JSON serialisation of dates, are not modelled.
- Routes.DetailRoute: the id arrives as a URL string that MySQL coerces to a number. The model takes the id as an integer, and does not model the coercion of malformed ids.
- Query-string encoding is assumed to round-trip: `URLSearchParams` encoding and Express decoding are taken as exact inverses.
- SearchPage.Lookup: a query string with a repeated key is not modelled. Express reads a repeated key as an array. A repeated `date` or `category` is pushed as an array parameter, which the driver expands into a value list, so the query fails with 500. A repeated `location` is interpolated into `%a,b%`, so the search answers 200 with the events whose location contains `a,b`. The search page never sends a repeated key, since `FormParams` carries each key at most once.
- Client.ReceiveEvent: a 200 body that is not a single event is modelled as the fixed fetch error. The page cannot tell the difference: `makeApiRequest` returns any 2xx body, and the details page renders it as an event. Such a body is reachable: with `?id=home` or `?id=search` the request for `/events/home` or `/events/search` is answered by the list route registered before `/events/:id`. The page then renders the list as one event whose fields are undefined; the model shows the fetch-failed message instead.
- Ordering.Select: MySQL leaves the order of rows with equal dates unspecified. `OrderedSelection` allows any order among equal keys. The function `Select` picks one of them.
