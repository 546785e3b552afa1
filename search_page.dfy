/**
 * The search page: its form, the category drop-down filled from the API,
 * the results pane and the error banner.  A search is split at its
 * `await`: `BeginSearch` builds the request and shows the loading pane,
 * `CompleteSearch` takes what the request yielded.
 */
module SearchPage {
  import opened Common
  import opened Store
  import opened EventViews

  /** What the results container shows. */
  datatype Pane =
    | Initial               // the page's own markup, before any search
    | Loading               // "Loading..."
    | NoResults             // "No events found"
    | Prompt                // "Use the form above to search for events"
    | Cards(cards: seq<CardView>)
    | Blank                 // emptied by an error

  /** One `<option>` appended to the category drop-down. */
  datatype CategoryOption = CategoryOption(value: string, text: string)

  /** One `key=value` pair of the search request's query string. */
  datatype QueryParam = QueryParam(key: string, value: string)

  /** One option per category, in the order received, with value and text both the category's name. */
  function OptionsFor(categories: seq<Category>): (r: seq<CategoryOption>)
    ensures |r| == |categories|
    ensures forall i :: 0 <= i < |r| ==> r[i].value == categories[i].name && r[i].text == categories[i].name
  {
    if categories == [] then []
    else [CategoryOption(categories[0].name, categories[0].name)] + OptionsFor(categories[1..])
  }

  lemma {:induction false} OptionsForAppend(categories: seq<Category>, c: Category)
    ensures OptionsFor(categories + [c]) == OptionsFor(categories) + [CategoryOption(c.name, c.name)]
  {
    var r, s := OptionsFor(categories + [c]), OptionsFor(categories) + [CategoryOption(c.name, c.name)];
    assert |r| == |s|;
    forall i | 0 <= i < |r| ensures r[i] == s[i] {
      if i < |categories| {
        assert (categories + [c])[i] == categories[i];
      }
    }
  }

  /** One card per event, in the order the server sent them. */
  function CardsFor(events: seq<EventRecord>): (r: seq<CardView>)
    ensures |r| == |events|
    ensures forall i :: 0 <= i < |events| ==> r[i] == CreateEventCard(events[i])
  {
    seq(|events|, i requires 0 <= i < |events| => CreateEventCard(events[i]))
  }

  /**
   * The query string `performSearch` sends: each form field that is
   * non-empty, keyed by its name, in the order date, location, category.
   */
  function FormParams(date: string, location: string, category: string): (r: seq<QueryParam>)
    ensures |r| <= 3
    ensures forall p :: p in r ==> p.value != ""
    ensures QueryParam("date", date) in r <==> date != ""
    ensures QueryParam("location", location) in r <==> location != ""
    ensures QueryParam("category", category) in r <==> category != ""
    ensures forall p :: p in r ==> p == QueryParam("date", date) || p == QueryParam("location", location) || p == QueryParam("category", category)
    ensures Ranked(r)
  {
    assert KeyRank("date") == 0 && KeyRank("location") == 1 && KeyRank("category") == 2;
    JoinFields("date", date, "location", location, "category", category);
    Field("date", date) + Field("location", location) + Field("category", category)
  }

  /** Three optional pairs under keys of increasing rank: each present exactly when its value is non-empty, in rank order. */
  lemma JoinFields(k1: string, v1: string, k2: string, v2: string, k3: string, v3: string)
    requires KeyRank(k1) < KeyRank(k2) < KeyRank(k3)
    ensures var r := Field(k1, v1) + Field(k2, v2) + Field(k3, v3);
      && (QueryParam(k1, v1) in r <==> v1 != "")
      && (QueryParam(k2, v2) in r <==> v2 != "")
      && (QueryParam(k3, v3) in r <==> v3 != "")
      && Ranked(r)
  {
    var d, l, c := Field(k1, v1), Field(k2, v2), Field(k3, v3);
    RankedJoin(d, l);
    RankedJoin(d + l, c);
  }

  /** Keys in strictly increasing rank. */
  predicate Ranked(ps: seq<QueryParam>)
  {
    forall i, j :: 0 <= i < j < |ps| ==> KeyRank(ps[i].key) < KeyRank(ps[j].key)
  }

  /** Two ranked runs, the first's keys all ranked below the second's, join into a ranked run. */
  lemma RankedJoin(a: seq<QueryParam>, b: seq<QueryParam>)
    requires Ranked(a) && Ranked(b)
    requires forall p, q :: p in a && q in b ==> KeyRank(p.key) < KeyRank(q.key)
    ensures Ranked(a + b)
  {
    forall i, j | 0 <= i < j < |a + b| ensures KeyRank((a + b)[i].key) < KeyRank((a + b)[j].key) {
      if j < |a| {
      } else if i < |a| {
        assert (a + b)[i] in a && (a + b)[j] in b;
      } else {
        assert (a + b)[i] == b[i - |a|] && (a + b)[j] == b[j - |a|];
      }
    }
  }

  /** The position of a form field in the order `performSearch` appends them; 3 for any other key. */
  function KeyRank(key: string): nat
  {
    if key == "date" then 0 else if key == "location" then 1 else if key == "category" then 2 else 3
  }

  /** `if (value) searchParams.append(key, value)`. */
  function Field(key: string, value: string): (r: seq<QueryParam>)
    ensures |r| <= 1
    ensures forall p :: p in r ==> p == QueryParam(key, value)
  {
    if value != "" then [QueryParam(key, value)] else []
  }

  /**
   * `req.query[key]` on the server, for a query string that carries each
   * key at most once (as `FormParams` always does): the value of the pair
   * with that key, if any.  A repeated key, which Express would turn into an
   * array, is not modelled.
   */
  function Lookup(params: seq<QueryParam>, key: string): (r: Option<string>)
    ensures r.Some? <==> exists p :: p in params && p.key == key
    ensures r.Some? ==> QueryParam(key, r.value) in params
  {
    if params == [] then None
    else if params[0].key == key then Some(params[0].value)
    else Lookup(params[1..], key)
  }

  class SearchPage {
    var date: string
    var location: string
    var category: string
    var categoryOptions: seq<CategoryOption>
    var pane: Pane
    var errorText: string
    var errorVisible: bool

    /** A fresh page: empty form, no appended options, the page's own results markup, no error shown. */
    constructor()
      ensures date == "" && location == "" && category == ""
      ensures categoryOptions == [] && pane == Initial
      ensures errorText == "" && !errorVisible
    {
      date, location, category := "", "", "";
      categoryOptions := [];
      pane := Initial;
      errorText, errorVisible := "", false;
    }

    /**
     * `loadCategories`: one option per category received, appended in
     * order; a failed request leaves the drop-down as it was.
     */
    method LoadCategories(response: Result<seq<Category>>)
      modifies this
      ensures response.Ok? ==> categoryOptions == old(categoryOptions) + OptionsFor(response.value)
      ensures response.Err? ==> categoryOptions == old(categoryOptions)
      ensures date == old(date) && location == old(location) && category == old(category)
      ensures pane == old(pane) && errorText == old(errorText) && errorVisible == old(errorVisible)
    {
      if response.Err? {
        return;
      }
      var categories := response.value;
      var options := categoryOptions;
      var i := 0;
      while i < |categories|
        modifies {}
        invariant 0 <= i <= |categories|
        invariant options == old(categoryOptions) + OptionsFor(categories[..i])
      {
        OptionsForAppend(categories[..i], categories[i]);
        assert categories[..i + 1] == categories[..i] + [categories[i]];
        options := options + [CategoryOption(categories[i].name, categories[i].name)];
        i := i + 1;
      }
      assert categories[..i] == categories;
      categoryOptions := options;
    }

    /**
     * The synchronous part of `performSearch`: the query string built from
     * the non-empty form fields, the loading pane, and the banner hidden.
     */
    method BeginSearch() returns (params: seq<QueryParam>)
      modifies this
      ensures params == FormParams(date, location, category)
      ensures pane == Loading && !errorVisible
      ensures date == old(date) && location == old(location) && category == old(category)
      ensures categoryOptions == old(categoryOptions) && errorText == old(errorText)
    {
      params := [];
      if date != "" {
        params := params + [QueryParam("date", date)];
      }
      assert params == Field("date", date);
      if location != "" {
        params := params + [QueryParam("location", location)];
      }
      assert params == Field("date", date) + Field("location", location);
      if category != "" {
        params := params + [QueryParam("category", category)];
      }
      assert params == Field("date", date) + Field("location", location) + Field("category", category);
      pane := Loading;
      HideError();
    }

    /**
     * The rest of `performSearch`, once the request settles: "No events
     * found" for an empty list, one card per event otherwise, the error
     * banner when the request failed.
     */
    method CompleteSearch(response: Result<seq<EventRecord>>)
      modifies this
      ensures response.Ok? && response.value == [] ==> pane == NoResults && errorVisible == old(errorVisible) && errorText == old(errorText)
      ensures response.Ok? && response.value != [] ==> pane == Cards(CardsFor(response.value)) && errorVisible == old(errorVisible) && errorText == old(errorText)
      ensures response.Err? ==> pane == Blank && errorVisible && errorText == response.message
      ensures date == old(date) && location == old(location) && category == old(category)
      ensures categoryOptions == old(categoryOptions)
    {
      match response
      case Err(message) =>
        ShowError(message);
      case Ok(events) =>
        if |events| == 0 {
          pane := NoResults;
          return;
        }
        DisplaySearchResults(events);
    }

    /** `displaySearchResults`: the pane holds exactly one card per event, in server order. */
    method DisplaySearchResults(events: seq<EventRecord>)
      modifies this
      ensures pane.Cards? && |pane.cards| == |events|
      ensures forall i :: 0 <= i < |events| ==> pane.cards[i] == CreateEventCard(events[i])
      ensures date == old(date) && location == old(location) && category == old(category)
      ensures categoryOptions == old(categoryOptions) && errorText == old(errorText) && errorVisible == old(errorVisible)
    {
      pane := Cards(CardsFor(events));
    }

    /** `clearFilters`: an empty form, the prompt in the pane, the banner hidden (its text is kept). */
    method ClearFilters()
      modifies this
      ensures date == "" && location == "" && category == ""
      ensures pane == Prompt && !errorVisible
      ensures categoryOptions == old(categoryOptions) && errorText == old(errorText)
    {
      date, location, category := "", "", "";
      pane := Prompt;
      HideError();
    }

    /** `showError`: the message in the banner, the banner shown, the pane emptied. */
    method ShowError(message: string)
      modifies this
      ensures errorText == message && errorVisible && pane == Blank
      ensures date == old(date) && location == old(location) && category == old(category)
      ensures categoryOptions == old(categoryOptions)
    {
      errorText := message;
      errorVisible := true;
      pane := Blank;
    }

    /** `hideError`: only the banner's visibility changes. */
    method HideError()
      modifies this
      ensures !errorVisible
      ensures date == old(date) && location == old(location) && category == old(category)
      ensures categoryOptions == old(categoryOptions) && pane == old(pane) && errorText == old(errorText)
    {
      errorVisible := false;
    }
  }

  /** A key that occurs at most in one optional pair is looked up as that pair's value, or as absent. */
  lemma LookupField(before: seq<QueryParam>, key: string, value: string, after: seq<QueryParam>)
    requires forall p :: p in before ==> p.key != key
    requires forall p :: p in after ==> p.key != key
    ensures Lookup(before + Field(key, value) + after, key) == if value != "" then Some(value) else None
  {
    assert before + Field(key, value) + after == before + (Field(key, value) + after);
    LookupPast(before, Field(key, value) + after, key);
    if value == "" {
      assert Field(key, value) + after == after + [];
      LookupPast(after, [], key);
    }
  }

  /** Only a field the user filled reaches the server, and it arrives unchanged under its own name. */
  lemma ServerSeesFilledFields(date: string, location: string, category: string)
    ensures Lookup(FormParams(date, location, category), "date") == if date != "" then Some(date) else None
    ensures Lookup(FormParams(date, location, category), "location") == if location != "" then Some(location) else None
    ensures Lookup(FormParams(date, location, category), "category") == if category != "" then Some(category) else None
  {
    var d, l, c := Field("date", date), Field("location", location), Field("category", category);
    assert KeyRank("date") == 0 && KeyRank("location") == 1 && KeyRank("category") == 2;
    assert d + l + c == [] + d + (l + c);
    LookupField([], "date", date, l + c);
    LookupField(d, "location", location, c);
    assert d + l + c == d + l + c + [];
    LookupField(d + l, "category", category, []);
  }

  /**
   * What the form asks for, end to end: the server's search conditions on
   * the received query string hold of an event exactly when it is active
   * and agrees with every field the user filled.
   */
  lemma FormSearchMeaning(date: string, location: string, category: string, r: EventRecord)
    ensures var params := FormParams(date, location, category);
      SearchMatches(r, Lookup(params, "date"), Lookup(params, "location"), Lookup(params, "category"))
      <==>
      && r.event.isActive
      && (date != "" ==> r.event.eventDate == date)
      && (location != "" ==> Like(r.event.location, "%" + location + "%"))
      && (category != "" ==> r.categoryName == Some(category))
  {
    ServerSeesFilledFields(date, location, category);
  }

  /** A pair under another key does not affect the lookup. */
  lemma {:induction false} LookupPast(before: seq<QueryParam>, after: seq<QueryParam>, key: string)
    requires forall p :: p in before ==> p.key != key
    ensures Lookup(before + after, key) == Lookup(after, key)
  {
    if before == [] {
      assert before + after == after;
    } else {
      assert (before + after)[0] == before[0] && before[0] in before;
      assert (before + after)[1..] == before[1..] + after;
      LookupPast(before[1..], after, key);
    }
  }
}
