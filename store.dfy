/**
 * The three tables the API reads, the LEFT JOIN that enriches an event with
 * its category and organization names, MySQL's `LIKE`, and what the home,
 * search, detail and category SELECTs select from an in-memory copy of the
 * tables.
 */
module Store {
  import opened Common
  import opened Ordering

  datatype Category = Category(id: int, name: string)

  datatype Organization = Organization(id: int, name: string)

  /**
   * A row of the `events` table.  Money columns are whole cents; dates are
   * ISO `YYYY-MM-DD` strings and times `HH:MM:SS` strings.
   */
  datatype Event = Event(
    id: int,
    title: string,
    description: Option<string>,
    fullDescription: Option<string>,
    eventDate: string,
    eventTime: string,
    location: string,
    venueDetails: Option<string>,
    ticketPrice: int,
    fundraisingGoal: int,
    currentProgress: int,
    imageUrl: Option<string>,
    isActive: bool,
    categoryId: Option<int>,
    organizationId: Option<int>)

  /**
   * `e.*, c.name as category_name, o.name as organization_name`: an event
   * row with the names its LEFT JOINs found (NULL when none matched).  This
   * is also the JSON object the browser receives.
   */
  datatype EventRecord = EventRecord(event: Event, categoryName: Option<string>, organizationName: Option<string>)

  /** Name of the category whose id is `id`; NULL when `id` is NULL or dangling. */
  function CategoryName(categories: seq<Category>, id: Option<int>): (r: Option<string>)
    ensures r.Some? <==> id.Some? && exists c :: c in categories && c.id == id.value
    ensures r.Some? ==> Category(id.value, r.value) in categories
  {
    if id.None? || categories == [] then None
    else if categories[0].id == id.value then Some(categories[0].name)
    else CategoryName(categories[1..], id)
  }

  /** Name of the organization whose id is `id`; NULL when `id` is NULL or dangling. */
  function OrganizationName(organizations: seq<Organization>, id: Option<int>): (r: Option<string>)
    ensures r.Some? <==> id.Some? && exists o :: o in organizations && o.id == id.value
    ensures r.Some? ==> Organization(id.value, r.value) in organizations
  {
    if id.None? || organizations == [] then None
    else if organizations[0].id == id.value then Some(organizations[0].name)
    else OrganizationName(organizations[1..], id)
  }

  /**
   * `events e LEFT JOIN categories c … LEFT JOIN organizations o …`: one
   * record per event, in table order, whether or not its keys resolve.
   */
  function Enrich(events: seq<Event>, categories: seq<Category>, organizations: seq<Organization>): (r: seq<EventRecord>)
    ensures |r| == |events|
    ensures forall i :: 0 <= i < |events| ==>
      r[i].event == events[i]
      && (r[i].categoryName.Some? <==> events[i].categoryId.Some? && exists c :: c in categories && c.id == events[i].categoryId.value)
      && (r[i].organizationName.Some? <==> events[i].organizationId.Some? && exists o :: o in organizations && o.id == events[i].organizationId.value)
    ensures forall i :: 0 <= i < |events| ==>
      r[i].categoryName == CategoryName(categories, events[i].categoryId)
      && r[i].organizationName == OrganizationName(organizations, events[i].organizationId)
    ensures forall i :: 0 <= i < |events| && r[i].categoryName.Some? ==>
      Category(events[i].categoryId.value, r[i].categoryName.value) in categories
    ensures forall i :: 0 <= i < |events| && r[i].organizationName.Some? ==>
      Organization(events[i].organizationId.value, r[i].organizationName.value) in organizations
  {
    if events == [] then []
    else
      [EventRecord(events[0], CategoryName(categories, events[0].categoryId), OrganizationName(organizations, events[0].organizationId))]
      + Enrich(events[1..], categories, organizations)
  }

  /**
   * MySQL `text LIKE pattern`: `%` matches any run of characters, `_` any
   * single character, every other character itself.
   */
  predicate Like(text: string, pattern: string)
    decreases |pattern|, |text|
    ensures NoWildcards(pattern) ==> (Like(text, pattern) <==> text == pattern)
    ensures pattern != [] && (forall i :: 0 <= i < |pattern| ==> pattern[i] == '%') ==> Like(text, pattern)
  {
    if pattern == [] then text == []
    else if pattern[0] == '%' then Like(text, pattern[1..]) || (text != [] && Like(text[1..], pattern))
    else text != [] && (pattern[0] == '_' || pattern[0] == text[0]) && Like(text[1..], pattern[1..])
  }

  predicate NoWildcards(s: string)
  {
    forall i :: 0 <= i < |s| ==> s[i] != '%' && s[i] != '_'
  }

  /** `needle` occurs in `text` as a contiguous substring. */
  ghost predicate Contains(text: string, needle: string)
  {
    exists k :: 0 <= k <= |text| - |needle| && OccursAt(text, needle, k)
  }

  predicate OccursAt(text: string, needle: string, k: int)
    requires 0 <= k <= |text| - |needle|
  {
    text[k..k + |needle|] == needle
  }

  lemma {:induction false} PercentMatchesAll(text: string)
    ensures Like(text, "%")
    decreases |text|
  {
    if text != [] { PercentMatchesAll(text[1..]); }
  }

  /** A wildcard-free string followed by `%` matches exactly the texts it begins. */
  lemma {:induction false} LikePrefix(text: string, s: string)
    requires NoWildcards(s)
    ensures Like(text, s + "%") <==> |s| <= |text| && text[..|s|] == s
    decreases |s|
  {
    if s == [] {
      assert s + "%" == "%";
      PercentMatchesAll(text);
    } else {
      assert (s + "%")[0] == s[0] && (s + "%")[1..] == s[1..] + "%";
      if text != [] {
        LikePrefix(text[1..], s[1..]);
        if |s| <= |text| && text[..|s|] == s {
          assert text[1..][..|s| - 1] == text[..|s|][1..];
        }
        if |s| <= |text| && text[0] == s[0] && text[1..][..|s| - 1] == s[1..] {
          assert text[..|s|] == [text[0]] + text[1..][..|s| - 1];
        }
      }
    }
  }

  /** A leading `%` lets the rest of the pattern match any suffix. */
  lemma {:induction false} LikeLeadingPercent(text: string, q: string)
    ensures Like(text, "%" + q) <==> exists k :: 0 <= k <= |text| && Like(text[k..], q)
    decreases |text|
  {
    var p := "%" + q;
    assert p[0] == '%' && p[1..] == q;
    if text == [] {
      assert text[0..] == text;
    } else {
      LikeLeadingPercent(text[1..], q);
      if Like(text, p) {
        if !Like(text, q) {
          var k :| 0 <= k <= |text[1..]| && Like(text[1..][k..], q);
          assert text[1..][k..] == text[k + 1..];
        } else {
          assert text[0..] == text;
        }
      } else {
        forall k | 0 <= k <= |text| ensures !Like(text[k..], q) {
          if k == 0 { assert text[0..] == text; } else { assert text[k..] == text[1..][k - 1..]; }
        }
      }
    }
  }

  /** The location filter, when present and free of wildcards, is the substring test. */
  lemma LocationFilterMeaning(text: string, location: Option<string>)
    ensures Truthy(location) && NoWildcards(location.value) ==> (Like(text, "%" + location.value + "%") <==> Contains(text, location.value))
  {
    if Truthy(location) && NoWildcards(location.value) {
      LikeSubstring(text, location.value);
    }
  }

  /** The search's location pattern `%location%` is a substring test when the location has no wildcards. */
  lemma LikeSubstring(text: string, location: string)
    requires NoWildcards(location)
    ensures Like(text, "%" + location + "%") <==> Contains(text, location)
  {
    assert "%" + location + "%" == "%" + (location + "%");
    LikeLeadingPercent(text, location + "%");
    if Like(text, "%" + location + "%") {
      var k :| 0 <= k <= |text| && Like(text[k..], location + "%");
      LikePrefix(text[k..], location);
      assert text[k..k + |location|] == text[k..][..|location|];
      assert OccursAt(text, location, k);
    }
    if Contains(text, location) {
      var k :| 0 <= k <= |text| - |location| && OccursAt(text, location, k);
      LikePrefix(text[k..], location);
      assert text[k..k + |location|] == text[k..][..|location|];
    }
  }

  /** An underscore in the location is a wildcard: `a_c` finds `abc`, which does not contain `a_c`. */
  lemma UnderscoreInLocationWidensMatch()
    ensures Like("abc", "%" + "a_c" + "%")
    ensures !Contains("abc", "a_c")
  {
    assert "%" + "a_c" + "%" == "%a_c%";
    assert Like("", "");
    assert Like("", "%");
    assert Like("c", "c%");
    assert Like("bc", "_c%");
    assert Like("abc", "a_c%");
    assert Like("abc", "%a_c%");
    forall k | 0 <= k <= 0 ensures !OccursAt("abc", "a_c", k) {
      assert "abc"[0..3] == "abc";
    }
  }

  function DateOf(r: EventRecord): string { r.event.eventDate }

  function NameOf(c: Category): string { c.name }

  predicate IsActive(r: EventRecord) { r.event.isActive }

  /** `WHERE e.is_active = TRUE AND e.event_date >= CURDATE()`, with the server's date as `today`. */
  function HomeCondition(today: string): EventRecord -> bool
  {
    (r: EventRecord) => r.event.isActive && LexLeq(today, r.event.eventDate)
  }

  /**
   * The search route's conditions as the search page describes them: an
   * active event, on the given date, at a location the `%location%` pattern
   * matches, in the category of the given name; an absent or empty filter
   * imposes nothing.
   */
  predicate SearchMatches(r: EventRecord, date: Option<string>, location: Option<string>, category: Option<string>)
    ensures SearchMatches(r, date, location, category) ==> r.event.isActive
    ensures !Truthy(date) && !Truthy(location) && !Truthy(category) ==> (SearchMatches(r, date, location, category) <==> r.event.isActive)
    ensures Truthy(location) && NoWildcards(location.value) && SearchMatches(r, date, location, category)
      ==> Contains(r.event.location, location.value)
  {
    LocationFilterMeaning(r.event.location, location);
    && r.event.isActive
    && (Truthy(date) ==> r.event.eventDate == date.value)
    && (Truthy(location) ==> Like(r.event.location, "%" + location.value + "%"))
    && (Truthy(category) ==> r.categoryName == Some(category.value))
  }

  function SearchCondition(date: Option<string>, location: Option<string>, category: Option<string>): EventRecord -> bool
  {
    (r: EventRecord) => SearchMatches(r, date, location, category)
  }

  /** `WHERE e.id = ? AND e.is_active = TRUE`. */
  function DetailCondition(id: int): EventRecord -> bool
  {
    (r: EventRecord) => r.event.id == id && r.event.isActive
  }

  /** The home SELECT: active upcoming events, ascending by date. */
  function HomeEvents(records: seq<EventRecord>, today: string): (r: seq<EventRecord>)
    ensures OrderedSelection(r, records, HomeCondition(today), DateOf)
  {
    Select(records, HomeCondition(today), DateOf)
  }

  /** The detail SELECT; it has no ORDER BY, and the model keeps table order. */
  function DetailRows(records: seq<EventRecord>, id: int): (r: seq<EventRecord>)
    ensures forall x :: x in r <==> x in records && x.event.id == id && x.event.isActive
  {
    var rows := Filter(records, DetailCondition(id));
    forall x ensures x in rows <==> x in records && DetailCondition(id)(x) {
      FilterMembers(records, DetailCondition(id), x);
    }
    rows
  }

  /** `SELECT * FROM categories ORDER BY name`. */
  function CategoriesByName(categories: seq<Category>): (r: seq<Category>)
    ensures multiset(r) == multiset(categories)
    ensures SortedBy(r, NameOf)
  {
    var all := (c: Category) => true;
    FilterAll(categories, all);
    Select(categories, all, NameOf)
  }

  lemma {:induction false} FilterCongruent<T>(s: seq<T>, p: T -> bool, q: T -> bool)
    requires forall i :: 0 <= i < |s| ==> p(s[i]) == q(s[i])
    ensures Filter(s, p) == Filter(s, q)
  {
    if s != [] { FilterCongruent(s[1..], p, q); }
  }

  lemma {:induction false} FilterNone<T>(s: seq<T>, p: T -> bool)
    requires forall x :: x in s ==> !p(x)
    ensures Filter(s, p) == []
  {
    if s != [] { FilterNone(s[1..], p); }
  }

  /** Whatever order the store picks for equal dates, the home listing holds only active upcoming events, ascending. */
  lemma HomeListingSound(records: seq<EventRecord>, today: string, r: seq<EventRecord>)
    requires OrderedSelection(r, records, HomeCondition(today), DateOf)
    ensures forall x :: x in r ==> x in records && x.event.isActive && LexLeq(today, x.event.eventDate)
    ensures forall i, j :: 0 <= i <= j < |r| ==> LexLeq(r[i].event.eventDate, r[j].event.eventDate)
  {
    forall x | x in r ensures x in records && x.event.isActive && LexLeq(today, x.event.eventDate) {
      SelectionSound(r, records, HomeCondition(today), DateOf, x);
    }
    forall i, j | 0 <= i <= j < |r| ensures LexLeq(r[i].event.eventDate, r[j].event.eventDate) {
      SortedPairwise(r, DateOf, i, j);
    }
  }

  /** Every active event dated today or later is listed on the home page. */
  lemma HomeListingComplete(records: seq<EventRecord>, today: string, r: seq<EventRecord>, x: EventRecord)
    requires OrderedSelection(r, records, HomeCondition(today), DateOf)
    requires x in records && x.event.isActive && LexLeq(today, x.event.eventDate)
    ensures x in r
  {
    SelectionComplete(r, records, HomeCondition(today), DateOf, x);
  }

  /** With no filters the search selects exactly the active events, of any date. */
  lemma SearchWithoutFiltersIsAllActive(records: seq<EventRecord>, d: Option<string>, l: Option<string>, c: Option<string>)
    requires !Truthy(d) && !Truthy(l) && !Truthy(c)
    ensures Filter(records, SearchCondition(d, l, c)) == Filter(records, (r: EventRecord) => IsActive(r))
  {
    FilterCongruent(records, SearchCondition(d, l, c), (r: EventRecord) => IsActive(r));
  }

  /** The home listing is the unfiltered search restricted to dates on or after today. */
  lemma HomeIsUpcomingPartOfSearch(records: seq<EventRecord>, today: string, x: EventRecord)
    ensures x in HomeEvents(records, today) <==>
      x in Select(records, SearchCondition(None, None, None), DateOf) && LexLeq(today, x.event.eventDate)
  {
    var home := HomeEvents(records, today);
    var all := Select(records, SearchCondition(None, None, None), DateOf);
    if x in home {
      SelectionSound(home, records, HomeCondition(today), DateOf, x);
      SelectionComplete(all, records, SearchCondition(None, None, None), DateOf, x);
    }
    if x in all && LexLeq(today, x.event.eventDate) {
      SelectionSound(all, records, SearchCondition(None, None, None), DateOf, x);
      SelectionComplete(home, records, HomeCondition(today), DateOf, x);
    }
  }

  /** A search by category returns only events whose joined category name is exactly that name. */
  lemma SearchByCategorySound(records: seq<EventRecord>, d: Option<string>, l: Option<string>, c: Option<string>, r: seq<EventRecord>, x: EventRecord)
    requires OrderedSelection(r, records, SearchCondition(d, l, c), DateOf)
    requires Truthy(c) && x in r
    ensures x.categoryName == c && x.event.isActive
  {
    SelectionSound(r, records, SearchCondition(d, l, c), DateOf, x);
  }

  /** A search by a wildcard-free location returns exactly the active events whose location contains it. */
  lemma SearchByLocation(records: seq<EventRecord>, location: string, r: seq<EventRecord>, x: EventRecord)
    requires location != "" && NoWildcards(location)
    requires OrderedSelection(r, records, SearchCondition(None, Some(location), None), DateOf)
    requires x in records
    ensures x in r <==> x.event.isActive && Contains(x.event.location, location)
  {
    LikeSubstring(x.event.location, location);
    if x in r {
      SelectionSound(r, records, SearchCondition(None, Some(location), None), DateOf, x);
    }
    if x.event.isActive && Contains(x.event.location, location) {
      SelectionComplete(r, records, SearchCondition(None, Some(location), None), DateOf, x);
    }
  }

  /** With primary-key ids the detail SELECT yields at most one row. */
  lemma DetailAtMostOneRow(records: seq<EventRecord>, id: int)
    requires forall i, j :: 0 <= i < j < |records| ==> records[i].event.id != records[j].event.id
    ensures |DetailRows(records, id)| <= 1
  {
    DetailAtMostOneRowFilter(records, id);
  }

  lemma {:induction false} DetailAtMostOneRowFilter(records: seq<EventRecord>, id: int)
    requires forall i, j :: 0 <= i < j < |records| ==> records[i].event.id != records[j].event.id
    ensures |Filter(records, DetailCondition(id))| <= 1
    ensures records != [] && records[0].event.id == id ==> Filter(records[1..], DetailCondition(id)) == []
  {
    if records != [] {
      DetailAtMostOneRowFilter(records[1..], id);
      if records[0].event.id == id {
        forall x | x in records[1..] ensures !DetailCondition(id)(x) {
          var j :| 0 <= j < |records[1..]| && records[1..][j] == x;
          assert records[j + 1] == x;
        }
        FilterNone(records[1..], DetailCondition(id));
      }
    }
  }
}
