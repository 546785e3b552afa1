/**
 * The search route's SQL builder: a base SELECT, one `AND … ?` clause per
 * filter the request supplies, and a closing ORDER BY, with the filter
 * values kept apart as bound parameters.  Also a reader that recovers the
 * typed conditions from the built text, and the meaning of the built query
 * over an in-memory table.
 */
module SearchQuery {
  import opened Common
  import opened Ordering
  import opened Store
  import opened SqlText

  /** The text handed to `pool.query` and its parameter array. */
  datatype SearchQuery = SearchQuery(text: string, params: seq<string>)

  /** The filter conditions a search query can carry. */
  datatype Condition = DateIs | LocationLike | CategoryIs

  function ClauseText(c: Condition): string
  {
    match c
    case DateIs => DateClause
    case LocationLike => LocationClause
    case CategoryIs => CategoryClause
  }

  /** A piece of text that is appended only when its filter is present. */
  function When<T>(present: bool, piece: seq<T>): seq<T>
  {
    if present then piece else []
  }

  /** The query text, which is fixed by which of the three filters are present. */
  function SearchText(hasDate: bool, hasLocation: bool, hasCategory: bool): string
  {
    Assemble(Base, When(hasDate, DateClause), When(hasLocation, LocationClause), When(hasCategory, CategoryClause), OrderByClause)
  }

  /** The handler's concatenation order: base, the three clause slots, tail. */
  function Assemble(base: string, d: string, l: string, c: string, tail: string): string
  {
    base + d + l + c + tail
  }

  /** The parameter array: date as given, location wrapped in `%`, category as given. */
  function SearchParams(date: Option<string>, location: Option<string>, category: Option<string>): seq<string>
  {
    (if Truthy(date) then [date.value] else [])
    + (if Truthy(location) then ["%" + location.value + "%"] else [])
    + (if Truthy(category) then [category.value] else [])
  }

  /** The query and parameters the search handler builds from `req.query`. */
  function BuildSearch(date: Option<string>, location: Option<string>, category: Option<string>): (q: SearchQuery)
    ensures |q.params| == (if Truthy(date) then 1 else 0) + (if Truthy(location) then 1 else 0) + (if Truthy(category) then 1 else 0)
    ensures Truthy(date) ==> date.value in q.params
    ensures Truthy(location) ==> "%" + location.value + "%" in q.params
    ensures Truthy(category) ==> category.value in q.params
    ensures Placeholders(q.text) == |q.params|
  {
    TextPlaceholders(Truthy(date), Truthy(location), Truthy(category));
    SearchQuery(SearchText(Truthy(date), Truthy(location), Truthy(category)), SearchParams(date, location, category))
  }

  /** The handler as written: `query +=` and `params.push` under three guards, then the ORDER BY. */
  method SearchHandler(date: Option<string>, location: Option<string>, category: Option<string>)
    returns (query: string, params: seq<string>)
    ensures SearchQuery(query, params) == BuildSearch(date, location, category)
  {
    query := Base;
    params := [];
    if Truthy(date) {
      query := query + DateClause;
      params := params + [date.value];
    }
    assert query == Base + When(Truthy(date), DateClause);
    if Truthy(location) {
      query := query + LocationClause;
      params := params + ["%" + location.value + "%"];
    }
    assert query == Base + When(Truthy(date), DateClause) + When(Truthy(location), LocationClause);
    if Truthy(category) {
      query := query + CategoryClause;
      params := params + [category.value];
    }
    assert query == Base + When(Truthy(date), DateClause) + When(Truthy(location), LocationClause) + When(Truthy(category), CategoryClause);
    assert params == SearchParams(date, location, category);
    query := query + OrderByClause;
    assert query == SearchText(Truthy(date), Truthy(location), Truthy(category));
  }

  /** The conditions a query with the given filters carries, in the handler's fixed order. */
  function Present(hasDate: bool, hasLocation: bool, hasCategory: bool): seq<Condition>
  {
    When(hasDate, [DateIs]) + When(hasLocation, [LocationLike]) + When(hasCategory, [CategoryIs])
  }

  predicate StartsWith(s: string, prefix: string)
  {
    |prefix| <= |s| && s[..|prefix|] == prefix
  }

  /** Reads the filter clauses back, in order, from the text between the base and the ORDER BY. */
  function ParseClauses(s: string): Option<seq<Condition>>
    decreases |s|
  {
    if s == [] then Some([])
    else if StartsWith(s, DateClause) then Prepend(DateIs, ParseClauses(s[|DateClause|..]))
    else if StartsWith(s, LocationClause) then Prepend(LocationLike, ParseClauses(s[|LocationClause|..]))
    else if StartsWith(s, CategoryClause) then Prepend(CategoryIs, ParseClauses(s[|CategoryClause|..]))
    else None
  }

  function Prepend(c: Condition, rest: Option<seq<Condition>>): Option<seq<Condition>>
  {
    if rest.Some? then Some([c] + rest.value) else None
  }

  /** Reads a search query text: the base, then filter clauses, then the ORDER BY and nothing after it. */
  function ParseSearch(text: string): Option<seq<Condition>>
  {
    if |Base| + |OrderByClause| <= |text| && StartsWith(text, Base) && text[|text| - |OrderByClause|..] == OrderByClause
    then ParseClauses(text[|Base|..|text| - |OrderByClause|])
    else None
  }

  /** What one clause demands of a joined row, given the value bound to its placeholder. */
  predicate Holds(c: Condition, param: string, r: EventRecord)
  {
    match c
    case DateIs => r.event.eventDate == param
    case LocationLike => Like(r.event.location, param)
    case CategoryIs => r.categoryName == Some(param)
  }

  predicate AllHold(cs: seq<Condition>, params: seq<string>, r: EventRecord)
    requires |cs| == |params|
  {
    forall i :: 0 <= i < |cs| ==> Holds(cs[i], params[i], r)
  }

  /**
   * What the store returns for a search query text: the active rows meeting
   * every clause with its bound value, ascending by date.  The driver fills
   * the placeholders in order before sending the text: surplus values are
   * ignored, while a placeholder left without a value reaches the store as a
   * syntax error, as does a text it cannot read.
   */
  function ExecuteSearch(records: seq<EventRecord>, q: SearchQuery): (r: Result<seq<EventRecord>>)
    ensures r.Ok? <==> ParseSearch(q.text).Some? && |ParseSearch(q.text).value| <= |q.params|
    ensures r.Ok? ==> SortedBy(r.value, DateOf)
    ensures r.Ok? ==> forall x :: x in r.value ==> x in records && x.event.isActive
  {
    var parsed := ParseSearch(q.text);
    if parsed.None? then Err("ER_PARSE_ERROR")
    else if |parsed.value| > |q.params| then Err("ER_PARSE_ERROR")
    else
      var keep := Kept(parsed.value, q.params[..|parsed.value|]);
      SelectMembers(records, keep, DateOf);
      Ok(Select(records, keep, DateOf))
  }

  /** The rows a readable query keeps: active, and meeting every clause with its bound value. */
  function Kept(cs: seq<Condition>, params: seq<string>): EventRecord -> bool
    requires |cs| == |params|
  {
    (rec: EventRecord) => rec.event.isActive && AllHold(cs, params, rec)
  }

  /** A readable text with exactly one value per placeholder keeps the rows meeting its clauses. */
  lemma ExecuteReadable(records: seq<EventRecord>, q: SearchQuery, cs: seq<Condition>)
    requires ParseSearch(q.text) == Some(cs) && |cs| == |q.params|
    ensures ExecuteSearch(records, q) == Ok(Select(records, Kept(cs, q.params), DateOf))
  {
    assert q.params[..|cs|] == q.params;
  }

  lemma ClauseHasOnePlaceholder(c: Condition)
    ensures Placeholders(ClauseText(c)) == 1
  {
    match c
    case DateIs =>
      assert DateClause == " AND e.event_date = " + "?";
      OnePlaceholder(" AND e.event_date = ");
    case LocationLike =>
      assert LocationClause == " AND e.location LIKE " + "?";
      OnePlaceholder(" AND e.location LIKE ");
    case CategoryIs =>
      assert CategoryClause == " AND c.name = " + "?";
      OnePlaceholder(" AND c.name = ");
  }

  /** The fixed pieces of the search text and their placeholder counts. */
  lemma PiecesCounted()
    ensures Placeholders(Base) == 0 && Placeholders(OrderByClause) == 0
    ensures Placeholders(DateClause) == 1 && Placeholders(LocationClause) == 1 && Placeholders(CategoryClause) == 1
  {
    BaseUnbound();
    OrderByUnbound();
    ClauseHasOnePlaceholder(DateIs);
    ClauseHasOnePlaceholder(LocationLike);
    ClauseHasOnePlaceholder(CategoryIs);
  }

  /** Appending a piece only when its filter is present adds its placeholders only then. */
  lemma AppendWhen(text: string, piece: string, present: bool)
    ensures Placeholders(text + When(present, piece)) == Placeholders(text) + (if present then Placeholders(piece) else 0)
  {
    if present {
      PlaceholdersAdd(text, piece);
    } else {
      assert text + When(present, piece) == text;
    }
  }

  /** Placeholder count of a base, three optional one-placeholder clauses and a tail. */
  lemma AssembledPlaceholders(base: string, d: string, l: string, c: string, tail: string, hasD: bool, hasL: bool, hasC: bool)
    requires Placeholders(base) == 0 && Placeholders(tail) == 0
    requires Placeholders(d) == 1 && Placeholders(l) == 1 && Placeholders(c) == 1
    ensures Placeholders(Assemble(base, When(hasD, d), When(hasL, l), When(hasC, c), tail))
      == (if hasD then 1 else 0) + (if hasL then 1 else 0) + (if hasC then 1 else 0)
  {
    AppendWhen(base, d, hasD);
    AppendWhen(base + When(hasD, d), l, hasL);
    AppendWhen(base + When(hasD, d) + When(hasL, l), c, hasC);
    PlaceholdersAdd(base + When(hasD, d) + When(hasL, l) + When(hasC, c), tail);
  }

  /** One parameter per present filter, in the handler's order. */
  lemma ParamsCount(date: Option<string>, location: Option<string>, category: Option<string>)
    ensures |SearchParams(date, location, category)|
      == (if Truthy(date) then 1 else 0) + (if Truthy(location) then 1 else 0) + (if Truthy(category) then 1 else 0)
  {
  }

  /** The text carries one `?` per present filter; the base and the ORDER BY none. */
  lemma TextPlaceholders(hasDate: bool, hasLocation: bool, hasCategory: bool)
    ensures Placeholders(SearchText(hasDate, hasLocation, hasCategory))
      == (if hasDate then 1 else 0) + (if hasLocation then 1 else 0) + (if hasCategory then 1 else 0)
  {
    var assembled := Assemble(Base, When(hasDate, DateClause), When(hasLocation, LocationClause), When(hasCategory, CategoryClause), OrderByClause);
    assert SearchText(hasDate, hasLocation, hasCategory) == assembled;
    assert Placeholders(assembled) == (if hasDate then 1 else 0) + (if hasLocation then 1 else 0) + (if hasCategory then 1 else 0) by {
      PiecesCounted();
      AssembledPlaceholders(Base, DateClause, LocationClause, CategoryClause, OrderByClause, hasDate, hasLocation, hasCategory);
    }
  }

  /** Each present filter contributes one `?` and one parameter, so the two always agree. */
  lemma PlaceholdersMatchParams(date: Option<string>, location: Option<string>, category: Option<string>)
    ensures Placeholders(BuildSearch(date, location, category).text) == |BuildSearch(date, location, category).params|
  {
    TextPlaceholders(Truthy(date), Truthy(location), Truthy(category));
    ParamsCount(date, location, category);
  }

  /** A clause at the front of the text is read as its own condition and never as another. */
  lemma ParseStep(c: Condition, rest: string)
    ensures ParseClauses(ClauseText(c) + rest) == Prepend(c, ParseClauses(rest))
  {
    var s := ClauseText(c) + rest;
    assert s[..|ClauseText(c)|] == ClauseText(c);
    assert s[|ClauseText(c)|..] == rest;
    match c
    case DateIs =>
    case LocationLike =>
      NotPrefixAt(s, DateClause, 7);
    case CategoryIs =>
      NotPrefixAt(s, DateClause, 5);
      NotPrefixAt(s, LocationClause, 5);
  }

  /** Texts that differ at position k do not start with one another. */
  lemma NotPrefixAt(s: string, prefix: string, k: nat)
    requires k < |s| && k < |prefix| && s[k] != prefix[k]
    ensures !StartsWith(s, prefix)
  {
    if |prefix| <= |s| {
      assert s[..|prefix|][k] == s[k];
    }
  }

  /** An optional clause in front of readable text adds its condition exactly when present. */
  lemma ParseOptional(c: Condition, present: bool, rest: string)
    requires ParseClauses(rest).Some?
    ensures ParseClauses(When(present, ClauseText(c)) + rest) == Some(When(present, [c]) + ParseClauses(rest).value)
  {
    if present {
      ParseStep(c, rest);
    } else {
      assert When(present, ClauseText(c)) + rest == rest;
      assert When(present, [c]) + ParseClauses(rest).value == ParseClauses(rest).value;
    }
  }

  /** The clause section of a built query reads back as exactly the present conditions, in order. */
  lemma ClausesRoundTrip(hasDate: bool, hasLocation: bool, hasCategory: bool)
    ensures ParseClauses(When(hasDate, DateClause) + When(hasLocation, LocationClause) + When(hasCategory, CategoryClause))
      == Some(Present(hasDate, hasLocation, hasCategory))
  {
    var d, l, c := When(hasDate, DateClause), When(hasLocation, LocationClause), When(hasCategory, CategoryClause);
    var cd, cl, cc := When(hasDate, [DateIs]), When(hasLocation, [LocationLike]), When(hasCategory, [CategoryIs]);
    assert d + l + c == d + (l + (c + []));
    assert ParseClauses([]) == Some([]);
    ParseOptional(CategoryIs, hasCategory, []);
    ParseOptional(LocationLike, hasLocation, c + []);
    ParseOptional(DateIs, hasDate, l + (c + []));
    assert cd + (cl + (cc + [])) == cd + cl + cc;
  }

  /** Splitting a concatenation at the lengths of its outer parts gives those parts back. */
  lemma SplitAround(a: string, m: string, z: string)
    ensures StartsWith(a + m + z, a)
    ensures (a + m + z)[|a + m + z| - |z|..] == z
    ensures (a + m + z)[|a|..|a + m + z| - |z|] == m
  {
    assert (a + m + z)[..|a|] == a;
  }

  /** Proof helper: regroups the handler's concatenation as base, clause section, tail. */
  lemma AssembleFrames(base: string, d: string, l: string, c: string, tail: string)
    ensures Assemble(base, d, l, c, tail) == base + (d + l + c) + tail
  {
  }

  /** The reader strips the base and the ORDER BY and reads what lies between. */
  lemma ParseFramed(mid: string)
    ensures ParseSearch(Base + mid + OrderByClause) == ParseClauses(mid)
  {
    SplitAround(Base, mid, OrderByClause);
  }

  /** Every text the handler builds reads back as the conditions of the filters that were present. */
  lemma SearchTextRoundTrip(hasDate: bool, hasLocation: bool, hasCategory: bool)
    ensures ParseSearch(SearchText(hasDate, hasLocation, hasCategory)) == Some(Present(hasDate, hasLocation, hasCategory))
  {
    var d, l, c := When(hasDate, DateClause), When(hasLocation, LocationClause), When(hasCategory, CategoryClause);
    AssembleFrames(Base, d, l, c, OrderByClause);
    ParseFramed(d + l + c);
    ClausesRoundTrip(hasDate, hasLocation, hasCategory);
  }

  /** Conditions and their values can be checked group by group. */
  lemma AllHoldAppend(cs1: seq<Condition>, ps1: seq<string>, cs2: seq<Condition>, ps2: seq<string>, r: EventRecord)
    requires |cs1| == |ps1| && |cs2| == |ps2|
    ensures AllHold(cs1 + cs2, ps1 + ps2, r) <==> AllHold(cs1, ps1, r) && AllHold(cs2, ps2, r)
  {
    var cs, ps := cs1 + cs2, ps1 + ps2;
    if AllHold(cs1, ps1, r) && AllHold(cs2, ps2, r) {
      forall i | 0 <= i < |cs|
        ensures Holds(cs[i], ps[i], r)
      {
        if i >= |cs1| {
          assert cs[i] == cs2[i - |cs1|] && ps[i] == ps2[i - |cs1|];
        }
      }
    }
    if AllHold(cs, ps, r) {
      forall i | 0 <= i < |cs1|
        ensures Holds(cs1[i], ps1[i], r)
      {
        assert cs[i] == cs1[i] && ps[i] == ps1[i];
      }
      forall i | 0 <= i < |cs2|
        ensures Holds(cs2[i], ps2[i], r)
      {
        assert cs[i + |cs1|] == cs2[i] && ps[i + |cs1|] == ps2[i];
      }
    }
  }

  /** One optional condition with its optional value holds when absent, or when its test holds. */
  lemma AllHoldOne(c: Condition, present: bool, ps: seq<string>, r: EventRecord)
    requires |ps| == if present then 1 else 0
    ensures AllHold(When(present, [c]), ps, r) <==> (present ==> Holds(c, ps[0], r))
  {
  }

  /** The number of conditions a query text carries equals its number of parameters. */
  lemma ConditionsMatchParams(date: Option<string>, location: Option<string>, category: Option<string>)
    ensures |Present(Truthy(date), Truthy(location), Truthy(category))| == |SearchParams(date, location, category)|
  {
    ParamsCount(date, location, category);
  }

  /**
   * Bound to the handler's parameters, the conditions read from the
   * handler's text demand exactly what the search route promises.
   */
  lemma BoundConditionsMeanFilters(date: Option<string>, location: Option<string>, category: Option<string>, r: EventRecord)
    ensures |Present(Truthy(date), Truthy(location), Truthy(category))| == |SearchParams(date, location, category)|
    ensures r.event.isActive && AllHold(Present(Truthy(date), Truthy(location), Truthy(category)), SearchParams(date, location, category), r)
      <==> SearchMatches(r, date, location, category)
  {
    ConditionsMatchParams(date, location, category);
    var hd, hl, hc := Truthy(date), Truthy(location), Truthy(category);
    var pd: seq<string> := if hd then [date.value] else [];
    var pl: seq<string> := if hl then ["%" + location.value + "%"] else [];
    var pc: seq<string> := if hc then [category.value] else [];
    var cd, cl, cc := When(hd, [DateIs]), When(hl, [LocationLike]), When(hc, [CategoryIs]);
    AllHoldOne(DateIs, hd, pd, r);
    AllHoldOne(LocationLike, hl, pl, r);
    AllHoldOne(CategoryIs, hc, pc, r);
    AllHoldAppend(cd, pd, cl, pl, r);
    AllHoldAppend(cd + cl, pd + pl, cc, pc, r);
  }

  /**
   * Running the query the handler builds gives the active rows meeting every
   * supplied filter, ascending by date: the listing the search route promises.
   */
  lemma SearchQueryMeaning(records: seq<EventRecord>, date: Option<string>, location: Option<string>, category: Option<string>)
    ensures ExecuteSearch(records, BuildSearch(date, location, category)) == Ok(Select(records, SearchCondition(date, location, category), DateOf))
  {
    var q := BuildSearch(date, location, category);
    var cs := Present(Truthy(date), Truthy(location), Truthy(category));
    SearchTextRoundTrip(Truthy(date), Truthy(location), Truthy(category));
    ConditionsMatchParams(date, location, category);
    ExecuteReadable(records, q, cs);
    var keep := Kept(cs, q.params);
    forall i | 0 <= i < |records|
      ensures keep(records[i]) == SearchCondition(date, location, category)(records[i])
    {
      BoundConditionsMeanFilters(date, location, category, records[i]);
    }
    FilterCongruent(records, keep, SearchCondition(date, location, category));
  }

  /** The value a condition's placeholder is bound to: the date and category as given, the location wrapped in `%`. */
  function BoundValue(c: Condition, date: Option<string>, location: Option<string>, category: Option<string>): string
  {
    match c
    case DateIs => if date.Some? then date.value else ""
    case LocationLike => if location.Some? then "%" + location.value + "%" else ""
    case CategoryIs => if category.Some? then category.value else ""
  }

  /** The i-th parameter is the value of the i-th clause in the text: date, location, category, in that order. */
  lemma ParamsFollowClauses(date: Option<string>, location: Option<string>, category: Option<string>)
    ensures |Present(Truthy(date), Truthy(location), Truthy(category))| == |SearchParams(date, location, category)|
    ensures forall i :: 0 <= i < |SearchParams(date, location, category)| ==>
      SearchParams(date, location, category)[i] == BoundValue(Present(Truthy(date), Truthy(location), Truthy(category))[i], date, location, category)
  {
    ConditionsMatchParams(date, location, category);
  }

  /** Whatever the filters, the text opens with the base SELECT and its `e.is_active = TRUE` condition. */
  lemma BaseAlwaysPresent(date: Option<string>, location: Option<string>, category: Option<string>)
    ensures StartsWith(BuildSearch(date, location, category).text, Base)
    ensures StartsWith(Base[|Base| - |WhereLine| - 8..], WhereLine)
  {
    var hd, hl, hc := Truthy(date), Truthy(location), Truthy(category);
    var d, l, c := When(hd, DateClause), When(hl, LocationClause), When(hc, CategoryClause);
    AssembleFrames(Base, d, l, c, OrderByClause);
    SplitAround(Base, d + l + c, OrderByClause);
  }

  /** With no filter present there are no parameters and the text is the base followed by the ORDER BY. */
  lemma NoFiltersQuery(date: Option<string>, location: Option<string>, category: Option<string>)
    requires !Truthy(date) && !Truthy(location) && !Truthy(category)
    ensures BuildSearch(date, location, category) == SearchQuery(Base + OrderByClause, [])
  {
    assert SearchText(false, false, false) == Base + OrderByClause by {
      AssembleFrames(Base, [], [], [], OrderByClause);
    }
    assert SearchParams(date, location, category) == [];
  }

  /**
   * The text is fixed by which filters are present, never by their values,
   * so two requests with the same filters present send the same SQL text.
   */
  lemma TextIgnoresValues(d1: Option<string>, l1: Option<string>, c1: Option<string>, d2: Option<string>, l2: Option<string>, c2: Option<string>)
    requires Truthy(d1) == Truthy(d2) && Truthy(l1) == Truthy(l2) && Truthy(c1) == Truthy(c2)
    ensures BuildSearch(d1, l1, c1).text == BuildSearch(d2, l2, c2).text
  {
  }

  /** The ORDER BY closes the text, after every clause. */
  lemma OrderByLast(date: Option<string>, location: Option<string>, category: Option<string>)
    ensures var t := BuildSearch(date, location, category).text;
      |OrderByClause| <= |t| && t[|t| - |OrderByClause|..] == OrderByClause
  {
    var hd, hl, hc := Truthy(date), Truthy(location), Truthy(category);
    var d, l, c := When(hd, DateClause), When(hl, LocationClause), When(hc, CategoryClause);
    AssembleFrames(Base, d, l, c, OrderByClause);
    SplitAround(Base, d + l + c, OrderByClause);
  }
}
