/**
 * The fixed pieces of the search route's SQL text, and the count of `?`
 * placeholders in a text.
 */
module SqlText {

  /*
   * The template literal the handler starts from, whitespace included,
   * written line by line; each line is the indentation and one or two
   * pieces of text.
   */
  const Indent: string := "            "
  const SelectColumns: string := "SELECT e.*, c.name as category_name, "
  const SelectJoinedName: string := "o.name as organization_name\n"
  const FromEvents: string := "FROM events e\n"
  const JoinCategories: string := "LEFT JOIN categories c "
  const OnCategory: string := "ON e.category_id = c.id\n"
  const JoinOrganizations: string := "LEFT JOIN organizations o "
  const OnOrganization: string := "ON e.organization_id = o.id\n"
  const WhereActive: string := "WHERE e.is_active = TRUE\n"
  const Closing: string := "        "

  const SelectLine: string := Indent + SelectColumns + SelectJoinedName
  const FromLine: string := Indent + FromEvents
  const JoinCategoriesLine: string := Indent + JoinCategories + OnCategory
  const JoinOrganizationsLine: string := Indent + JoinOrganizations + OnOrganization
  const WhereLine: string := Indent + WhereActive
  const Base: string := "\n" + SelectLine + FromLine + JoinCategoriesLine + JoinOrganizationsLine + WhereLine + Closing

  const DateClause: string := " AND e.event_date = ?"
  const LocationClause: string := " AND e.location LIKE ?"
  const CategoryClause: string := " AND c.name = ?"
  const OrderByClause: string := " ORDER BY e.event_date ASC"

  /** Number of `?` placeholders in a query text. */
  function Placeholders(text: string): nat
  {
    if text == [] then 0 else (if text[0] == '?' then 1 else 0) + Placeholders(text[1..])
  }

  lemma {:induction false} PlaceholdersAdd(a: string, b: string)
    ensures Placeholders(a + b) == Placeholders(a) + Placeholders(b)
  {
    if a == [] {
      assert a + b == b;
    } else {
      PlaceholdersAdd(a[1..], b);
      assert (a + b)[0] == a[0] && (a + b)[1..] == a[1..] + b;
    }
  }

  lemma {:induction false} NoPlaceholders(s: string)
    requires '?' !in s
    ensures Placeholders(s) == 0
  {
    if s != [] { NoPlaceholders(s[1..]); }
  }

  /* No piece of the base text holds a `?`. */
  lemma IndentUnbound() ensures '?' !in Indent {}
  lemma SelectColumnsUnbound() ensures '?' !in SelectColumns {}
  lemma SelectJoinedNameUnbound() ensures '?' !in SelectJoinedName {}
  lemma FromEventsUnbound() ensures '?' !in FromEvents {}
  lemma JoinCategoriesUnbound() ensures '?' !in JoinCategories {}
  lemma OnCategoryUnbound() ensures '?' !in OnCategory {}
  lemma JoinOrganizationsUnbound() ensures '?' !in JoinOrganizations {}
  lemma OnOrganizationUnbound() ensures '?' !in OnOrganization {}
  lemma WhereActiveUnbound() ensures '?' !in WhereActive {}

  lemma FreeOfThree(a: string, b: string, c: string)
    requires '?' !in a && '?' !in b && '?' !in c
    ensures '?' !in a + b + c
  {
  }

  /** The base text, line by line, holds no placeholder. */
  lemma BaseUnbound()
    ensures Placeholders(Base) == 0
  {
    IndentUnbound();
    SelectColumnsUnbound();
    SelectJoinedNameUnbound();
    FromEventsUnbound();
    JoinCategoriesUnbound();
    OnCategoryUnbound();
    JoinOrganizationsUnbound();
    OnOrganizationUnbound();
    WhereActiveUnbound();
    FreeOfThree(Indent, SelectColumns, SelectJoinedName);
    FreeOfThree(Indent, FromEvents, "");
    assert FromLine == Indent + FromEvents + "";
    FreeOfThree(Indent, JoinCategories, OnCategory);
    FreeOfThree(Indent, JoinOrganizations, OnOrganization);
    FreeOfThree(Indent, WhereActive, "");
    assert WhereLine == Indent + WhereActive + "";
    FreeOfThree("\n" + SelectLine, FromLine, JoinCategoriesLine);
    FreeOfThree("\n" + SelectLine + FromLine + JoinCategoriesLine, JoinOrganizationsLine, WhereLine);
    FreeOfThree("\n" + SelectLine + FromLine + JoinCategoriesLine + JoinOrganizationsLine + WhereLine, Closing, "");
    assert Base == "\n" + SelectLine + FromLine + JoinCategoriesLine + JoinOrganizationsLine + WhereLine + Closing + "";
    NoPlaceholders(Base);
  }

  lemma OrderByUnbound()
    ensures Placeholders(OrderByClause) == 0
  {
    NoPlaceholders(OrderByClause);
  }

  /** A clause text ending in its single placeholder. */
  lemma OnePlaceholder(prefix: string)
    requires '?' !in prefix
    ensures Placeholders(prefix + "?") == 1
  {
    PlaceholdersAdd(prefix, "?");
    NoPlaceholders(prefix);
  }
}
