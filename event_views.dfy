/**
 * What the event card (home and search pages) and the details page choose
 * to show for one joined event record: which label, which price line,
 * which optional sections.  The HTML around these choices and the locale
 * formatting of dates, times and amounts are not modelled; dates are
 * carried as the raw values the formatters receive, amounts in whole cents.
 */
module EventViews {
  import opened Common
  import opened Store
  import opened Progress

  const GeneralCategory: string := "General"
  const DefaultHost: string := "Heart Charity"

  /** The image slot: the event's picture, or the "Charity Event" placeholder. */
  datatype Image = Placeholder | Picture(url: string)

  /** The price line: "Free Entry", or the formatted ticket price. */
  datatype Price = FreeEntry | Ticket(amount: int)

  /** The fundraising block: absent, or raised and goal amounts with the bar's percentage. */
  datatype Fundraising = NoFundraising | Funding(raised: int, goal: int, percent: int)

  datatype CardView = CardView(
    id: int,
    title: string,
    date: string,
    location: string,
    category: string,
    description: Option<string>,
    image: Image,
    price: Price,
    fundraising: Fundraising)

  datatype DetailsView = DetailsView(
    title: string,
    date: string,
    time: string,
    location: string,
    venueSuffix: Option<string>,
    category: string,
    host: string,
    about: Option<string>,
    venueSection: Option<string>,
    price: Price,
    fundraising: Fundraising)

  /** A section or suffix shown only when its text is truthy. */
  function IfTruthy(a: Option<string>): (r: Option<string>)
    ensures r.Some? <==> Truthy(a)
    ensures r.Some? ==> r == a
  {
    if Truthy(a) then a else None
  }

  /** `ticket_price > 0 ? formatCurrency(ticket_price) : 'Free Entry'`. */
  function PriceOf(e: Event): (p: Price)
    ensures p.Ticket? <==> e.ticketPrice > 0
    ensures p.Ticket? ==> p.amount == e.ticketPrice
  {
    if e.ticketPrice > 0 then Ticket(e.ticketPrice) else FreeEntry
  }

  /** The fundraising block, shown only for a positive goal, with `calculateProgress` as the bar's width. */
  function FundraisingOf(e: Event): (f: Fundraising)
    ensures f.Funding? <==> e.fundraisingGoal > 0
    ensures f.Funding? ==> f.raised == e.currentProgress && f.goal == e.fundraisingGoal
    ensures f.Funding? ==> f.percent == CalculateProgress(e.currentProgress, e.fundraisingGoal) && f.percent <= 100
  {
    if e.fundraisingGoal > 0 then Funding(e.currentProgress, e.fundraisingGoal, CalculateProgress(e.currentProgress, e.fundraisingGoal))
    else NoFundraising
  }

  /** The bar of a shown fundraising block is between 0 and 100 wide, and full once the goal is met. */
  lemma FundraisingBarWidth(e: Event)
    requires FundraisingOf(e).Funding? && e.currentProgress >= 0
    ensures 0 <= FundraisingOf(e).percent <= 100
    ensures e.currentProgress >= e.fundraisingGoal ==> FundraisingOf(e).percent == 100
  {
    ProgressInRange(e.currentProgress, e.fundraisingGoal);
    if e.currentProgress >= e.fundraisingGoal {
      ProgressFullWhenGoalMet(e.currentProgress, e.fundraisingGoal);
    }
  }

  /** `createEventCard(event)`: the choices the card template makes. */
  function CreateEventCard(r: EventRecord): (v: CardView)
    ensures v.id == r.event.id && v.title == r.event.title && v.date == r.event.eventDate && v.location == r.event.location
    ensures Truthy(r.categoryName) ==> v.category == r.categoryName.value
    ensures !Truthy(r.categoryName) ==> v.category == GeneralCategory
    ensures v.category != ""
    ensures v.image.Picture? <==> Truthy(r.event.imageUrl)
    ensures v.image.Picture? ==> v.image.url == r.event.imageUrl.value
    ensures v.description == r.event.description
    ensures v.price == FreeEntry <==> r.event.ticketPrice <= 0
    ensures v.price.Ticket? ==> v.price.amount == r.event.ticketPrice
    ensures v.fundraising.Funding? <==> r.event.fundraisingGoal > 0
    ensures v.fundraising.Funding? ==> v.fundraising.raised == r.event.currentProgress && v.fundraising.goal == r.event.fundraisingGoal
    ensures v.fundraising.Funding? ==> v.fundraising.percent == CalculateProgress(r.event.currentProgress, r.event.fundraisingGoal)
  {
    CardView(
      r.event.id,
      r.event.title,
      r.event.eventDate,
      r.event.location,
      Label(r.categoryName, GeneralCategory),
      r.event.description,
      if Truthy(r.event.imageUrl) then Picture(r.event.imageUrl.value) else Placeholder,
      PriceOf(r.event),
      FundraisingOf(r.event))
  }

  /** `displayEventDetails(event)`: the choices the details template makes. */
  function DisplayEventDetails(r: EventRecord): (v: DetailsView)
    ensures v.title == r.event.title && v.date == r.event.eventDate && v.time == r.event.eventTime && v.location == r.event.location
    ensures Truthy(r.categoryName) ==> v.category == r.categoryName.value
    ensures !Truthy(r.categoryName) ==> v.category == GeneralCategory
    ensures Truthy(r.organizationName) ==> v.host == r.organizationName.value
    ensures !Truthy(r.organizationName) ==> v.host == DefaultHost
    ensures v.category != "" && v.host != ""
    ensures v.venueSuffix.Some? <==> Truthy(r.event.venueDetails)
    ensures v.venueSuffix.Some? ==> v.venueSuffix.value == r.event.venueDetails.value
    ensures v.venueSection == v.venueSuffix
    ensures Truthy(r.event.fullDescription) ==> v.about == r.event.fullDescription
    ensures !Truthy(r.event.fullDescription) ==> v.about == r.event.description
    ensures v.price == FreeEntry <==> r.event.ticketPrice <= 0
    ensures v.price.Ticket? ==> v.price.amount == r.event.ticketPrice
    ensures v.fundraising.Funding? <==> r.event.fundraisingGoal > 0
    ensures v.fundraising.Funding? ==> v.fundraising.raised == r.event.currentProgress && v.fundraising.goal == r.event.fundraisingGoal
    ensures v.fundraising.Funding? ==> v.fundraising.percent == CalculateProgress(r.event.currentProgress, r.event.fundraisingGoal)
  {
    DetailsView(
      r.event.title,
      r.event.eventDate,
      r.event.eventTime,
      r.event.location,
      IfTruthy(r.event.venueDetails),
      Label(r.categoryName, GeneralCategory),
      Label(r.organizationName, DefaultHost),
      OrElse(r.event.fullDescription, r.event.description),
      IfTruthy(r.event.venueDetails),
      PriceOf(r.event),
      FundraisingOf(r.event))
  }

  /**
   * The card and the details page of one event agree on its category label,
   * its price line and its fundraising block.
   */
  lemma CardAgreesWithDetails(r: EventRecord)
    ensures CreateEventCard(r).category == DisplayEventDetails(r).category
    ensures CreateEventCard(r).price == DisplayEventDetails(r).price
    ensures CreateEventCard(r).fundraising == DisplayEventDetails(r).fundraising
  {
  }

  /** A card shows the joined category name whenever the LEFT JOIN found one that is non-empty. */
  lemma CardShowsJoinedCategory(events: seq<Event>, categories: seq<Category>, organizations: seq<Organization>, i: int)
    requires 0 <= i < |events|
    requires events[i].categoryId.Some?
    requires forall c :: c in categories ==> c.name != ""
    requires exists c :: c in categories && c.id == events[i].categoryId.value
    ensures Category(events[i].categoryId.value, CreateEventCard(Enrich(events, categories, organizations)[i]).category) in categories
  {
    assert Enrich(events, categories, organizations)[i].categoryName.Some?;
  }

  /** The details page names the joined organization as host whenever the LEFT JOIN found one that is non-empty. */
  lemma DetailsShowJoinedHost(events: seq<Event>, categories: seq<Category>, organizations: seq<Organization>, i: int)
    requires 0 <= i < |events|
    requires events[i].organizationId.Some?
    requires forall o :: o in organizations ==> o.name != ""
    requires exists o :: o in organizations && o.id == events[i].organizationId.value
    ensures Organization(events[i].organizationId.value, DisplayEventDetails(Enrich(events, categories, organizations)[i]).host) in organizations
  {
    assert Enrich(events, categories, organizations)[i].organizationName.Some?;
  }
}
