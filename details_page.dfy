/**
 * The event details page: the `id` URL parameter it was opened with, the
 * request it makes for that event, and what its container shows.  The
 * request is split at its `await`: the constructor issues it and shows the
 * loading message, `ReceiveDetails` takes what it yielded.
 */
module DetailsPage {
  import opened Common
  import opened Store
  import opened EventViews

  const MissingId: string := "No event ID provided"

  /** What the details container shows. */
  datatype Container =
    | Initial                 // the page's own markup
    | Loading                 // "Loading..."
    | Failed(message: string) // the error box with its message
    | Shown(view: DetailsView)

  /** The API path the page requests for an event id. */
  function DetailsPath(id: string): (p: string)
    ensures |p| == |"/events/"| + |id|
    ensures p[..|"/events/"|] == "/events/" && p[|"/events/"|..] == id
  {
    "/events/" + id
  }

  class EventDetailsPage {
    var eventId: Option<string>
    var container: Container
    /** The path of the details request, once one has been made. */
    var requested: Option<string>

    /**
     * Without a usable `id` the page shows "No event ID provided" and makes
     * no request; otherwise it shows the loading message and requests
     * `/events/<id>`.
     */
    constructor(idParam: Option<string>)
      ensures eventId == idParam
      ensures !Truthy(idParam) ==> container == Failed(MissingId) && requested == None
      ensures Truthy(idParam) ==> container == Loading && requested == Some(DetailsPath(idParam.value))
    {
      eventId := idParam;
      container := Initial;
      requested := None;
      new;
      if !Truthy(eventId) {
        ShowError(MissingId);
        return;
      }
      LoadEventDetails();
    }

    /** The synchronous part of `loadEventDetails`: the loading message, and the request for this page's id. */
    method LoadEventDetails()
      requires Truthy(eventId)
      modifies this
      ensures eventId == old(eventId)
      ensures container == Loading && requested == Some(DetailsPath(eventId.value))
    {
      container := Loading;
      requested := Some(DetailsPath(eventId.value));
    }

    /** The rest of `loadEventDetails`: the event's details, or the failure's message in the container. */
    method ReceiveDetails(response: Result<EventRecord>)
      requires requested.Some?
      modifies this
      ensures response.Ok? ==> container == Shown(EventViews.DisplayEventDetails(response.value))
      ensures response.Err? ==> container == Failed(response.message)
      ensures eventId == old(eventId) && requested == old(requested)
    {
      match response
      case Ok(event) =>
        DisplayEventDetails(event);
      case Err(message) =>
        ShowError(message);
    }

    /** `displayEventDetails`: the container shows the details view of the event. */
    method DisplayEventDetails(event: EventRecord)
      modifies this
      ensures container == Shown(EventViews.DisplayEventDetails(event))
      ensures eventId == old(eventId) && requested == old(requested)
    {
      container := Shown(EventViews.DisplayEventDetails(event));
    }

    /** `showError`: the container shows the message. */
    method ShowError(message: string)
      modifies this
      ensures container == Failed(message)
      ensures eventId == old(eventId) && requested == old(requested)
    {
      container := Failed(message);
    }
  }
}
