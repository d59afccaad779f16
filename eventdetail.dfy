/** The event detail page (src/pages/EventDetail.tsx): it fetches one joined row by the id
    in the URL, maps it with the detail mapper, and renders a spinner, "Event Not Found" or
    the event. The single-row query is an input: a failed query or a successful one whose
    data may be null. */
module EventDetailPage {
  import opened EventTypes
  import opened RecordMapper
  import EventsLoader

  /** The location card's text: `event.location || 'Online Event'`. */
  function LocationLabel(location: Option<string>): (text: string)
    ensures location.Some? && location.value != "" ==> text == location.value
    ensures location.None? || location.value == "" ==> text == "Online Event"
  {
    OrElse(location, "Online Event")
  }

  /** The gallery: the images after the first, shown only when there are at least two.
      With the hero image, which is the first image without a fallback, every image of an
      event with two or more is shown exactly once. */
  function Gallery(images: seq<string>): (g: seq<string>)
    ensures |images| >= 2 ==> [images[0]] + g == images
    ensures |images| < 2 ==> g == []
  {
    if |images| > 1 then images[1..] else []
  }

  /** The detail page's colours, named after its gradient class strings. */
  datatype DetailColor =
    | PurplePink | BlueCyan | GreenEmerald | OrangeRed | IndigoPurple | YellowOrange | GraySlate
    | Inherited(member: string)

  /** `getThemeColor` of the detail page: only six tags are listed; every other string,
      seven of the tags included, falls back to grey, except a name the object literal
      inherits, whose truthy lookup result is used instead. */
  function ThemeColor(s: string): (c: DetailColor)
    ensures c == GraySlate <==>
      s !in {"AI", "Web3", "Mobile", "Web Development", "Data Science", "Blockchain"} && s !in InheritedKeys
    ensures s in InheritedKeys ==> c == Inherited(s)
  {
    if s == "AI" then PurplePink
    else if s == "Web3" then BlueCyan
    else if s == "Mobile" then GreenEmerald
    else if s == "Web Development" then OrangeRed
    else if s == "Data Science" then IndigoPurple
    else if s == "Blockchain" then YellowOrange
    else if s in InheritedKeys then Inherited(s)
    else GraySlate
  }

  /** The tags the detail table lists are exactly the first six of the `Theme` union; the
      other seven get the fallback. */
  lemma DetailTableListsFirstSix(t: Theme)
    ensures ThemeColor(ThemeName(t)) != GraySlate <==> ThemeIndex(t) < 6
  {
  }

  /** What the page renders. */
  datatype DetailView = Spinner | NotFound | Shown(event: Event)

  /** How a fetch of the row settles: the event to show, or why there is none. */
  function FetchOutcome(q: EventsLoader.Query<RawRow>): (r: Option<Event>)
    ensures r.Some? <==> q.QueryOk? && q.data.Some? && q.data.value.platform.Some?
    ensures r.Some? ==> MapDetailRow(q.data.value) == Ok(r.value) && r.value.college.None?
  {
    match q
    case QueryFailed => None
    case QueryOk(data) =>
      if data.None? then None
      else
        match MapDetailRow(data.value)
        case Ok(e) => Some(e)
        case Err(_) => None
  }

  /** The page's two state cells. */
  class DetailState {
    var event: Option<Event>
    var isLoading: bool

    /** The first render: no event yet, loading. */
    constructor ()
      ensures event == None && isLoading
    {
      event, isLoading := None, true;
    }

    /** The spinner while loading, then "Event Not Found" without an event. */
    function View(): (v: DetailView)
      reads this
      ensures v.Spinner? <==> isLoading
      ensures v.NotFound? <==> !isLoading && event.None?
      ensures v.Shown? ==> event == Some(v.event)
    {
      if isLoading then Spinner
      else if event.None? then NotFound
      else Shown(event.value)
    }

    /** `fetchEvent`. Without an id it returns before anything is set, so a first render
        stays on the spinner. With one, the event is set only when the query succeeds with
        a row that maps; any failure keeps the previous event; loading ends either way. */
    method FetchEvent(id: Option<string>, q: EventsLoader.Query<RawRow>)
      modifies this
      ensures id.None? || id == Some("") ==> event == old(event) && isLoading == old(isLoading)
      ensures id.Some? && id.value != "" ==> !isLoading
      ensures id.Some? && id.value != "" ==>
        event == (if FetchOutcome(q).Some? then FetchOutcome(q) else old(event))
    {
      if id.None? || id.value == "" {
        return;
      }
      isLoading := true;
      var found := FetchOutcome(q);
      if found.Some? {
        event := found;
      }
      isLoading := false;
    }
  }

  /** Opening the page, the constructor followed by one fetch: with no id it shows the
      spinner for good, with an id whose fetch fails it says "Event Not Found", and a
      fetched row is shown as the detail mapper made it. */
  method Open(id: Option<string>, q: EventsLoader.Query<RawRow>) returns (v: DetailView)
    ensures id.None? || id == Some("") ==> v == Spinner
    ensures id.Some? && id.value != "" && FetchOutcome(q).None? ==> v == NotFound
    ensures id.Some? && id.value != "" && FetchOutcome(q).Some? ==> v == Shown(FetchOutcome(q).value)
  {
    var page := new DetailState();
    page.FetchEvent(id, q);
    v := page.View();
  }
}
