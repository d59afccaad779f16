/** The filter predicate engine of src/components/EventGrid.tsx and the grid's own state
    (the favourites set and the details modal). The current time `now` and the local
    calendar day of an instant, `dayOf`, come from the host's clock and time zone and are
    parameters here. */
module EventGrid {
  import opened EventTypes
  import opened Seqs
  import Favorites

  const DAY_MS: int := 24 * 60 * 60 * 1000
  /** `7 * 24 * 60 * 60 * 1000` */
  const WEEK_MS: int := 7 * DAY_MS
  /** `30 * 24 * 60 * 60 * 1000` */
  const MONTH_MS: int := 30 * DAY_MS

  /** The theme check: a concrete tag must be one of the event's tags. */
  predicate ThemePasses(e: Event, choice: ThemeChoice) {
    match choice
    case AnyTheme => true
    case OneTheme(t) => ThemeName(t) in e.theme
  }

  /** The platform check: both `"all"` and the empty string are wildcards. */
  predicate PlatformPasses(e: Event, platform: string) {
    platform == "" || platform == "all" || e.platform.id == platform
  }

  /** The mode check: a concrete mode must equal the event's stored mode. */
  predicate ModePasses(e: Event, choice: ModeChoice) {
    match choice
    case AnyMode => true
    case OneMode(m) => e.mode == ModeName(m)
  }

  /** The date bucket: the same local day as now, or a start within the next week or
      month, both ends inclusive. */
  predicate DatePasses(e: Event, bucket: DateBucket, now: int, dayOf: int -> int) {
    match bucket
    case AnyDate => true
    case Today => dayOf(e.date) == dayOf(now)
    case Week => now <= e.date <= now + WEEK_MS
    case Month => now <= e.date <= now + MONTH_MS
  }

  /** The callback passed to `events.filter`: all four checks must pass. */
  predicate Matches(e: Event, spec: FilterSpec, now: int, dayOf: int -> int) {
    && ThemePasses(e, spec.theme)
    && PlatformPasses(e, spec.platform)
    && ModePasses(e, spec.mode)
    && DatePasses(e, spec.date, now, dayOf)
  }

  function Matcher(spec: FilterSpec, now: int, dayOf: int -> int): Event -> bool {
    e => Matches(e, spec, now, dayOf)
  }

  /** `filteredEvents`. */
  function FilterEvents(events: seq<Event>, spec: FilterSpec, now: int, dayOf: int -> int): (r: seq<Event>)
    ensures |r| <= |events|
    ensures forall i :: 0 <= i < |r| ==> Matches(r[i], spec, now, dayOf)
  {
    Filter(events, Matcher(spec, now, dayOf))
  }

  /** The output is the subsequence of the input made of the matching events: it is
      taken at increasing positions, holds each element as often as the input at most,
      and misses no matching event. */
  lemma FilterEventsIsSubsequence(events: seq<Event>, spec: FilterSpec, now: int, dayOf: int -> int)
    returns (idx: seq<nat>)
    ensures |idx| == |FilterEvents(events, spec, now, dayOf)|
    ensures StrictlyIncreasing(idx)
    ensures forall k :: 0 <= k < |idx| ==>
      idx[k] < |events| && FilterEvents(events, spec, now, dayOf)[k] == events[idx[k]]
    ensures forall j :: 0 <= j < |events| && Matches(events[j], spec, now, dayOf) ==> j in idx
    ensures forall j :: j in idx ==> 0 <= j < |events| && Matches(events[j], spec, now, dayOf)
    ensures multiset(FilterEvents(events, spec, now, dayOf)) <= multiset(events)
  {
    idx := FilterIsSubsequence(events, Matcher(spec, now, dayOf));
    FilterMultiset(events, Matcher(spec, now, dayOf));
  }

  /** With every field `'all'` the grid shows the input unchanged. */
  lemma AllWildcardsKeepsEverything(events: seq<Event>, now: int, dayOf: int -> int)
    ensures FilterEvents(events, AllWildcards, now, dayOf) == events
  {
    FilterAllPass(events, Matcher(AllWildcards, now, dayOf));
  }

  /** Re-filtering the output with the same spec and time changes nothing. */
  lemma FilterEventsIdempotent(events: seq<Event>, spec: FilterSpec, now: int, dayOf: int -> int)
    ensures FilterEvents(FilterEvents(events, spec, now, dayOf), spec, now, dayOf)
         == FilterEvents(events, spec, now, dayOf)
  {
    FilterIdempotent(events, Matcher(spec, now, dayOf));
  }

  /** A single event is kept exactly when it satisfies all four checks on its own. */
  lemma SingleEventKeptIff(e: Event, spec: FilterSpec, now: int, dayOf: int -> int)
    ensures FilterEvents([e], spec, now, dayOf) == (if Matches(e, spec, now, dayOf) then [e] else [])
    ensures FilterEvents([e], spec, now, dayOf) == [e] <==>
      ThemePasses(e, spec.theme) && PlatformPasses(e, spec.platform)
      && ModePasses(e, spec.mode) && DatePasses(e, spec.date, now, dayOf)
  {
    assert [e][1..] == [];
  }

  /** The platform field's two wildcards select the same events. */
  lemma EmptyPlatformIsWildcard(events: seq<Event>, spec: FilterSpec, now: int, dayOf: int -> int)
    ensures FilterEvents(events, spec.(platform := ""), now, dayOf)
         == FilterEvents(events, spec.(platform := "all"), now, dayOf)
  {
    FilterExtensional(events, Matcher(spec.(platform := ""), now, dayOf),
                      Matcher(spec.(platform := "all"), now, dayOf));
  }

  /** The week and month buckets start at now: an event that has already started is
      excluded; both window ends are included; a start in this week's window is also in
      this month's. */
  lemma DateWindows(e: Event, now: int, dayOf: int -> int)
    ensures e.date < now ==> !DatePasses(e, Week, now, dayOf) && !DatePasses(e, Month, now, dayOf)
    ensures e.date == now ==> DatePasses(e, Week, now, dayOf) && DatePasses(e, Month, now, dayOf)
    ensures e.date == now + 604_800_000 ==> DatePasses(e, Week, now, dayOf)
    ensures e.date == now + 604_800_001 ==> !DatePasses(e, Week, now, dayOf)
    ensures e.date == now + 2_592_000_000 ==> DatePasses(e, Month, now, dayOf)
    ensures e.date == now + 2_592_000_001 ==> !DatePasses(e, Month, now, dayOf)
    ensures DatePasses(e, Week, now, dayOf) ==> DatePasses(e, Month, now, dayOf)
  {
  }

  /** What the grid renders. */
  datatype GridView = Spinner | NoEventsFound | Cards(shown: seq<Event>)

  /** The spinner while loading, then the "No Events Found" notice for an empty result,
      which is not an error, and otherwise one card per filtered event. */
  function View(isLoading: bool, events: seq<Event>, spec: FilterSpec, now: int, dayOf: int -> int): (v: GridView)
    ensures v.Spinner? <==> isLoading
    ensures v.NoEventsFound? <==> !isLoading && FilterEvents(events, spec, now, dayOf) == []
    ensures v.Cards? ==> v.shown == FilterEvents(events, spec, now, dayOf) && v.shown != []
  {
    if isLoading then Spinner
    else
      var shown := FilterEvents(events, spec, now, dayOf);
      if shown == [] then NoEventsFound else Cards(shown)
  }

  /** The grid's state cells: the favourites set, the event shown in the modal and
      whether the modal is open. */
  class GridState {
    var favorites: set<string>
    var selectedEvent: Option<Event>
    var isModalOpen: bool

    constructor ()
      ensures favorites == {} && selectedEvent == None && !isModalOpen
    {
      favorites, selectedEvent, isModalOpen := {}, None, false;
    }

    /** `handleDetailsClick`. */
    method HandleDetailsClick(e: Event)
      modifies this
      ensures selectedEvent == Some(e) && isModalOpen
      ensures favorites == old(favorites)
    {
      selectedEvent := Some(e);
      isModalOpen := true;
    }

    /** The modal's `onClose`. */
    method CloseModal()
      modifies this
      ensures !isModalOpen
      ensures selectedEvent == old(selectedEvent) && favorites == old(favorites)
    {
      isModalOpen := false;
    }

    /** `handleFavoriteToggle`. */
    method HandleFavoriteToggle(id: string)
      modifies this
      ensures favorites == Favorites.Toggle(old(favorites), id)
      ensures selectedEvent == old(selectedEvent) && isModalOpen == old(isModalOpen)
    {
      favorites := Favorites.Toggle(favorites, id);
    }

    /** Whether a card shows as favourited. */
    function IsFavorited(e: Event): (b: bool)
      reads this
      ensures b <==> e.id in favorites
    {
      e.id in favorites
    }
  }
}
