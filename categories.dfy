/** The categories page (src/pages/Categories.tsx): five category cards with counts, a
    category click that presets the filters, an optional row of platform buttons, and the
    event grid fed with the category's pre-filtered events. Category ids are the strings
    the cards carry; any other id behaves like `'all'`. */
module CategoriesPage {
  import opened EventTypes
  import opened Seqs
  import EventGrid

  predicate IsTrending(e: Event) { e.isTrending }
  predicate IsPopular(e: Event) { e.isPopular }

  /** `e.location` is truthy: present and not the empty string. */
  predicate HasLocation(e: Event) { e.location.Some? && e.location.value != "" }

  /** The filter values a category click installs. */
  function CategoryPreset(categoryId: string): (spec: FilterSpec)
    ensures spec.theme == AnyTheme && spec.platform == "all"
    ensures spec.date == (if categoryId == "dates" then Week else AnyDate)
    ensures spec.mode == (if categoryId == "places" then OneMode(Offline) else AnyMode)
  {
    if categoryId == "dates" then AllWildcards.(date := Week)
    else if categoryId == "places" then AllWildcards.(mode := OneMode(Offline))
    else AllWildcards
  }

  /** `getFilteredEvents`: the trending and popular categories narrow the list before the
      grid's own filters; every other category passes it through. */
  function PreFilter(events: seq<Event>, categoryId: string): (r: seq<Event>)
    ensures |r| <= |events|
    ensures categoryId == "trending" ==> forall i :: 0 <= i < |r| ==> r[i].isTrending
    ensures categoryId == "popular" ==> forall i :: 0 <= i < |r| ==> r[i].isPopular
    ensures categoryId != "trending" && categoryId != "popular" ==> r == events
  {
    if categoryId == "trending" then Filter(events, IsTrending)
    else if categoryId == "popular" then Filter(events, IsPopular)
    else events
  }

  /** The trending and popular pre-filters keep exactly the flagged events, each at most
      as often as the input holds it, at increasing positions of the input. */
  lemma PreFilterExact(events: seq<Event>, categoryId: string)
    ensures categoryId == "trending" ==>
      forall e :: e in PreFilter(events, categoryId) <==> e in events && e.isTrending
    ensures categoryId == "popular" ==>
      forall e :: e in PreFilter(events, categoryId) <==> e in events && e.isPopular
    ensures multiset(PreFilter(events, categoryId)) <= multiset(events)
  {
    if categoryId == "trending" || categoryId == "popular" {
      var p := if categoryId == "trending" then IsTrending else IsPopular;
      assert PreFilter(events, categoryId) == Filter(events, p);
      FilterMembers(events, p);
      FilterMultiset(events, p);
      forall e | e in events && p(e) ensures e in Filter(events, p) {
        var i :| 0 <= i < |events| && events[i] == e;
      }
    }
  }

  /** The badge counts of the five cards, in card order. */
  datatype CategoryCounts = CategoryCounts(platforms: nat, dates: nat, places: nat, trending: nat, popular: nat)

  /** The badges: the platforms, all events, and the events with a location, the trending
      and the popular ones; each event count is at most the number of events. */
  function Counts(events: seq<Event>, platforms: seq<Platform>): (c: CategoryCounts)
    ensures c.platforms == |platforms| && c.dates == |events|
    ensures c.places == |Filter(events, HasLocation)|
    ensures c.trending == |Filter(events, IsTrending)| && c.popular == |Filter(events, IsPopular)|
    ensures c.places <= |events| && c.trending <= |events| && c.popular <= |events|
  {
    CategoryCounts(|platforms|, |events|, |Filter(events, HasLocation)|,
                   |Filter(events, IsTrending)|, |Filter(events, IsPopular)|)
  }

  /** A count is zero exactly when no event has the property. */
  lemma {:induction false} CountZeroIff(events: seq<Event>, p: Event -> bool)
    ensures |Filter(events, p)| == 0 <==> forall i :: 0 <= i < |events| ==> !p(events[i])
  {
    FilterMembers(events, p);
    if |Filter(events, p)| != 0 {
      var f := Filter(events, p);
      assert f[0] in events;
      var i :| 0 <= i < |events| && events[i] == f[0];
      assert p(events[i]);
    }
  }

  /** The page's two state cells. */
  class CategoriesState {
    var activeCategory: string
    var filters: FilterSpec

    constructor ()
      ensures activeCategory == "all" && filters == AllWildcards
    {
      activeCategory, filters := "all", AllWildcards;
    }

    /** `handleCategoryClick`. */
    method HandleCategoryClick(categoryId: string)
      modifies this
      ensures activeCategory == categoryId && filters == CategoryPreset(categoryId)
    {
      activeCategory := categoryId;
      filters := CategoryPreset(categoryId);
    }

    /** A platform button (or "All Platforms" with `'all'`): only the platform field changes. */
    method SelectPlatform(platformId: string)
      modifies this
      ensures filters == old(filters).(platform := platformId)
      ensures activeCategory == old(activeCategory)
    {
      filters := filters.(platform := platformId);
    }

    /** "Clear Filters": back to the initial state. */
    method ClearFilters()
      modifies this
      ensures activeCategory == "all" && filters == AllWildcards
    {
      activeCategory := "all";
      filters := AllWildcards;
    }

    /** The platform buttons show only under the platforms category. */
    function PlatformButtonsShown(): (b: bool)
      reads this
      ensures b <==> activeCategory == "platforms"
    {
      activeCategory == "platforms"
    }

    /** The events the grid renders as cards: the grid's filters over the category's
        pre-filtered list, which is the category's share of what the filters alone show. */
    function Shown(events: seq<Event>, now: int, dayOf: int -> int): (r: seq<Event>)
      reads this
      ensures |r| <= |events|
      ensures r == PreFilter(EventGrid.FilterEvents(events, filters, now, dayOf), activeCategory)
    {
      PreFilterCommutes(events, activeCategory, filters, now, dayOf);
      EventGrid.FilterEvents(PreFilter(events, activeCategory), filters, now, dayOf)
    }
  }

  /** The category's pre-filter and the grid's filters can be applied in either order. */
  lemma PreFilterCommutes(events: seq<Event>, categoryId: string, spec: FilterSpec, now: int, dayOf: int -> int)
    ensures EventGrid.FilterEvents(PreFilter(events, categoryId), spec, now, dayOf)
         == PreFilter(EventGrid.FilterEvents(events, spec, now, dayOf), categoryId)
  {
    var m := EventGrid.Matcher(spec, now, dayOf);
    if categoryId == "trending" {
      FilterCommutes(events, IsTrending, m);
    } else if categoryId == "popular" {
      FilterCommutes(events, IsPopular, m);
    }
  }

  /** Starts between now and a week from now, both ends included. */
  function StartsWithinWeek(now: int): Event -> bool {
    (e: Event) => now <= e.date <= now + EventGrid.WEEK_MS
  }

  predicate IsOffline(e: Event) { e.mode == "Offline" }

  /** Right after a category click, the grid shows: for trending and popular, exactly the
      events the category's badge counts; for dates, exactly the events starting within a
      week; for places, exactly the offline events; for anything else, every event. */
  lemma AfterCategoryClick(events: seq<Event>, categoryId: string, now: int, dayOf: int -> int)
    ensures var shown := EventGrid.FilterEvents(PreFilter(events, categoryId), CategoryPreset(categoryId), now, dayOf);
      && (categoryId == "trending" ==> shown == Filter(events, IsTrending)
                                       && |shown| == Counts(events, []).trending)
      && (categoryId == "popular" ==> shown == Filter(events, IsPopular)
                                      && |shown| == Counts(events, []).popular)
      && (categoryId == "dates" ==> shown == Filter(events, StartsWithinWeek(now)))
      && (categoryId == "places" ==> shown == Filter(events, IsOffline))
      && (categoryId !in {"trending", "popular", "dates", "places"} ==> shown == events)
  {
    var pre := PreFilter(events, categoryId);
    var m := EventGrid.Matcher(CategoryPreset(categoryId), now, dayOf);
    if categoryId == "dates" {
      FilterExtensional(events, m, StartsWithinWeek(now));
    } else if categoryId == "places" {
      FilterExtensional(events, m, IsOffline);
    } else {
      EventGrid.AllWildcardsKeepsEverything(pre, now, dayOf);
    }
  }
}
