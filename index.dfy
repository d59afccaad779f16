/** The landing page (src/pages/Index.tsx): one events array, held by the page, is handed
    both to the event grid and to the "Top Viewed" section. The grid renders first and
    filters whatever order the array has; the section then ranks that same array in place,
    so every later render of the grid filters the ranked order. */
module IndexPage {
  import opened EventTypes
  import opened Seqs
  import opened Ranking
  import EventGrid
  import TopViewedSection

  /** One render of the page: the grid's cards from the array as it stands, then the
      section's six cards, which leave the shared array ranked by view count. */
  method Render(events: array<Event>, spec: FilterSpec, now: int, dayOf: int -> int,
                section: TopViewedSection.TopViewed)
    returns (grid: seq<Event>, top: seq<Event>)
    modifies events
    ensures grid == EventGrid.FilterEvents(old(events[..]), spec, now, dayOf)
    ensures top == TopN(old(events[..]), TopViewedSection.ViewCount, TopViewedSection.TOP_COUNT)
    ensures events[..] == SortDesc(old(events[..]), TopViewedSection.ViewCount)
  {
    grid := EventGrid.FilterEvents(events[..], spec, now, dayOf);
    top := section.TopViewedEvents(events);
  }

  /** Two renders with the same array. The grid memoizes its output on the array and the
      filters object (`useMemo(..., [events, filters])`); ranking in place keeps the array's
      identity, so the second grid is recomputed, over the ranked array, only when the
      filter bar handed down a new filters object. Otherwise the first grid is shown again,
      in the original order. Ranking again changes nothing. */
  method RenderTwice(events: array<Event>, spec1: FilterSpec, spec2: FilterSpec, filtersChanged: bool,
                     now: int, dayOf: int -> int, section: TopViewedSection.TopViewed)
    returns (grid1: seq<Event>, grid2: seq<Event>, top2: seq<Event>)
    requires !filtersChanged ==> spec2 == spec1
    modifies events
    ensures grid1 == EventGrid.FilterEvents(old(events[..]), spec1, now, dayOf)
    ensures grid2 == if filtersChanged
                     then EventGrid.FilterEvents(SortDesc(old(events[..]), TopViewedSection.ViewCount), spec2, now, dayOf)
                     else grid1
    ensures top2 == TopN(old(events[..]), TopViewedSection.ViewCount, TopViewedSection.TOP_COUNT)
    ensures events[..] == SortDesc(old(events[..]), TopViewedSection.ViewCount)
  {
    var top1;
    grid1, top1 := Render(events, spec1, now, dayOf, section);
    if filtersChanged {
      grid2 := EventGrid.FilterEvents(events[..], spec2, now, dayOf);
    } else {
      grid2 := grid1;
    }
    top2 := section.TopViewedEvents(events);
    SortDescIdempotent(old(events[..]), TopViewedSection.ViewCount);
  }

  /** A grid over the ranked array holds the same cards as a grid over the array in its
      original order, but lists them most viewed first. */
  lemma LaterGridInViewOrder(events: seq<Event>, spec: FilterSpec, now: int, dayOf: int -> int)
    ensures multiset(EventGrid.FilterEvents(SortDesc(events, TopViewedSection.ViewCount), spec, now, dayOf))
         == multiset(EventGrid.FilterEvents(events, spec, now, dayOf))
    ensures forall i, j :: 0 <= i < j < |EventGrid.FilterEvents(SortDesc(events, TopViewedSection.ViewCount), spec, now, dayOf)| ==>
      EventGrid.FilterEvents(SortDesc(events, TopViewedSection.ViewCount), spec, now, dayOf)[i].viewCount
      >= EventGrid.FilterEvents(SortDesc(events, TopViewedSection.ViewCount), spec, now, dayOf)[j].viewCount
  {
    var ranked := SortDesc(events, TopViewedSection.ViewCount);
    var m := EventGrid.Matcher(spec, now, dayOf);
    SortDescPermutes(events, TopViewedSection.ViewCount);
    SortDescSorted(events, TopViewedSection.ViewCount);
    FilterPermutation(ranked, events, m);
    FilterKeepsSorted(ranked, TopViewedSection.ViewCount, m);
  }
}
