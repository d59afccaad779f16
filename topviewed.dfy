/** The "Top Viewed" section (src/components/TopViewedSection.tsx): the six most viewed
    events, ranked by view count. The ranking sorts the events array it was handed in place
    and the section shows the first six entries of that array. */
module TopViewedSection {
  import opened EventTypes
  import opened Ranking
  import Favorites

  /** How many cards the section shows. */
  const TOP_COUNT: nat := 6

  function ViewCount(e: Event): int {
    e.viewCount
  }

  /** The section's favourites set. */
  class TopViewed {
    var favorites: set<string>

    constructor ()
      ensures favorites == {}
    {
      favorites := {};
    }

    /** Ranks `events` in place by descending view count and returns the first six: the
        caller's array is left ranked too. */
    method TopViewedEvents(events: array<Event>) returns (shown: seq<Event>)
      modifies events
      ensures events[..] == SortDesc(old(events[..]), ViewCount)
      ensures shown == TopN(old(events[..]), ViewCount, TOP_COUNT)
    {
      SortInPlace(events, ViewCount);
      if TOP_COUNT < events.Length {
        shown := events[..TOP_COUNT];
      } else {
        shown := events[..];
      }
    }

    /** `handleFavoriteToggle`. */
    method HandleFavoriteToggle(id: string)
      modifies this
      ensures favorites == Favorites.Toggle(old(favorites), id)
    {
      favorites := Favorites.Toggle(favorites, id);
    }
  }

  /** The section shows at most six events, most viewed first; each comes from the input,
      none is viewed less than an event left out, and events with equal counts keep the
      order they had. */
  lemma TopViewedContract(events: seq<Event>)
    ensures |TopN(events, ViewCount, TOP_COUNT)| == if |events| < 6 then |events| else 6
    ensures forall i, j :: 0 <= i < j < |TopN(events, ViewCount, TOP_COUNT)| ==>
      TopN(events, ViewCount, TOP_COUNT)[i].viewCount >= TopN(events, ViewCount, TOP_COUNT)[j].viewCount
    ensures multiset(TopN(events, ViewCount, TOP_COUNT)) <= multiset(events)
    ensures forall e: Event, f: Event ::
      (e in multiset(TopN(events, ViewCount, TOP_COUNT)) && f in multiset(events)
       && f !in multiset(TopN(events, ViewCount, TOP_COUNT))) ==> e.viewCount >= f.viewCount
  {
    var top := TopN(events, ViewCount, TOP_COUNT);
    var ranked := SortDesc(events, ViewCount);
    TopNProperties(events, ViewCount, TOP_COUNT);
    assert SortedDesc(top, ViewCount);
    forall e: Event, f: Event | e in multiset(top) && f in multiset(events) && f !in multiset(top)
      ensures e.viewCount >= f.viewCount
    {
      var rest := ranked[|top|..];
      assert multiset(top) + multiset(rest) == multiset(events);
      assert f in multiset(rest);
      assert f in rest;
      var j :| 0 <= j < |rest| && rest[j] == f;
      assert e in top;
      var i :| 0 <= i < |top| && top[i] == e;
      assert ranked[|top| + j] == f;
    }
  }
}
