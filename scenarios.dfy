/** Concrete scenarios over the fixture catalog of src/data/mockData.ts: five platforms and
    six events. Dates are the fixtures' calendar days as UTC-midnight milliseconds; the
    long texts, links and images play no part in these scenarios and are left empty. */
module Scenarios {
  import opened EventTypes
  import opened Seqs
  import opened Ranking
  import opened RecordMapper
  import EventGrid
  import TopViewedSection
  import CategoriesPage

  const Devfolio: Platform := Platform("devfolio", "Devfolio", "/api/placeholder/40/40", "#3B82F6")
  const HackerEarth: Platform := Platform("hackerearth", "HackerEarth", "/api/placeholder/40/40", "#F59E0B")
  const GitHub: Platform := Platform("github", "GitHub", "/api/placeholder/40/40", "#1F2937")
  const Mlh: Platform := Platform("mlh", "MLH", "/api/placeholder/40/40", "#EF4444")
  const Unstop: Platform := Platform("unstop", "Unstop", "/api/placeholder/40/40", "#8B5CF6")

  /** A fixture event from the fields the scenarios look at. */
  function Fixture(id: string, title: string, platform: Platform, theme: seq<string>, date: int,
                   location: Option<string>, mode: string, trending: bool, popular: bool, views: nat): Event
  {
    Event(id, title, "", "", platform, theme, date, None, "", location, mode, [], "",
          trending, popular, views, 0, None)
  }

  const E1: Event := Fixture("1", "AI Innovation Challenge 2024", Devfolio, ["AI", "Data Science"],
                             1710460800000, Some("San Francisco, CA"), "Hybrid", true, true, 15420)
  const E2: Event := Fixture("2", "Web3 Developer Summit", HackerEarth, ["Web3", "Blockchain", "Fintech"],
                             1711065600000, None, "Online", false, true, 12890)
  const E3: Event := Fixture("3", "Mobile First Hackathon", GitHub, ["Mobile", "Web Development"],
                             1712275200000, Some("Austin, TX"), "Offline", true, false, 8765)
  const E4: Event := Fixture("4", "HealthTech Innovation Lab", Mlh, ["Healthcare", "AI", "Data Science"],
                             1712880000000, None, "Hybrid", false, true, 11234)
  const E5: Event := Fixture("5", "Sustainable Tech Challenge", Unstop, ["Sustainability", "IoT", "Data Science"],
                             1713571200000, None, "Online", true, false, 9876)
  const E6: Event := Fixture("6", "GameDev Jam 2024", Devfolio, ["Gaming", "Web Development"],
                             1714694400000, Some("Seattle, WA"), "Offline", false, false, 6543)

  const MockEvents: seq<Event> := [E1, E2, E3, E4, E5, E6]

  function Ids(es: seq<Event>): (ids: seq<string>)
    ensures |ids| == |es| && forall i :: 0 <= i < |es| ==> ids[i] == es[i].id
  {
    seq(|es|, i requires 0 <= i < |es| => es[i].id)
  }

  /** Selecting mode Online, with every other field `'all'`, keeps events 2 and 5. */
  lemma OnlineModeKeepsTwoAndFive(now: int, dayOf: int -> int)
    ensures Ids(EventGrid.FilterEvents(MockEvents, AllWildcards.(mode := OneMode(Online)), now, dayOf)) == ["2", "5"]
  {
    var p := EventGrid.Matcher(AllWildcards.(mode := OneMode(Online)), now, dayOf);
    assert !p(E1) && p(E2) && !p(E3) && !p(E4) && p(E5) && !p(E6);
    FilterSix(E1, E2, E3, E4, E5, E6, p);
  }

  /** `x` if it passes, else nothing. */
  function Pick<T>(x: T, p: T -> bool): seq<T> {
    if p(x) then [x] else []
  }

  /** Filtering six elements is deciding each in turn. */
  lemma FilterSix<T>(a: T, b: T, c: T, d: T, e: T, f: T, p: T -> bool)
    ensures Filter([a, b, c, d, e, f], p)
         == Pick(a, p) + (Pick(b, p) + (Pick(c, p) + (Pick(d, p) + (Pick(e, p) + Pick(f, p)))))
  {
    FilterCons(f, [], p);
    assert [f] + [] == [f];
    FilterCons(e, [f], p);
    assert [e] + [f] == [e, f];
    FilterCons(d, [e, f], p);
    assert [d] + [e, f] == [d, e, f];
    FilterCons(c, [d, e, f], p);
    assert [c] + [d, e, f] == [c, d, e, f];
    FilterCons(b, [c, d, e, f], p);
    assert [b] + [c, d, e, f] == [b, c, d, e, f];
    FilterCons(a, [b, c, d, e, f], p);
    assert [a] + [b, c, d, e, f] == [a, b, c, d, e, f];
  }

  /** One unfolding of the filter. */
  lemma FilterCons<T>(x: T, s: seq<T>, p: T -> bool)
    ensures Filter([x] + s, p) == Pick(x, p) + Filter(s, p)
  {
    assert ([x] + s)[0] == x && ([x] + s)[1..] == s;
  }

  /** The fixtures ranked by views: 1, 2, 4, 5, 3, 6, which is the whole top-six list. */
  lemma TopViewedOrder()
    ensures Ids(TopN(MockEvents, TopViewedSection.ViewCount, TopViewedSection.TOP_COUNT)) == ["1", "2", "4", "5", "3", "6"]
  {
    var key := TopViewedSection.ViewCount;
    assert MockEvents[..5] == [E1, E2, E3, E4, E5];
    assert [E1, E2, E3, E4, E5][..4] == [E1, E2, E3, E4];
    assert [E1, E2, E3, E4][..3] == [E1, E2, E3];
    assert [E1, E2, E3][..2] == [E1, E2];
    assert [E1, E2][..1] == [E1];
    assert [E1][..0] == [];
    assert SortDesc([E1], key) == [E1] by { assert InsertDesc([], E1, key) == [E1]; }
    assert SortDesc([E1, E2], key) == [E1, E2];
    assert SortDesc([E1, E2, E3], key) == [E1, E2, E3];
    assert SortDesc([E1, E2, E3, E4], key) == [E1, E2, E4, E3] by {
      assert [E1, E2, E3][..2] == [E1, E2];
      assert InsertDesc([E1, E2], E4, key) == [E1, E2, E4];
    }
    assert SortDesc([E1, E2, E3, E4, E5], key) == [E1, E2, E4, E5, E3] by {
      assert [E1, E2, E4, E3][..3] == [E1, E2, E4];
      assert InsertDesc([E1, E2, E4], E5, key) == [E1, E2, E4, E5];
    }
    assert SortDesc(MockEvents, key) == [E1, E2, E4, E5, E3, E6];
  }

  /** Three fixtures have a location (1, 3, 6), three are trending (1, 3, 5) and three are
      popular (1, 2, 4): with five platforms and six events the badges read 5, 6, 3, 3, 3. */
  lemma CategoryBadges()
    ensures CategoriesPage.Counts(MockEvents, [Devfolio, HackerEarth, GitHub, Mlh, Unstop])
         == CategoriesPage.CategoryCounts(5, 6, 3, 3, 3)
  {
    WithLocation();
    Trending();
    Popular();
  }

  /** The fixtures with a location. */
  lemma WithLocation()
    ensures Filter(MockEvents, CategoriesPage.HasLocation) == [E1, E3, E6]
  {
    assert E1.location.value != "" && E3.location.value != "" && E6.location.value != "";
    FilterSix(E1, E2, E3, E4, E5, E6, CategoriesPage.HasLocation);
  }

  /** The trending fixtures. */
  lemma Trending()
    ensures Filter(MockEvents, CategoriesPage.IsTrending) == [E1, E3, E5]
  {
    FilterSix(E1, E2, E3, E4, E5, E6, CategoriesPage.IsTrending);
  }

  /** The popular fixtures. */
  lemma Popular()
    ensures Filter(MockEvents, CategoriesPage.IsPopular) == [E1, E2, E4]
  {
    FilterSix(E1, E2, E3, E4, E5, E6, CategoriesPage.IsPopular);
  }

  /** Two events on the 15th (Hybrid) and the 22nd (Online) of March 2024: the Online mode
      keeps only the second. */
  lemma OnlineOfTwo(now: int, dayOf: int -> int)
    ensures EventGrid.FilterEvents([E1, E2], AllWildcards.(mode := OneMode(Online)), now, dayOf) == [E2]
  {
    var p := EventGrid.Matcher(AllWildcards.(mode := OneMode(Online)), now, dayOf);
    assert !p(E1) && p(E2);
    FilterCons(E2, [], p);
    FilterCons(E1, [E2], p);
    assert [E1] + [E2] == [E1, E2] && [E2] + [] == [E2];
  }

  /** View counts 100, 500 and 50: the top two are 500 then 100. */
  lemma TopTwoOfThree(a: Event)
    ensures TopN([a.(viewCount := 100), a.(viewCount := 500), a.(viewCount := 50)], TopViewedSection.ViewCount, 2)
         == [a.(viewCount := 500), a.(viewCount := 100)]
  {
    var key := TopViewedSection.ViewCount;
    var x, y, z := a.(viewCount := 100), a.(viewCount := 500), a.(viewCount := 50);
    assert [x, y, z][..2] == [x, y];
    assert [x, y][..1] == [x];
    assert [x][..0] == [];
    assert SortDesc([x], key) == [x] by { assert InsertDesc([], x, key) == [x]; }
    assert SortDesc([x, y], key) == [y, x] by {
      assert [x][..0] == [];
      assert InsertDesc([], y, key) == [y];
      assert InsertDesc([x], y, key) == [y, x];
    }
    assert SortDesc([x, y, z], key) == [y, x, z];
  }

  /** A row whose platform join is missing fails the mapper instead of producing a
      half-filled event, and the whole list fails with it. */
  lemma MissingPlatformFails(r: RawRow, good: RawRow)
    requires r.platform.None? && good.platform.Some?
    ensures MapRow(r) == Err(MissingPlatform(r.id))
    ensures MapRows([good, r]) == Err(MissingPlatform(r.id))
  {
    assert [good, r][1..] == [r];
    assert [r][1..] == [];
  }
}
