# Hackathon finder: the event catalog, modelled in Dafny

The repository is a browser front-end that lists tech events and hackathons. A hosted
backend does the storage, authentication and file uploads. The front-end's own logic is a
small, sequential catalog layer. This project models that layer and proves its
properties:

- the shapes of events, platforms, theme tags and the four-field filter specification;
- the record mapper that turns joined backend rows into events;
- the grid's filter engine: theme, platform, mode and date bucket, combined with AND;
- the favourites toggle;
- the "top viewed" ranking, which sorts the caller's array in place by view count,
  stably and in descending order, and then takes the first six (the dashboard takes five);
- the data hook's loading state machine;
- the categories page: presets, pre-filters and badge counts;
- the filter bar's single-field edits and option lists;
- the two admin forms: the theme list, the payload, the image merge and the platform-id
  slug;
- the dashboard's statistics and session gate;
- the derivations of the event card and of the detail page;
- the landing page, where the grid and the top-viewed section share one events array.

Every backend call is an input. A query is either failed, or successful with data that
may be null. An upload yields a URL or fails. A session and a profile role are given. The
current time `now` is an integer of milliseconds. "Same local calendar day" is a
function parameter `dayOf`, because the host's time zone decides it. One module stands
for each source file; the module names say which.

Modelling choices:

- An event's `theme` is kept as a sequence of strings and its `mode` as a string. The
  mapper copies both columns unchecked, and the admin form accepts free-text tags.
  `EventTypes.WellTyped` states what the TypeScript types promise. The filter
  specification uses typed choices (`ThemeChoice`, `DateBucket`, `ModeChoice`). Its
  platform field stays a string.
- Classes hold the cells that the source's handlers overwrite. This covers the grid's
  favourites and modal cells, the data hook's four cells, the categories page, the two
  forms, the dashboard, the detail page and the card's hover flag. Their methods state
  the whole new state.
- The in-place sorts are methods on an `array`. They are proved equal to `SortDesc`, the
  stable descending order defined by insertion. The properties are proved about
  `SortDesc`: sorted, a permutation, stable, and the only order that is both sorted and
  stable.

Points where one might expect other behaviour, and what the code does instead:

- One might expect the ranking to sort a copy. The code sorts the caller's `events`
  array in place (TopViewedSection.tsx:14-15, AdminDashboard.tsx:469-471), and so does
  the model.
- One might expect a "last request wins" guard for overlapping loads. The code has none
  (useEvents.ts:71-89). The model has none either, and a load is one `LoadData` call.
- One might expect either failed fetch to fail the whole load. The code turns a failed
  platforms query into an empty list (useEvents.ts:11-24, `EventsLoader.FetchPlatforms`).
  Only the events fetch can fail the load.
- One might expect the mapper to reject rows without id, title or date. The code only
  throws when the platform join is missing (useEvents.ts:38-62). `RecordMapper.MapRow`
  fails in that case only.
- One might expect `'all'` to be the only wildcard. The code also treats the empty
  string as a wildcard for platform and theme, but not for mode (EventGrid.tsx:22-34).
  The typed theme choice cannot be empty. For the platform,
  `EventGrid.EmptyPlatformIsWildcard` states this.

## Model

| member | source | states |
|---|---|---|
| `EventTypes.OrElse` | src/components/PlatformForm.tsx:27-30 | `value \|\| fallback` gives the fallback exactly for null, undefined, the empty string or the fallback itself, and otherwise gives the value |
| `EventTypes.ParseTheme` | src/types/event.ts:29-42 | a string is read back as a tag only if it is that tag's literal; no tag has any other literal |
| `EventTypes.ThemesAreThirteen` | src/types/event.ts:29-42 | the tag list has 13 entries, holds every tag, and holds each tag once |
| `EventTypes.ThemeNameRoundTrip` | src/types/event.ts:29-42 | every tag is parsed back from its own literal |
| `EventTypes.ParseMode` | src/types/event.ts:12 | only "Online", "Offline" and "Hybrid" are modes |
| `EventTypes.ModeIsExactlyOne` | src/types/event.ts:12 | a well-typed event's mode is exactly one of the three |
| `RecordMapper.CollegeOf` | src/hooks/useEvents.ts:61 | college becomes undefined exactly when the column is null or empty, and is copied otherwise |
| `RecordMapper.MapRow` | src/hooks/useEvents.ts:38-62 | fails iff the platform join is missing; otherwise it copies the joined platform's four fields; college is absent iff the column is null or empty |
| `RecordMapper.MapRowIsRenaming` | src/hooks/useEvents.ts:39-61 | the mapper is a renaming: an event comes back from its own row, and a joined row comes back from its event, except for the null/empty college distinction |
| `RecordMapper.MapRows` | src/hooks/useEvents.ts:38-62 | one event per row, in row order, each the mapper's image of its row; fails iff some row lacks its platform, and then with the first such row's error |
| `RecordMapper.MapData` | src/hooks/useEvents.ts:38 | null data maps to the empty list |
| `RecordMapper.MapDetailRow` | src/pages/EventDetail.tsx:37-60 | the detail mapper fails exactly when the list mapper does, and otherwise gives the same event without a college |
| `Seqs.Filter` | src/components/EventGrid.tsx:20 | `Array.prototype.filter`: no longer than the input, and every kept element passes |
| `Seqs.FilterIsSubsequence` | src/components/EventGrid.tsx:20 | the output sits at strictly increasing positions of the input and misses no passing element |
| `Seqs.FilterIdempotent` | src/components/EventGrid.tsx:20 | filtering twice with the same predicate equals filtering once |
| `Seqs.FilterCommutes` | src/pages/Categories.tsx:191-195 | two filters applied one after the other give the same list in either order (the page's pre-filter and the grid's filter) |
| `Seqs.FilterPermutation` | src/components/TopViewedSection.tsx:14-15 | lists holding the same elements in another order filter to the same elements |
| `Seqs.SumBounds` | src/pages/AdminDashboard.tsx:191 | a sum of non-negative counts is non-negative, at least each summand, and zero iff every summand is zero |
| `EventGrid.FilterEvents` | src/components/EventGrid.tsx:19-57 | the grid's output is no longer than its input, and every shown event passes all four checks |
| `EventGrid.FilterEventsIsSubsequence` | src/components/EventGrid.tsx:19-57 | the output is exactly the subsequence of matching events, in input order; nothing is added or duplicated |
| `EventGrid.AllWildcardsKeepsEverything` | src/components/EventGrid.tsx:22-37 | with all four fields `'all'` the output equals the input |
| `EventGrid.FilterEventsIdempotent` | src/components/EventGrid.tsx:20-55 | re-filtering the output with the same spec and time changes nothing |
| `EventGrid.SingleEventKeptIff` | src/components/EventGrid.tsx:20-55 | `[e]` is kept iff e passes the theme, platform, mode and date checks on its own |
| `EventGrid.EmptyPlatformIsWildcard` | src/components/EventGrid.tsx:27-29 | an empty platform selects the same events as `'all'` |
| `EventGrid.DateWindows` | src/components/EventGrid.tsx:44-49 | week and month start at now, so started events are excluded; both ends are inclusive (604 800 000 and 2 592 000 000 ms); the week window lies within the month window |
| `EventGrid.View` | src/components/EventGrid.tsx:76-103 | a spinner while loading, "No Events Found" iff nothing matches, otherwise one card per filtered event |
| `EventGrid.GridState.constructor` | src/components/EventGrid.tsx:14-16 | no favourites, no selected event, modal closed |
| `EventGrid.GridState.HandleDetailsClick` | src/components/EventGrid.tsx:59-62 | selects the event and opens the modal; favourites unchanged |
| `EventGrid.GridState.CloseModal` | src/components/EventGrid.tsx:121 | closes the modal and changes nothing else |
| `EventGrid.GridState.HandleFavoriteToggle` | src/components/EventGrid.tsx:64-74 | favourites become the toggle of the old set; the modal cells are unchanged |
| `EventGrid.GridState.IsFavorited` | src/components/EventGrid.tsx:112 | a card is shown as favourited iff its id is in the set |
| `Favorites.Toggle` | src/components/EventGrid.tsx:64-74 | an absent id is added and a present one removed, every other id keeps its membership, and the size moves by one |
| `Favorites.ToggleTwice` | src/components/TopViewedSection.tsx:18-28 | toggling the same id twice restores the set |
| `Ranking.SortDescSorted` | src/components/TopViewedSection.tsx:14-15 | the ranked order is non-increasing in the key |
| `Ranking.SortDescPermutes` | src/components/TopViewedSection.tsx:14-15 | ranking only reorders: the same multiset |
| `Ranking.SortDescStable` | src/components/TopViewedSection.tsx:15 | elements sharing a key keep their input order (the sort is stable) |
| `Ranking.StableSortedUnique` | src/components/TopViewedSection.tsx:15 | only one list is both sorted by the key and stable, whatever the sorting algorithm |
| `Ranking.TopN` | src/components/TopViewedSection.tsx:16 | `slice(0, n)` of the ranking has length min(n, count) |
| `Ranking.TopNProperties` | src/components/TopViewedSection.tsx:14-16 | the top n is sorted and drawn from the input; no shown element ranks below one left out; within a key it keeps input order |
| `Ranking.SortDescIdempotent` | src/components/TopViewedSection.tsx:14-15 | ranking an already ranked array changes nothing |
| `Ranking.FilterKeepsSorted` | src/components/TopViewedSection.tsx:14-15 | filtering a ranked list leaves it ranked |
| `Ranking.SortInPlace` | src/components/TopViewedSection.tsx:14-15 | the caller's array ends up in the stable descending order of its old contents |
| `TopViewedSection.TopViewed.constructor` | src/components/TopViewedSection.tsx:11 | the section starts with no favourites |
| `TopViewedSection.TopViewed.TopViewedEvents` | src/components/TopViewedSection.tsx:14-16 | ranks the handed array in place and shows its first six entries |
| `TopViewedSection.TopViewed.HandleFavoriteToggle` | src/components/TopViewedSection.tsx:18-28 | favourites become the toggle of the old set |
| `TopViewedSection.TopViewedContract` | src/components/TopViewedSection.tsx:14-16 | the list has min(6, count) events, is non-increasing in views, is drawn from the input, and no shown event has fewer views than one left out |
| `IndexPage.Render` | src/pages/Index.tsx:57-65 | the grid filters the shared array as it stands, then the section shows its top six and leaves the shared array ranked by views |
| `IndexPage.RenderTwice` | src/pages/Index.tsx:57-65 | on the next render the grid re-filters, over the ranked array, only when a new filters object arrived; otherwise its memo shows the first grid again in the original order; the section's six and the array's order do not change again |
| `IndexPage.LaterGridInViewOrder` | src/pages/Index.tsx:57-65 | a grid over the ranked array shows the same events as over the original order, most viewed first |
| `EventsLoader.FetchPlatforms` | src/hooks/useEvents.ts:11-24 | never fails: a failed query or null data gives the empty list, and successful data is passed through |
| `EventsLoader.FetchEvents` | src/hooks/useEvents.ts:26-69 | fails on a query error or any row without its platform; otherwise one mapped event per row, and null data gives none |
| `EventsLoader.Loader.constructor` | src/hooks/useEvents.ts:6-9 | no events, no platforms, loading, no error |
| `EventsLoader.Loader.BeginLoad` | src/hooks/useEvents.ts:73-74 | loading is raised and the error cleared before any result; the lists are untouched |
| `EventsLoader.Loader.FinishLoad` | src/hooks/useEvents.ts:76-88 | on success both lists are replaced wholesale; on failure both stay and the fixed message is set; loading ends either way |
| `EventsLoader.Loader.LoadData` | src/hooks/useEvents.ts:71-89 | one whole load: success replaces the lists with no error, failure keeps them with "Failed to load events. Please try again."; never loading afterwards |
| `CategoriesPage.CategoryPreset` | src/pages/Categories.tsx:71-86 | "dates" gives date week, "places" gives mode Offline, and every other field (and every other category) is `'all'` |
| `CategoriesPage.PreFilter` | src/pages/Categories.tsx:89-99 | trending and popular keep only flagged events; other categories pass the list through unchanged |
| `CategoriesPage.PreFilterExact` | src/pages/Categories.tsx:89-99 | trending and popular keep exactly the flagged events, none more often than in the input |
| `CategoriesPage.Counts` | src/pages/Categories.tsx:25-66 | each badge equals the number of platforms, of events, and of events with a non-empty location, the trending flag or the popular flag; each event-based count is at most the total |
| `CategoriesPage.CountZeroIff` | src/pages/Categories.tsx:47-63 | a badge reads zero iff no event has the property |
| `CategoriesPage.CategoriesState.constructor` | src/pages/Categories.tsx:17-23 | category `'all'` with the all-wildcard spec |
| `CategoriesPage.CategoriesState.HandleCategoryClick` | src/pages/Categories.tsx:68-87 | the clicked category becomes active and its preset becomes the spec |
| `CategoriesPage.CategoriesState.SelectPlatform` | src/pages/Categories.tsx:150-160 | only the spec's platform field changes |
| `CategoriesPage.CategoriesState.ClearFilters` | src/pages/Categories.tsx:182-185 | back to category `'all'` with the all-wildcard spec |
| `CategoriesPage.CategoriesState.PlatformButtonsShown` | src/pages/Categories.tsx:146 | platform buttons show iff the platforms category is active |
| `CategoriesPage.CategoriesState.Shown` | src/pages/Categories.tsx:191-195 | the grid shows at most the loaded events, namely the active category's share of what the spec alone would show |
| `CategoriesPage.PreFilterCommutes` | src/pages/Categories.tsx:89-99 | pre-filtering by category and then filtering by the spec equals filtering by the spec and then pre-filtering |
| `CategoriesPage.AfterCategoryClick` | src/pages/Categories.tsx:68-99 | right after a click the grid shows exactly the trending or popular events (as many as the badge), exactly the events starting between now and a week from now, exactly the Offline events, or everything |
| `FilterBar.ResetFilters` | src/components/FilterBar.tsx:20-27 | all four fields are `'all'` |
| `FilterBar.SetTheme` | src/components/FilterBar.tsx:55-57 | only the theme field changes |
| `FilterBar.SetPlatform` | src/components/FilterBar.tsx:76-78 | only the platform field changes |
| `FilterBar.SetDate` | src/components/FilterBar.tsx:98-100 | only the date field changes |
| `FilterBar.SetMode` | src/components/FilterBar.tsx:118-120 | only the mode field changes |
| `FilterBar.SettersAreIndependent` | src/components/FilterBar.tsx:55-120 | edits of different fields commute, a later edit of a field overrides an earlier one, re-choosing a value is a no-op, and setting all four to wildcards is the reset |
| `FilterBar.PlatformOptions` | src/components/FilterBar.tsx:84-89 | "All Platforms" first, then one entry per platform whose id is non-blank, in input order, with its id and name |
| `FilterBar.PlatformOptionsExact` | src/components/FilterBar.tsx:85 | no entry's id trims to empty, and every platform whose id does not trim to empty gets an entry |
| `FilterBar.ThemeOptions` | src/components/FilterBar.tsx:14-18 | `'all'` followed by the 13 tags in union order |
| `FilterBar.ThemeOptionsComplete` | src/components/FilterBar.tsx:14-18 | 14 distinct entries covering every choice |
| `FilterBar.DateAndModeOptionsExact` | src/components/FilterBar.tsx:106-129 | the choices are exactly all/today/week/month and all/Online/Offline/Hybrid, each once |
| `Text.TrimEmptyIff` | src/components/FilterBar.tsx:85 | `trim()` gives the empty string iff every character is ECMAScript whitespace or a line terminator |
| `Text.Lower` | src/components/PlatformForm.tsx:75 | `A`-`Z` become the letter 32 code points on, which is not upper-case; every other character is unchanged |
| `EventFormModel.Populated` | src/components/EventForm.tsx:54-69 | opening with an event copies each column with `''`, `[]` or `false` defaults and leaves the pending theme and chosen files alone |
| `EventFormModel.AddedThemes` | src/components/EventForm.tsx:94-99 | appends a non-empty, unlisted tag and otherwise changes nothing; keeps the list duplicate-free and grows it by at most one |
| `EventFormModel.RemovedThemes` | src/components/EventForm.tsx:101-103 | the tag no longer occurs |
| `EventFormModel.RemoveThemeLaws` | src/components/EventForm.tsx:101-103 | every other tag keeps its membership, duplicate-freedom is kept, nothing is added, and removing a just-added tag restores the list |
| `EventFormModel.NullIfEmpty` | src/components/EventForm.tsx:128 | `x \|\| null` is null exactly for the empty string |
| `EventFormModel.BaseData` | src/components/EventForm.tsx:122-138 | title, both descriptions, platform id, organizer, link and both flags are copied; end date, location and college are null exactly when empty ("none" is stored as is); an edit carries the stored images, a create starts with none |
| `EventFormModel.UntouchedEditWritesBack` | src/components/EventForm.tsx:54-73 | opening a stored event and submitting it untouched writes back its columns, except that empty strings become null |
| `EventFormModel.UploadAll` | src/components/EventForm.tsx:105-114 | one URL per file in file order, or the position of the first failed upload |
| `EventFormModel.UploadEventImages` | src/components/EventForm.tsx:105-114 | the upload loop computes `UploadAll` |
| `EventFormModel.MergeImages` | src/components/EventForm.tsx:149-177 | an edit keeps the stored images and appends the new URLs after them; a create stores the URLs alone |
| `EventFormModel.EventFormState.constructor` | src/components/EventForm.tsx:22-38 | every cell empty and not loading |
| `EventFormModel.EventFormState.ResetForm` | src/components/EventForm.tsx:75-92 | every cell back to `''`, `[]`, `false` or null |
| `EventFormModel.EventFormState.Populate` | src/components/EventForm.tsx:54-73 | with an event the cells are populated; without one they are reset |
| `EventFormModel.EventFormState.AddTheme` | src/components/EventForm.tsx:94-99 | the list becomes `AddedThemes`, the input is cleared only on success, and no other cell changes |
| `EventFormModel.EventFormState.RemoveTheme` | src/components/EventForm.tsx:101-103 | only the list changes |
| `EventFormModel.EventFormState.HandleSubmit` | src/components/EventForm.tsx:117-190 | an update or insert of the payload, then an image write if files were chosen; success resets the form, failure keeps it; the stored images are old + new on edit and new only on create; loading ends either way |
| `PlatformFormModel.SlugIsClean` | src/components/PlatformForm.tsx:75 | a slug has no whitespace and no upper-case letter, and is no longer than its input |
| `PlatformFormModel.SlugOfClean` | src/components/PlatformForm.tsx:75 | a string without whitespace or capitals is its own slug |
| `PlatformFormModel.SlugIdempotent` | src/components/PlatformForm.tsx:75 | slugging twice is slugging once |
| `PlatformFormModel.SlugLowersWord` | src/components/PlatformForm.tsx:75 | a word without whitespace slugs to itself lowered character by character: each capital becomes its lower-case letter |
| `PlatformFormModel.SlugJoinsWords` | src/components/PlatformForm.tsx:143 | a whitespace run of any length between two words becomes a single `-` |
| `PlatformFormModel.SubmittedData` | src/components/PlatformForm.tsx:74-79 | the submitted id is the slug of the id cell, even when typed by hand, so it is clean and no longer than the input; the other fields are copied |
| `PlatformFormModel.PlatformFormState.constructor` | src/components/PlatformForm.tsx:17-22 | empty text cells, colour `#6366f1`, nothing in progress |
| `PlatformFormModel.PlatformFormState.ResetForm` | src/components/PlatformForm.tsx:36-41 | `''`, `''`, `''`, `#6366f1`; the flags are untouched |
| `PlatformFormModel.PlatformFormState.Populate` | src/components/PlatformForm.tsx:25-34 | copies id, name and logo with `''` defaults and colour with default `#6366f1`, or resets |
| `PlatformFormModel.PlatformFormState.ChangeName` | src/components/PlatformForm.tsx:140-145 | when creating, the id follows as the slug of the name; when editing, the id stays |
| `PlatformFormModel.PlatformFormState.ChangeId` | src/components/PlatformForm.tsx:155-156 | the id input takes effect only when not editing |
| `PlatformFormModel.PlatformFormState.HandleLogoFileChange` | src/components/PlatformForm.tsx:43-67 | without a file, or with an empty id, nothing changes; otherwise an uploaded URL becomes the logo and the upload flag ends down |
| `PlatformFormModel.PlatformFormState.HandleSubmit` | src/components/PlatformForm.tsx:69-120 | one write of the slugged data, an edit matching the original platform id; success resets; loading ends either way |
| `PlatformFormModel.CreatedIdFollowsName` | src/components/PlatformForm.tsx:74-79 | on create, the submitted id is the slug of the last name typed |
| `Dashboard.EventCount` | src/pages/AdminDashboard.tsx:231 | `events?.length \|\| 0` |
| `Dashboard.TotalViews` | src/pages/AdminDashboard.tsx:191 | the sum of the view counts: 0 before loading, at least each event's count, and 0 iff no loaded event has views |
| `Dashboard.TotalViewsAppend` | src/pages/AdminDashboard.tsx:191 | the total over two batches is the sum of their totals |
| `Dashboard.TrendingCount` | src/pages/AdminDashboard.tsx:192 | the number of trending events, at most the event count |
| `Dashboard.PopularCount` | src/pages/AdminDashboard.tsx:193 | the number of popular events, at most the event count |
| `Dashboard.ModeCount` | src/pages/AdminDashboard.tsx:490-502 | 0 before loading, otherwise the number of rows whose mode is the given one; at most the event count |
| `Dashboard.ModeCountsPartition` | src/pages/AdminDashboard.tsx:490-502 | the three mode counts never exceed the total, and add up to it when every mode is one of the three |
| `Dashboard.TopPerforming` | src/pages/AdminDashboard.tsx:469-471 | ranks the loaded array in place and lists its first five rows; nothing before loading |
| `Dashboard.TopPerformingContract` | src/pages/AdminDashboard.tsx:469-471 | at most 5 rows, non-increasing in views, drawn from the loaded rows, none below a row left out |
| `Dashboard.AuthDecision` | src/pages/AdminDashboard.tsx:95-119 | no session redirects; a role other than "admin" is denied; only an admin is authenticated |
| `Dashboard.DashboardState.constructor` | src/pages/AdminDashboard.tsx:33-37 | not authenticated, no form open, nothing being edited |
| `Dashboard.DashboardState.BodyShown` | src/pages/AdminDashboard.tsx:195-204 | the body renders iff authenticated and the events query is not loading |
| `Dashboard.DashboardState.CheckAuth` | src/pages/AdminDashboard.tsx:95-119 | only the admin outcome sets `isAuthenticated`; nothing else changes |
| `Dashboard.DashboardState.OpenNewEvent` | src/pages/AdminDashboard.tsx:279 | opens the event form and changes nothing else |
| `Dashboard.DashboardState.EditEvent` | src/pages/AdminDashboard.tsx:335-336 | opens the event form on the row |
| `Dashboard.DashboardState.CloseEventForm` | src/pages/AdminDashboard.tsx:517-518 | closes the event form and clears the edited row |
| `Dashboard.DashboardState.OpenNewPlatform` | src/pages/AdminDashboard.tsx:389 | opens the platform form and changes nothing else |
| `Dashboard.DashboardState.EditPlatform` | src/pages/AdminDashboard.tsx:418-419 | opens the platform form on the platform |
| `Dashboard.DashboardState.ClosePlatformForm` | src/pages/AdminDashboard.tsx:529-530 | closes the platform form and clears the edited platform |
| `EventCardView.CardImage` | src/components/EventCard.tsx:56 | the first image, or `/placeholder.svg` when it is missing or empty; never empty |
| `EventCardView.ShownTags` | src/components/EventCard.tsx:119 | the first min(2, count) tags |
| `EventCardView.Overflow` | src/components/EventCard.tsx:128-132 | a `+N` badge iff there are more than two tags, with N positive |
| `EventCardView.TagsAccountedFor` | src/components/EventCard.tsx:119-132 | the shown tags plus N is the number of tags, and N counts exactly the tags not shown |
| `EventCardView.ThemeColor` | src/components/EventCard.tsx:27-44 | a tag gets its listed colour; a name every object inherits (`constructor`, `__proto__`, ...) finds that built-in instead; any other string gets the grey fallback |
| `EventCardView.ThemeColorTable` | src/components/EventCard.tsx:27-44 | grey means a non-tag, non-inherited string or "Open Source"; the 13 tags have 13 distinct colours |
| `EventCardView.DetailsHref` | src/components/EventCard.tsx:179 | `/event/` followed by the id |
| `EventCardView.DetailsHrefInjective` | src/components/EventCard.tsx:179 | different ids give different links |
| `EventCardView.Render` | src/components/EventCard.tsx:56-179 | image, tags, colours, overflow; the end date only when present; the location only when non-empty; the heart passes exactly the event's id |
| `EventCardView.CardState.constructor` | src/components/EventCard.tsx:16 | not hovered |
| `EventCardView.CardState.MouseEnter` | src/components/EventCard.tsx:49 | hovered |
| `EventCardView.CardState.MouseLeave` | src/components/EventCard.tsx:50 | not hovered |
| `EventDetailPage.LocationLabel` | src/pages/EventDetail.tsx:244 | the location, or "Online Event" when it is empty or absent |
| `EventDetailPage.Gallery` | src/pages/EventDetail.tsx:292-297 | the images after the first when there are at least two, otherwise none |
| `EventDetailPage.ThemeColor` | src/pages/EventDetail.tsx:133-143 | grey exactly for strings outside the six listed tags and the inherited names; an inherited name finds the built-in |
| `EventDetailPage.DetailTableListsFirstSix` | src/pages/EventDetail.tsx:133-143 | the detail table colours exactly the first six tags of the union |
| `EventDetailPage.FetchOutcome` | src/pages/EventDetail.tsx:25-62 | an event only for a successful query with a row that has its platform, mapped by the detail mapper, without a college |
| `EventDetailPage.DetailState.constructor` | src/pages/EventDetail.tsx:16-17 | no event, loading |
| `EventDetailPage.DetailState.View` | src/pages/EventDetail.tsx:78-101 | spinner iff loading; "Event Not Found" iff loaded without an event |
| `EventDetailPage.DetailState.FetchEvent` | src/pages/EventDetail.tsx:19-76 | without an id nothing changes; with one, a mapped row replaces the event, a failure keeps it, and loading ends |
| `EventDetailPage.Open` | src/pages/EventDetail.tsx:16-76 | no id: the spinner for good; a failed fetch: "Event Not Found"; otherwise the mapped event |
| `Scenarios.OnlineModeKeepsTwoAndFive` | src/data/mockData.ts:41-176 | mode Online over the fixtures keeps events 2 and 5 |
| `Scenarios.TopViewedOrder` | src/data/mockData.ts:41-176 | the fixtures rank 1, 2, 4, 5, 3, 6 by views |
| `Scenarios.CategoryBadges` | src/pages/Categories.tsx:25-66 | over the fixtures the badges read 5, 6, 3, 3, 3 |
| `Scenarios.OnlineOfTwo` | src/components/EventGrid.tsx:32-34 | of a Hybrid and an Online event, mode Online keeps only the second |
| `Scenarios.TopTwoOfThree` | src/components/TopViewedSection.tsx:14-16 | view counts 100, 500, 50 give top two 500, 100 |
| `Scenarios.MissingPlatformFails` | src/hooks/useEvents.ts:43-48 | a row without its platform fails the mapper and the whole list |

## Left out

- Backend calls are not modelled: queries, inserts, updates, deletes, storage uploads,
  auth sessions and realtime channels. Their answers are inputs: success or failure,
  nullable data, URLs, a session and a role.
- Date parsing and formatting are not modelled. This covers `new Date(...)`,
  `toDateString`, `toISOString().slice(0, 16)` and `toLocaleDateString`. Dates are
  integer milliseconds, the local day is the parameter `dayOf`, and the form's text
  conversions are function parameters.
- Overlapping `loadData` calls are not modelled. They are asynchronous interleavings,
  and the code has no guard against a stale response.
- `EventTypes.WellTyped` is stated but not enforced. The stored `theme` and `mode`
  columns are not checked by the mapper or the form.
- `Text.Lower`: case mapping is ASCII only. `toLowerCase` also lowers non-ASCII
  capitals (and may change a string's length); the model lowers only `A`-`Z`.
  Whitespace for `\s` and `trim` is the full ECMAScript set.
- `PlatformFormModel.SlugIsClean`: "no upper-case letter" means no `A`-`Z`, for the
  same reason.
- Number formatting (`toLocaleString`) is not modelled. CSS class strings are reduced to
  colour names; the lookup-with-default structure is kept.
- Toasts, navigation, `window.open`, the share button and console logging are not
  modelled.
- The admin login is not part of this model. Neither are the dashboard's delete handlers
  (AdminDashboard.tsx:143-185), which are backend calls followed by a toast. Its avatar
  state cells (lines 38-40) are declared but never set, and the `avatar_url` column it
  selects (line 105) is never read. Its realtime refresh (lines 72-91) is also left out.
- The static pages, the modal, the hero, the navbar and the routing are presentation
  only.
- The fixtures of src/data/mockData.ts keep only the fields the scenarios read. Long
  texts, links, images and end dates are left empty.
- `CategoriesPage.CategoriesState.Shown` is stated against the spec-only grid. What it
  shows right after each click is stated by `CategoriesPage.AfterCategoryClick`.
- `IndexPage.Render`: the order of the child renders is taken to be the grid first,
  then the section, as they appear on the page.
- `IndexPage.RenderTwice` models one re-render, with the grid's memo keyed on whether the
  filters object changed. A reload that hands down a new events array, and longer
  sequences of renders, are not modelled.
- `Dashboard.TopPerforming` ranks rows by `view_count` as the other rankings do. The
  dashboard's own join (`platforms (name, logo, color)`) is not modelled; the rows keep
  the platform field of the list query's row shape.
