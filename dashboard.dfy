/** The admin dashboard (src/pages/AdminDashboard.tsx): the statistics over the loaded event
    rows, the top-performing ranking, the session check with its render gate, and the
    cells that open the two forms. The events query's data is `undefined` until it has
    loaded, an option here; the session and the profile's role are inputs. */
module Dashboard {
  import opened EventTypes
  import opened Seqs
  import opened Ranking
  import opened RecordMapper

  function ViewsOf(r: RawRow): int { r.view_count }
  predicate RowTrending(r: RawRow) { r.is_trending }
  predicate RowPopular(r: RawRow) { r.is_popular }

  function ModeIs(m: string): RawRow -> bool {
    (r: RawRow) => r.mode == m
  }

  /** `events?.length || 0`. */
  function EventCount(events: Option<seq<RawRow>>): (n: nat)
    ensures events.None? ==> n == 0
    ensures events.Some? ==> n == |events.value|
  {
    if events.Some? then |events.value| else 0
  }

  /** `totalViews`: the sum of the view counts, 0 before the rows have loaded. It is at
      least every single row's count, and 0 exactly when no loaded row has a view. */
  function TotalViews(events: Option<seq<RawRow>>): (total: int)
    ensures total >= 0
    ensures events.None? ==> total == 0
    ensures events.Some? ==> forall i :: 0 <= i < |events.value| ==> events.value[i].view_count <= total
    ensures total == 0 <==> events.None? || forall i :: 0 <= i < |events.value| ==> events.value[i].view_count == 0
  {
    if events.None? then 0
    else
      SumBounds(events.value, ViewsOf);
      Sum(events.value, ViewsOf)
  }

  /** The views of two batches of rows add up. */
  lemma TotalViewsAppend(a: seq<RawRow>, b: seq<RawRow>)
    ensures TotalViews(Some(a + b)) == TotalViews(Some(a)) + TotalViews(Some(b))
  {
    SumAppend(a, b, ViewsOf);
  }

  /** `trendingEvents` and `popularEvents`: the flag counts, never above the event count. */
  function TrendingCount(events: Option<seq<RawRow>>): (n: nat)
    ensures n <= EventCount(events)
    ensures events.Some? ==> n == |Filter(events.value, RowTrending)|
  {
    if events.Some? then |Filter(events.value, RowTrending)| else 0
  }

  function PopularCount(events: Option<seq<RawRow>>): (n: nat)
    ensures n <= EventCount(events)
    ensures events.Some? ==> n == |Filter(events.value, RowPopular)|
  {
    if events.Some? then |Filter(events.value, RowPopular)| else 0
  }

  /** The mode distribution: the number of rows with the given mode string. */
  function ModeCount(events: Option<seq<RawRow>>, m: string): (n: nat)
    ensures n <= EventCount(events)
    ensures events.None? ==> n == 0
    ensures events.Some? ==> n == |Filter(events.value, ModeIs(m))|
  {
    if events.Some? then |Filter(events.value, ModeIs(m))| else 0
  }

  /** When every row's mode is one of the three, the three counts add up to the total;
      in any case they never exceed it. */
  lemma {:induction false} ModeCountsPartition(rows: seq<RawRow>)
    ensures ModeCount(Some(rows), "Online") + ModeCount(Some(rows), "Offline") + ModeCount(Some(rows), "Hybrid") <= |rows|
    ensures (forall i :: 0 <= i < |rows| ==> rows[i].mode in {"Online", "Offline", "Hybrid"}) ==>
      ModeCount(Some(rows), "Online") + ModeCount(Some(rows), "Offline") + ModeCount(Some(rows), "Hybrid") == |rows|
  {
    if rows != [] {
      ModeCountsPartition(rows[1..]);
      assert forall i :: 1 <= i < |rows| ==> rows[i] == rows[1..][i - 1];
    }
  }

  /** `events.sort((a, b) => b.view_count - a.view_count).slice(0, 5)`: the loaded array
      is ranked in place and its first five rows are listed. */
  const TOP_PERFORMING: nat := 5

  method TopPerforming(events: array?<RawRow>) returns (shown: seq<RawRow>)
    modifies events
    ensures events == null ==> shown == []
    ensures events != null ==> events[..] == SortDesc(old(events[..]), ViewsOf)
    ensures events != null ==> shown == TopN(old(events[..]), ViewsOf, TOP_PERFORMING)
  {
    if events == null {
      return [];
    }
    SortInPlace(events, ViewsOf);
    if TOP_PERFORMING < events.Length {
      shown := events[..TOP_PERFORMING];
    } else {
      shown := events[..];
    }
  }

  /** The top-performing list has at most five rows, most viewed first, each from the loaded
      rows and none viewed less than a row left out. */
  lemma TopPerformingContract(rows: seq<RawRow>)
    ensures |TopN(rows, ViewsOf, TOP_PERFORMING)| == if |rows| < 5 then |rows| else 5
    ensures forall i, j :: 0 <= i < j < |TopN(rows, ViewsOf, TOP_PERFORMING)| ==>
      TopN(rows, ViewsOf, TOP_PERFORMING)[i].view_count >= TopN(rows, ViewsOf, TOP_PERFORMING)[j].view_count
    ensures multiset(TopN(rows, ViewsOf, TOP_PERFORMING)) <= multiset(rows)
    ensures forall i, j :: 0 <= i < |TopN(rows, ViewsOf, TOP_PERFORMING)| <= j < |rows| ==>
      TopN(rows, ViewsOf, TOP_PERFORMING)[i].view_count >= SortDesc(rows, ViewsOf)[j].view_count
  {
    TopNProperties(rows, ViewsOf, TOP_PERFORMING);
  }

  /** How the session check ends. */
  datatype AuthOutcome = RedirectNoSession | AccessDenied | Authenticated

  /** `checkAuth`: no session redirects home; a profile whose role is not `'admin'` (or no
      profile at all) is denied and redirected; only an admin is let in. */
  function AuthDecision(session: Option<string>, role: Option<string>): (r: AuthOutcome)
    ensures r == RedirectNoSession <==> session.None?
    ensures r == AccessDenied <==> session.Some? && role != Some("admin")
    ensures r == Authenticated <==> session.Some? && role == Some("admin")
  {
    if session.None? then RedirectNoSession
    else if role != Some("admin") then AccessDenied
    else Authenticated
  }

  /** The dashboard's own state cells. */
  class DashboardState {
    var isAuthenticated: bool
    var showEventForm: bool
    var showPlatformForm: bool
    var editingEvent: Option<RawRow>
    var editingPlatform: Option<Platform>

    constructor ()
      ensures !isAuthenticated && !showEventForm && !showPlatformForm
      ensures editingEvent == None && editingPlatform == None
    {
      isAuthenticated, showEventForm, showPlatformForm := false, false, false;
      editingEvent, editingPlatform := None, None;
    }

    /** The dashboard body renders only for an authenticated admin once the events query
        has finished loading; otherwise the spinner shows. */
    function BodyShown(queryLoading: bool): (b: bool)
      reads this
      ensures b ==> isAuthenticated
      ensures b <==> isAuthenticated && !queryLoading
    {
      isAuthenticated && !queryLoading
    }

    /** The mount effect's session check: only an admin session sets `isAuthenticated`. */
    method CheckAuth(session: Option<string>, role: Option<string>) returns (outcome: AuthOutcome)
      modifies this
      ensures outcome == AuthDecision(session, role)
      ensures isAuthenticated == (old(isAuthenticated) || outcome == Authenticated)
      ensures showEventForm == old(showEventForm) && showPlatformForm == old(showPlatformForm)
      ensures editingEvent == old(editingEvent) && editingPlatform == old(editingPlatform)
    {
      outcome := AuthDecision(session, role);
      if outcome == Authenticated {
        isAuthenticated := true;
      }
    }

    /** "Add New Event". */
    method OpenNewEvent()
      modifies this
      ensures showEventForm && editingEvent == old(editingEvent)
      ensures isAuthenticated == old(isAuthenticated) && showPlatformForm == old(showPlatformForm)
      ensures editingPlatform == old(editingPlatform)
    {
      showEventForm := true;
    }

    /** An event row's "Edit". */
    method EditEvent(row: RawRow)
      modifies this
      ensures showEventForm && editingEvent == Some(row)
      ensures isAuthenticated == old(isAuthenticated) && showPlatformForm == old(showPlatformForm)
      ensures editingPlatform == old(editingPlatform)
    {
      editingEvent := Some(row);
      showEventForm := true;
    }

    /** The event form's `onClose`. */
    method CloseEventForm()
      modifies this
      ensures !showEventForm && editingEvent == None
      ensures isAuthenticated == old(isAuthenticated) && showPlatformForm == old(showPlatformForm)
      ensures editingPlatform == old(editingPlatform)
    {
      showEventForm := false;
      editingEvent := None;
    }

    /** "Add New Platform". */
    method OpenNewPlatform()
      modifies this
      ensures showPlatformForm && editingPlatform == old(editingPlatform)
      ensures isAuthenticated == old(isAuthenticated) && showEventForm == old(showEventForm)
      ensures editingEvent == old(editingEvent)
    {
      showPlatformForm := true;
    }

    /** A platform row's "Edit". */
    method EditPlatform(p: Platform)
      modifies this
      ensures showPlatformForm && editingPlatform == Some(p)
      ensures isAuthenticated == old(isAuthenticated) && showEventForm == old(showEventForm)
      ensures editingEvent == old(editingEvent)
    {
      editingPlatform := Some(p);
      showPlatformForm := true;
    }

    /** The platform form's `onClose`. */
    method ClosePlatformForm()
      modifies this
      ensures !showPlatformForm && editingPlatform == None
      ensures isAuthenticated == old(isAuthenticated) && showEventForm == old(showEventForm)
      ensures editingEvent == old(editingEvent)
    {
      showPlatformForm := false;
      editingPlatform := None;
    }
  }
}
