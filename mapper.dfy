/** The record mapper of src/hooks/useEvents.ts (and its copy in src/pages/EventDetail.tsx):
    a backend row of the `events` table, joined with its platform, becomes an `Event`.
    Column names are snake_case in the row and camelCase in the event. */
module RecordMapper {
  import opened EventTypes

  /** The joined `platforms` row. */
  datatype RawPlatform = RawPlatform(id: string, name: string, logo: string, color: string)

  /** One row of `select('*, platform:platforms!events_platform_id_fkey(*)')`. The join is
      absent when the foreign key matches no platform; nullable columns are options. */
  datatype RawRow = RawRow(
    id: string,
    title: string,
    description: string,
    short_description: string,
    platform: Option<RawPlatform>,
    theme: seq<string>,
    date: int,
    end_date: Option<int>,
    organizer: string,
    location: Option<string>,
    mode: string,
    images: seq<string>,
    external_link: string,
    is_trending: bool,
    is_popular: bool,
    view_count: nat,
    created_at: int,
    college: Option<string>)

  /** Reading `event.platform.id` of a row without a join throws a TypeError. */
  datatype MapError = MissingPlatform(rowId: string)

  datatype Result<+T, +E> = Ok(value: T) | Err(error: E)

  /** `value || undefined` on the college column. */
  function CollegeOf(c: Option<string>): (r: Option<string>)
    ensures r.None? <==> c.None? || c.value == ""
    ensures r.Some? ==> r == c
  {
    if c.Some? && c.value != "" then c else None
  }

  /** The `map` callback of `fetchEvents`. */
  function MapRow(r: RawRow): (res: Result<Event, MapError>)
    ensures res.Err? <==> r.platform.None?
    ensures res.Err? ==> res.error == MissingPlatform(r.id)
    ensures res.Ok? ==> res.value.platform == Platform(r.platform.value.id, r.platform.value.name,
                                                       r.platform.value.logo, r.platform.value.color)
    ensures res.Ok? ==> (res.value.college.None? <==> r.college.None? || r.college == Some(""))
  {
    match r.platform
    case None => Err(MissingPlatform(r.id))
    case Some(p) =>
      Ok(Event(
        id := r.id,
        title := r.title,
        description := r.description,
        shortDescription := r.short_description,
        platform := Platform(p.id, p.name, p.logo, p.color),
        theme := r.theme,
        date := r.date,
        endDate := r.end_date,
        organizer := r.organizer,
        location := r.location,
        mode := r.mode,
        images := r.images,
        externalLink := r.external_link,
        isTrending := r.is_trending,
        isPopular := r.is_popular,
        viewCount := r.view_count,
        createdAt := r.created_at,
        college := CollegeOf(r.college)))
  }

  /** The row an event would come from: the inverse renaming. */
  function ToRow(e: Event): RawRow {
    RawRow(
      id := e.id,
      title := e.title,
      description := e.description,
      short_description := e.shortDescription,
      platform := Some(RawPlatform(e.platform.id, e.platform.name, e.platform.logo, e.platform.color)),
      theme := e.theme,
      date := e.date,
      end_date := e.endDate,
      organizer := e.organizer,
      location := e.location,
      mode := e.mode,
      images := e.images,
      external_link := e.externalLink,
      is_trending := e.isTrending,
      is_popular := e.isPopular,
      view_count := e.viewCount,
      created_at := e.createdAt,
      college := e.college)
  }

  /** The mapper loses nothing but the distinction between a null and an empty college:
      every event whose college is not `Some("")` is the image of its own row, and every
      joined row whose college is not `""` is recovered from its event. */
  lemma MapRowIsRenaming(e: Event, r: RawRow)
    ensures e.college != Some("") ==> MapRow(ToRow(e)) == Ok(e)
    ensures r.platform.Some? && r.college != Some("") ==> ToRow(MapRow(r).value) == r
  {
  }

  /** `rows.map(MapRow)` where the first throwing row aborts the whole map. */
  function MapRows(rows: seq<RawRow>): (res: Result<seq<Event>, MapError>)
    ensures res.Ok? <==> forall i :: 0 <= i < |rows| ==> rows[i].platform.Some?
    ensures res.Ok? ==> |res.value| == |rows|
    ensures res.Ok? ==> forall i :: 0 <= i < |rows| ==> MapRow(rows[i]) == Ok(res.value[i])
    ensures res.Err? ==> exists i :: (0 <= i < |rows| && rows[i].platform.None?
      && res.error == MissingPlatform(rows[i].id) && forall j :: 0 <= j < i ==> rows[j].platform.Some?)
  {
    if rows == [] then Ok([])
    else
      match MapRow(rows[0])
      case Err(err) => Err(err)
      case Ok(e) =>
        match MapRows(rows[1..])
        case Err(err) =>
          assert forall j :: 1 <= j < |rows| ==> rows[j] == rows[1..][j - 1];
          Err(err)
        case Ok(es) =>
          assert forall j :: 1 <= j < |rows| ==> rows[j] == rows[1..][j - 1];
          Ok([e] + es)
  }

  /** `(eventsData || []).map(...)`: null data is an empty list. */
  function MapData(data: Option<seq<RawRow>>): (res: Result<seq<Event>, MapError>)
    ensures data.None? ==> res == Ok([])
    ensures data.Some? ==> res == MapRows(data.value)
  {
    match data
    case None => Ok([])
    case Some(rows) => MapRows(rows)
  }

  /** The detail page's mapper: the same renaming, but `college` is never copied. */
  function MapDetailRow(r: RawRow): (res: Result<Event, MapError>)
    ensures res.Err? <==> MapRow(r).Err?
    ensures res.Ok? ==> res.value == MapRow(r).value.(college := None)
  {
    match r.platform
    case None => Err(MissingPlatform(r.id))
    case Some(p) =>
      Ok(Event(
        id := r.id,
        title := r.title,
        description := r.description,
        shortDescription := r.short_description,
        platform := Platform(p.id, p.name, p.logo, p.color),
        theme := r.theme,
        date := r.date,
        endDate := r.end_date,
        organizer := r.organizer,
        location := r.location,
        mode := r.mode,
        images := r.images,
        externalLink := r.external_link,
        isTrending := r.is_trending,
        isPopular := r.is_popular,
        viewCount := r.view_count,
        createdAt := r.created_at,
        college := None))
  }
}
