/** The admin event form (src/components/EventForm.tsx): seventeen state cells, a populate
    effect, the theme list editor, the payload builder and the submit sequence of backend
    writes and image uploads. Every backend answer is an input: whether a write succeeded,
    the id the insert returned, and a per-file upload outcome. Converting between stored
    timestamps and the date inputs' text is host date handling, passed in as functions. */
module EventFormModel {
  import opened EventTypes
  import opened Seqs

  /** The stored row the form is opened with (`event?: any`); nullable columns are options. */
  datatype FormEvent = FormEvent(
    id: string,
    title: Option<string>,
    short_description: Option<string>,
    description: Option<string>,
    date: Option<string>,
    end_date: Option<string>,
    location: Option<string>,
    mode: Option<string>,
    platform_id: Option<string>,
    organizer: Option<string>,
    external_link: Option<string>,
    theme: Option<seq<string>>,
    is_trending: Option<bool>,
    is_popular: Option<bool>,
    college: Option<string>,
    images: Option<seq<string>>)

  /** The form's cells other than `isLoading`. Chosen files are represented by their names. */
  datatype Fields = Fields(
    title: string,
    shortDescription: string,
    description: string,
    date: string,
    endDate: string,
    location: string,
    mode: string,
    platformId: string,
    organizer: string,
    externalLink: string,
    themes: seq<string>,
    currentTheme: string,
    isTrending: bool,
    isPopular: bool,
    imageFiles: Option<seq<string>>,
    college: string)

  /** What `resetForm` writes into every cell. */
  const EmptyFields: Fields := Fields("", "", "", "", "", "", "", "", "", "", [], "", false, false, None, "")

  /** `x || []` on a list column: only null gives the empty list (an empty array is truthy). */
  function ListOrEmpty(o: Option<seq<string>>): (r: seq<string>)
    ensures o.Some? ==> r == o.value
    ensures o.None? ==> r == []
  {
    if o.Some? then o.value else []
  }

  /** `x || false`. */
  function FlagOrFalse(o: Option<bool>): (r: bool)
    ensures r <==> o == Some(true)
  {
    o.Some? && o.value
  }

  /** A date column shown in a `datetime-local` input; empty when absent. */
  function DateInput(o: Option<string>, toInput: string -> string): (r: string)
    ensures o.None? || o == Some("") ==> r == ""
    ensures o.Some? && o.value != "" ==> r == toInput(o.value)
  {
    if o.Some? && o.value != "" then toInput(o.value) else ""
  }

  /** The populate effect with an event: thirteen cells take the event's values with empty
      defaults; the pending theme and the chosen files are left as they were. */
  function Populated(f: Fields, ev: FormEvent, toInput: string -> string): (r: Fields)
    ensures r.currentTheme == f.currentTheme && r.imageFiles == f.imageFiles
    ensures r.title == OrElse(ev.title, "") && r.shortDescription == OrElse(ev.short_description, "")
    ensures r.description == OrElse(ev.description, "") && r.location == OrElse(ev.location, "")
    ensures r.mode == OrElse(ev.mode, "") && r.platformId == OrElse(ev.platform_id, "")
    ensures r.organizer == OrElse(ev.organizer, "") && r.externalLink == OrElse(ev.external_link, "")
    ensures r.college == OrElse(ev.college, "") && r.themes == ListOrEmpty(ev.theme)
    ensures r.isTrending == FlagOrFalse(ev.is_trending) && r.isPopular == FlagOrFalse(ev.is_popular)
    ensures r.date == DateInput(ev.date, toInput) && r.endDate == DateInput(ev.end_date, toInput)
  {
    f.(title := OrElse(ev.title, ""),
       shortDescription := OrElse(ev.short_description, ""),
       description := OrElse(ev.description, ""),
       date := DateInput(ev.date, toInput),
       endDate := DateInput(ev.end_date, toInput),
       location := OrElse(ev.location, ""),
       mode := OrElse(ev.mode, ""),
       platformId := OrElse(ev.platform_id, ""),
       organizer := OrElse(ev.organizer, ""),
       externalLink := OrElse(ev.external_link, ""),
       themes := ListOrEmpty(ev.theme),
       isTrending := FlagOrFalse(ev.is_trending),
       isPopular := FlagOrFalse(ev.is_popular),
       college := OrElse(ev.college, ""))
  }

  predicate NoDuplicates(s: seq<string>) {
    forall i, j :: 0 <= i < j < |s| ==> s[i] != s[j]
  }

  /** The list `addTheme` leaves: the pending tag is appended when it is non-empty and not
      yet listed. */
  function AddedThemes(themes: seq<string>, t: string): (r: seq<string>)
    ensures t != "" && t !in themes ==> r == themes + [t]
    ensures t == "" || t in themes ==> r == themes
    ensures NoDuplicates(themes) ==> NoDuplicates(r)
    ensures |themes| <= |r| <= |themes| + 1
    ensures t != "" ==> t in r
  {
    if t != "" && t !in themes then themes + [t] else themes
  }

  function IsNot(t: string): string -> bool {
    x => x != t
  }

  /** The list `removeTheme` leaves: every occurrence of the tag is dropped, the other tags
      stay in their order. */
  function RemovedThemes(themes: seq<string>, t: string): (r: seq<string>)
    ensures t !in r
    ensures |r| <= |themes|
  {
    Filter(themes, IsNot(t))
  }

  /** Removing keeps the list duplicate-free and the survivors in order; adding a new tag
      and removing it again restores the list. */
  lemma {:induction false} RemoveThemeLaws(themes: seq<string>, t: string)
    ensures forall x :: x != t ==> (x in RemovedThemes(themes, t) <==> x in themes)
    ensures NoDuplicates(themes) ==> NoDuplicates(RemovedThemes(themes, t))
    ensures multiset(RemovedThemes(themes, t)) <= multiset(themes)
    ensures t !in themes ==> RemovedThemes(themes, t) == themes
    ensures t != "" && t !in themes ==> RemovedThemes(AddedThemes(themes, t), t) == themes
  {
    FilterMultiset(themes, IsNot(t));
    FilterMembers(themes, IsNot(t));
    if NoDuplicates(themes) {
      FilterDistinct(themes, IsNot(t));
    }
    if t !in themes {
      FilterAllPass(themes, IsNot(t));
    }
    if t != "" && t !in themes {
      FilterAllPass(themes, IsNot(t));
      FilterAppend(themes, [t], IsNot(t));
      assert Filter([t], IsNot(t)) == [];
    }
  }

  /** Filtering a list without duplicates gives a list without duplicates. */
  lemma {:induction false} FilterDistinct(s: seq<string>, p: string -> bool)
    requires NoDuplicates(s)
    ensures NoDuplicates(Filter(s, p))
  {
    if s != [] {
      FilterDistinct(s[1..], p);
      FilterMembers(s[1..], p);
      var rest := Filter(s[1..], p);
      assert forall k :: 0 <= k < |rest| ==> rest[k] in s[1..];
      assert s[0] !in s[1..];
      if p(s[0]) {
        assert Filter(s, p) == [s[0]] + rest;
      } else {
        assert Filter(s, p) == rest;
      }
    }
  }

  /** The row written by the first insert or update (`baseData`). Timestamps are converted
      by the host (`toIso`). */
  datatype Payload = Payload(
    title: string,
    short_description: string,
    description: string,
    date: string,
    end_date: Option<string>,
    location: Option<string>,
    mode: string,
    platform_id: string,
    organizer: string,
    external_link: string,
    theme: seq<string>,
    is_trending: bool,
    is_popular: bool,
    college: Option<string>,
    images: seq<string>)

  /** `x || null`. */
  function NullIfEmpty(s: string): (r: Option<string>)
    ensures r.None? <==> s == ""
    ensures r.Some? ==> r.value == s
  {
    if s == "" then None else Some(s)
  }

  /** `baseData`: the optional text columns become null exactly when their field is empty;
      an edit carries the stored images over, a create starts with none. */
  function BaseData(f: Fields, editing: Option<FormEvent>, toIso: string -> string): (p: Payload)
    ensures p.end_date.None? <==> f.endDate == ""
    ensures p.end_date.Some? ==> p.end_date.value == toIso(f.endDate)
    ensures p.location == NullIfEmpty(f.location) && p.college == NullIfEmpty(f.college)
    ensures f.college == "none" ==> p.college == Some("none")
    ensures p.date == toIso(f.date) && p.theme == f.themes && p.mode == f.mode
    ensures p.title == f.title && p.short_description == f.shortDescription && p.description == f.description
    ensures p.platform_id == f.platformId && p.organizer == f.organizer && p.external_link == f.externalLink
    ensures p.is_trending == f.isTrending && p.is_popular == f.isPopular
    ensures p.images == (if editing.Some? then ListOrEmpty(editing.value.images) else [])
  {
    Payload(
      title := f.title,
      short_description := f.shortDescription,
      description := f.description,
      date := toIso(f.date),
      end_date := if f.endDate != "" then Some(toIso(f.endDate)) else None,
      location := NullIfEmpty(f.location),
      mode := f.mode,
      platform_id := f.platformId,
      organizer := f.organizer,
      external_link := f.externalLink,
      theme := f.themes,
      is_trending := f.isTrending,
      is_popular := f.isPopular,
      college := NullIfEmpty(f.college),
      images := if editing.Some? then ListOrEmpty(editing.value.images) else [])
  }

  /** Opening the form on a stored event and submitting it untouched writes back the same
      text columns, except that an empty string becomes null; tags and flags are kept and
      the stored images are carried over. */
  lemma UntouchedEditWritesBack(ev: FormEvent, toInput: string -> string, toIso: string -> string)
    ensures var p := BaseData(Populated(EmptyFields, ev, toInput), Some(ev), toIso);
      && p.location == (if ev.location == Some("") then None else ev.location)
      && p.college == (if ev.college == Some("") then None else ev.college)
      && (ev.title.Some? ==> p.title == ev.title.value)
      && (ev.mode.Some? ==> p.mode == ev.mode.value)
      && (ev.theme.Some? ==> p.theme == ev.theme.value)
      && p.is_trending == FlagOrFalse(ev.is_trending) && p.is_popular == FlagOrFalse(ev.is_popular)
      && p.images == ListOrEmpty(ev.images)
  {
  }

  /** `uploadEventImages` reduced to its outcome: the public URL of each file in order, or
      the position of the first file whose upload failed (the loop throws there). */
  function UploadAll(files: seq<string>, upload: string -> Option<string>): (r: Result<seq<string>, nat>)
    ensures r.Ok? <==> forall i :: 0 <= i < |files| ==> upload(files[i]).Some?
    ensures r.Ok? ==> |r.value| == |files| && forall i :: 0 <= i < |files| ==> upload(files[i]) == Some(r.value[i])
    ensures r.Err? ==> r.error < |files| && upload(files[r.error]).None?
    ensures r.Err? ==> forall i :: 0 <= i < r.error ==> upload(files[i]).Some?
  {
    if files == [] then Ok([])
    else
      match upload(files[0])
      case None => Err(0)
      case Some(url) =>
        var rest := UploadAll(files[1..], upload);
        assert forall i :: 1 <= i < |files| ==> files[i] == files[1..][i - 1];
        match rest
        case Ok(urls) => Ok([url] + urls)
        case Err(k) => Err(k + 1)
  }

  datatype Result<+T, +E> = Ok(value: T) | Err(error: E)

  /** The loop of `uploadEventImages`, pushing one URL per file. */
  method UploadEventImages(files: seq<string>, upload: string -> Option<string>) returns (r: Result<seq<string>, nat>)
    ensures r == UploadAll(files, upload)
  {
    var urls: seq<string> := [];
    var i := 0;
    while i < |files|
      invariant 0 <= i <= |files| && |urls| == i
      invariant forall k :: 0 <= k < i ==> upload(files[k]) == Some(urls[k])
    {
      var out := upload(files[i]);
      if out.None? {
        return Err(i);
      }
      urls := urls + [out.value];
      i := i + 1;
    }
    assert UploadAll(files, upload).value == urls;
    return Ok(urls);
  }

  /** The image list stored by the second write: an edit appends the uploaded URLs after the
      stored images, a create stores the uploaded URLs alone. */
  function MergeImages(editing: Option<FormEvent>, urls: seq<string>): (r: seq<string>)
    ensures editing.None? ==> r == urls
    ensures editing.Some? ==> |r| == |ListOrEmpty(editing.value.images)| + |urls|
    ensures editing.Some? ==> r[..|ListOrEmpty(editing.value.images)|] == ListOrEmpty(editing.value.images)
    ensures editing.Some? ==> r[|ListOrEmpty(editing.value.images)|..] == urls
  {
    if editing.Some? then ListOrEmpty(editing.value.images) + urls else urls
  }

  /** The backend writes a submit issues. */
  datatype Write = UpdateEvent(id: string, data: Payload) | InsertEvent(data: Payload) | UpdateImages(id: string, images: seq<string>)

  /** `imageFiles && imageFiles.length > 0`. */
  predicate HasFiles(files: Option<seq<string>>) { files.Some? && |files.value| > 0 }

  /** The images the record holds after the writes: those of the last write that sets them. */
  function StoredImages(writes: seq<Write>): seq<string>
    requires |writes| >= 1 && !writes[0].UpdateImages?
  {
    if |writes| >= 2 && writes[1].UpdateImages? then writes[1].images else writes[0].data.images
  }

  /** The form component's state: the sixteen cells of `Fields`, held as one record, and
      the `isLoading` cell. */
  class EventFormState {
    var cells: Fields
    var isLoading: bool

    /** The first render. */
    constructor ()
      ensures cells == EmptyFields && !isLoading
    {
      cells, isLoading := EmptyFields, false;
    }

    /** `resetForm`. */
    method ResetForm()
      modifies this
      ensures cells == EmptyFields && isLoading == old(isLoading)
    {
      cells := EmptyFields;
    }

    /** The populate effect, run whenever the form opens or its event changes. */
    method Populate(event: Option<FormEvent>, toInput: string -> string)
      modifies this
      ensures event.Some? ==> cells == Populated(old(cells), event.value, toInput)
      ensures event.None? ==> cells == EmptyFields
      ensures isLoading == old(isLoading)
    {
      if event.Some? {
        cells := Populated(cells, event.value, toInput);
      } else {
        ResetForm();
      }
    }

    /** `addTheme`: on success the pending input is cleared; otherwise nothing changes. */
    method AddTheme()
      modifies this
      ensures cells.themes == AddedThemes(old(cells.themes), old(cells.currentTheme))
      ensures cells.currentTheme ==
        (if old(cells.currentTheme) != "" && old(cells.currentTheme) !in old(cells.themes) then "" else old(cells.currentTheme))
      ensures cells.(themes := old(cells.themes), currentTheme := old(cells.currentTheme)) == old(cells)
      ensures isLoading == old(isLoading)
    {
      var t := cells.currentTheme;
      if t != "" && t !in cells.themes {
        cells := cells.(themes := cells.themes + [t], currentTheme := "");
      }
    }

    /** `removeTheme`. */
    method RemoveTheme(t: string)
      modifies this
      ensures cells == old(cells).(themes := RemovedThemes(old(cells.themes), t))
      ensures isLoading == old(isLoading)
    {
      cells := cells.(themes := RemovedThemes(cells.themes, t));
    }

    /** `handleSubmit`. The first write is an update of the stored row when editing and an
        insert otherwise; when files are chosen and that write succeeded, they are uploaded
        and a second write sets the merged image list. Any failure stops the sequence and
        keeps the form as it was; success resets it. Loading ends either way. */
    method HandleSubmit(editing: Option<FormEvent>, toIso: string -> string, firstWriteOk: bool,
                        insertedId: string, upload: string -> Option<string>, imagesWriteOk: bool)
      returns (writes: seq<Write>, succeeded: bool)
      modifies this
      ensures !isLoading
      ensures 1 <= |writes| <= 2
      ensures writes[0] == (if editing.Some? then UpdateEvent(editing.value.id, BaseData(old(cells), editing, toIso))
                            else InsertEvent(BaseData(old(cells), editing, toIso)))
      ensures |writes| == 2 <==> firstWriteOk && HasFiles(old(cells.imageFiles)) && UploadAll(old(cells.imageFiles).value, upload).Ok?
      ensures |writes| == 2 ==> writes[1] == UpdateImages(if editing.Some? then editing.value.id else insertedId,
                                                          MergeImages(editing, UploadAll(old(cells.imageFiles).value, upload).value))
      ensures succeeded <==> firstWriteOk && (!HasFiles(old(cells.imageFiles)) || (|writes| == 2 && imagesWriteOk))
      ensures succeeded ==> cells == EmptyFields
      ensures !succeeded ==> cells == old(cells)
      ensures succeeded ==> (StoredImages(writes) ==
        (if editing.Some? then ListOrEmpty(editing.value.images) else [])
        + (if HasFiles(old(cells.imageFiles)) then UploadAll(old(cells.imageFiles).value, upload).value else []))
    {
      isLoading := true;
      var base := BaseData(cells, editing, toIso);
      var target := if editing.Some? then editing.value.id else insertedId;
      writes := [if editing.Some? then UpdateEvent(editing.value.id, base) else InsertEvent(base)];
      succeeded := false;
      if firstWriteOk {
        if HasFiles(cells.imageFiles) {
          var up := UploadEventImages(cells.imageFiles.value, upload);
          if up.Ok? {
            writes := writes + [UpdateImages(target, MergeImages(editing, up.value))];
            succeeded := imagesWriteOk;
          }
        } else {
          succeeded := true;
        }
      }
      if succeeded {
        ResetForm();
      }
      isLoading := false;
    }
  }
}
