/** The filter bar (src/components/FilterBar.tsx): four selectors and a reset button. It
    holds no state of its own: every handler hands the parent a new specification built
    from the current one. */
module FilterBar {
  import opened EventTypes
  import opened Seqs
  import opened Text

  /** `resetFilters`: every field back to its wildcard. */
  function ResetFilters(): (spec: FilterSpec)
    ensures spec.theme == AnyTheme && spec.platform == "all" && spec.date == AnyDate && spec.mode == AnyMode
  {
    AllWildcards
  }

  /** The four `onValueChange` handlers: `{ ...filters, field: value }`. */
  function SetTheme(spec: FilterSpec, t: ThemeChoice): (r: FilterSpec)
    ensures r.theme == t && r.platform == spec.platform && r.date == spec.date && r.mode == spec.mode
  {
    spec.(theme := t)
  }

  function SetPlatform(spec: FilterSpec, p: string): (r: FilterSpec)
    ensures r.platform == p && r.theme == spec.theme && r.date == spec.date && r.mode == spec.mode
  {
    spec.(platform := p)
  }

  function SetDate(spec: FilterSpec, d: DateBucket): (r: FilterSpec)
    ensures r.date == d && r.theme == spec.theme && r.platform == spec.platform && r.mode == spec.mode
  {
    spec.(date := d)
  }

  function SetMode(spec: FilterSpec, m: ModeChoice): (r: FilterSpec)
    ensures r.mode == m && r.theme == spec.theme && r.platform == spec.platform && r.date == spec.date
  {
    spec.(mode := m)
  }

  /** The fields are independent: edits of different selectors commute, a later edit of
      the same selector overrides an earlier one, and choosing the current value changes
      nothing. Setting all four fields to their wildcards is the reset. */
  lemma SettersAreIndependent(spec: FilterSpec, t: ThemeChoice, t': ThemeChoice, p: string, d: DateBucket, m: ModeChoice)
    ensures SetPlatform(SetTheme(spec, t), p) == SetTheme(SetPlatform(spec, p), t)
    ensures SetDate(SetMode(spec, m), d) == SetMode(SetDate(spec, d), m)
    ensures SetTheme(SetDate(spec, d), t) == SetDate(SetTheme(spec, t), d)
    ensures SetTheme(SetTheme(spec, t), t') == SetTheme(spec, t')
    ensures SetTheme(spec, spec.theme) == spec && SetPlatform(spec, spec.platform) == spec
    ensures SetDate(spec, spec.date) == spec && SetMode(spec, spec.mode) == spec
    ensures SetMode(SetDate(SetPlatform(SetTheme(spec, AnyTheme), "all"), AnyDate), AnyMode) == ResetFilters()
  {
  }

  /** `platform.id && platform.id.trim() !== ''`, stated as "not all whitespace": by
      `TrimEmptyIff` the two agree, which `PlatformOptionsExact` restates for the entries. */
  predicate HasUsableId(p: Platform) { p.id != "" && !Blank(p.id) }

  /** One entry of a selector: the value it emits and the text it shows. */
  datatype SelectItem = SelectItem(value: string, text: string)

  /** The platform selector: "All Platforms", then one entry per platform with a usable
      id, in the given order, labelled with the platform's name. */
  function PlatformOptions(platforms: seq<Platform>): (r: seq<SelectItem>)
    ensures |r| >= 1 && r[0] == SelectItem("all", "All Platforms")
    ensures |r| == 1 + |Filter(platforms, HasUsableId)|
    ensures forall i :: 1 <= i < |r| ==>
      r[i] == SelectItem(Filter(platforms, HasUsableId)[i - 1].id, Filter(platforms, HasUsableId)[i - 1].name)
  {
    var kept := Filter(platforms, HasUsableId);
    var items := Items(kept);
    assert forall i :: 1 <= i < 1 + |items| ==> ([SelectItem("all", "All Platforms")] + items)[i] == items[i - 1];
    [SelectItem("all", "All Platforms")] + items
  }

  /** One entry per platform, in order, with its id and name. */
  function Items(platforms: seq<Platform>): (r: seq<SelectItem>)
    ensures |r| == |platforms|
    ensures forall i :: 0 <= i < |platforms| ==> r[i] == SelectItem(platforms[i].id, platforms[i].name)
  {
    seq(|platforms|, i requires 0 <= i < |platforms| => SelectItem(platforms[i].id, platforms[i].name))
  }

  /** Every platform entry carries an id that does not trim to empty, and every platform
      whose id does not trim to empty gets an entry. */
  lemma PlatformOptionsExact(platforms: seq<Platform>)
    ensures forall i :: 1 <= i < |PlatformOptions(platforms)| ==> Trim(PlatformOptions(platforms)[i].value) != ""
    ensures forall j :: 0 <= j < |platforms| && Trim(platforms[j].id) != "" ==>
      SelectItem(platforms[j].id, platforms[j].name) in PlatformOptions(platforms)
  {
    var kept := Filter(platforms, HasUsableId);
    var r := PlatformOptions(platforms);
    forall i | 1 <= i < |r| ensures Trim(r[i].value) != "" {
      assert HasUsableId(kept[i - 1]);
      TrimEmptyIff(kept[i - 1].id);
    }
    forall j | 0 <= j < |platforms| && Trim(platforms[j].id) != ""
      ensures SelectItem(platforms[j].id, platforms[j].name) in r
    {
      KeptHasOption(platforms, j);
    }
  }

  lemma KeptHasOption(platforms: seq<Platform>, j: nat)
    requires j < |platforms| && Trim(platforms[j].id) != ""
    ensures SelectItem(platforms[j].id, platforms[j].name) in PlatformOptions(platforms)
  {
    var kept := Filter(platforms, HasUsableId);
    TrimEmptyIff(platforms[j].id);
    assert HasUsableId(platforms[j]);
    FilterMembers(platforms, HasUsableId);
    assert platforms[j] in kept;
    var k :| 0 <= k < |kept| && kept[k] == platforms[j];
    assert PlatformOptions(platforms)[k + 1] == SelectItem(platforms[j].id, platforms[j].name);
  }

  /** The theme selector's values. */
  function ThemeOptions(): (r: seq<ThemeChoice>)
    ensures |r| == 1 + |AllThemes| && r[0] == AnyTheme
    ensures forall i :: 1 <= i < |r| ==> r[i] == OneTheme(AllThemes[i - 1])
  {
    [AnyTheme] + seq(|AllThemes|, i requires 0 <= i < |AllThemes| => OneTheme(AllThemes[i]))
  }

  /** The label of a theme entry: "All Themes", or the tag's literal. */
  function ThemeLabel(c: ThemeChoice): string {
    match c
    case AnyTheme => "All Themes"
    case OneTheme(t) => ThemeName(t)
  }

  /** The theme selector offers 14 entries: the wildcard first, then each tag exactly once,
      in the order of the `Theme` union. */
  lemma ThemeOptionsComplete()
    ensures |ThemeOptions()| == 14
    ensures forall c: ThemeChoice :: c in ThemeOptions()
    ensures forall i, j :: 0 <= i < j < |ThemeOptions()| ==> ThemeOptions()[i] != ThemeOptions()[j]
    ensures ThemeLabel(ThemeOptions()[4]) == "Web Development" && ThemeLabel(ThemeOptions()[13]) == "Open Source"
  {
    ThemesAreThirteen();
    var r := ThemeOptions();
    forall c: ThemeChoice ensures c in r {
      if c.OneTheme? {
        var i := ThemeIndex(c.tag);
        assert r[i + 1] == c;
      }
    }
  }

  /** The date selector's values and the wire string each emits. */
  const DateOptions: seq<DateBucket> := [AnyDate, Today, Week, Month]

  function DateValue(d: DateBucket): string {
    match d
    case AnyDate => "all"
    case Today => "today"
    case Week => "week"
    case Month => "month"
  }

  /** The mode selector's values. */
  const ModeOptions: seq<ModeChoice> := [AnyMode, OneMode(Online), OneMode(Offline), OneMode(Hybrid)]

  function ModeValue(m: ModeChoice): string {
    match m
    case AnyMode => "all"
    case OneMode(x) => ModeName(x)
  }

  /** Both selectors list every choice once, and their wire strings are exactly
      all/today/week/month and all/Online/Offline/Hybrid. */
  lemma DateAndModeOptionsExact()
    ensures forall d: DateBucket :: d in DateOptions
    ensures forall m: ModeChoice :: m in ModeOptions
    ensures forall i, j :: 0 <= i < j < 4 ==> DateOptions[i] != DateOptions[j] && ModeOptions[i] != ModeOptions[j]
    ensures seq(4, i requires 0 <= i < 4 => DateValue(DateOptions[i])) == ["all", "today", "week", "month"]
    ensures seq(4, i requires 0 <= i < 4 => ModeValue(ModeOptions[i])) == ["all", "Online", "Offline", "Hybrid"]
  {
    forall d: DateBucket ensures d in DateOptions {
      match d
      case AnyDate => assert DateOptions[0] == d;
      case Today => assert DateOptions[1] == d;
      case Week => assert DateOptions[2] == d;
      case Month => assert DateOptions[3] == d;
    }
    forall m: ModeChoice ensures m in ModeOptions {
      if m.OneMode? {
        assert m.mode == Online || m.mode == Offline || m.mode == Hybrid;
      }
    }
  }
}
