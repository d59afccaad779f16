/** The shapes of the catalog (src/types/event.ts): events, the platforms that host them,
    the fixed theme tags and the four-field filter specification. Dates are integer
    milliseconds since the epoch. */
module EventTypes {

  datatype Option<+T> = None | Some(value: T)

  /** A nullable string column, read with JavaScript's `value || fallback`:
      null, undefined and the empty string all give the fallback. */
  function OrElse(s: Option<string>, fallback: string): (r: string)
    ensures r == fallback <==> s.None? || s.value == "" || s.value == fallback
    ensures r != fallback ==> s == Some(r)
  {
    if s.Some? && s.value != "" then s.value else fallback
  }

  /** The property names every object literal inherits from `Object.prototype`. Looking
      one of them up in a lookup table finds a built-in (a method, or the prototype itself
      for `__proto__`), which is truthy, instead of `undefined`. */
  const InheritedKeys: set<string> :=
    {"constructor", "__defineGetter__", "__defineSetter__", "hasOwnProperty", "__lookupGetter__",
     "__lookupSetter__", "isPrototypeOf", "propertyIsEnumerable", "toString", "valueOf",
     "__proto__", "toLocaleString"}

  /** The 13 theme tags, in the order the `Theme` union lists them. */
  datatype Theme =
    | AI | Web3 | Mobile | WebDevelopment | DataScience | Blockchain | IoT
    | Gaming | Fintech | Healthcare | Sustainability | Education | OpenSource

  /** The string literal that stands for each tag. */
  function ThemeName(t: Theme): string {
    match t
    case AI => "AI"
    case Web3 => "Web3"
    case Mobile => "Mobile"
    case WebDevelopment => "Web Development"
    case DataScience => "Data Science"
    case Blockchain => "Blockchain"
    case IoT => "IoT"
    case Gaming => "Gaming"
    case Fintech => "Fintech"
    case Healthcare => "Healthcare"
    case Sustainability => "Sustainability"
    case Education => "Education"
    case OpenSource => "Open Source"
  }

  const AllThemes: seq<Theme> :=
    [AI, Web3, Mobile, WebDevelopment, DataScience, Blockchain, IoT,
     Gaming, Fintech, Healthcare, Sustainability, Education, OpenSource]

  /** Reads a stored tag back as a `Theme`; any other string is not a tag. */
  function ParseTheme(s: string): (r: Option<Theme>)
    ensures r.Some? ==> ThemeName(r.value) == s
    ensures r.None? ==> forall t: Theme :: ThemeName(t) != s
  {
    if s == "AI" then Some(AI)
    else if s == "Web3" then Some(Web3)
    else if s == "Mobile" then Some(Mobile)
    else if s == "Web Development" then Some(WebDevelopment)
    else if s == "Data Science" then Some(DataScience)
    else if s == "Blockchain" then Some(Blockchain)
    else if s == "IoT" then Some(IoT)
    else if s == "Gaming" then Some(Gaming)
    else if s == "Fintech" then Some(Fintech)
    else if s == "Healthcare" then Some(Healthcare)
    else if s == "Sustainability" then Some(Sustainability)
    else if s == "Education" then Some(Education)
    else if s == "Open Source" then Some(OpenSource)
    else None
  }

  /** Each tag's position in the `Theme` union. */
  function ThemeIndex(t: Theme): (i: nat)
    ensures i < |AllThemes| && AllThemes[i] == t
  {
    match t
    case AI => 0 case Web3 => 1 case Mobile => 2 case WebDevelopment => 3
    case DataScience => 4 case Blockchain => 5 case IoT => 6 case Gaming => 7
    case Fintech => 8 case Healthcare => 9 case Sustainability => 10
    case Education => 11 case OpenSource => 12
  }

  /** The tag list has 13 entries, holds every tag, and holds each tag once. */
  lemma ThemesAreThirteen()
    ensures |AllThemes| == 13
    ensures forall t: Theme :: t in AllThemes
    ensures forall i, j :: 0 <= i < j < |AllThemes| ==> AllThemes[i] != AllThemes[j]
  {
    forall t: Theme ensures t in AllThemes {
      assert AllThemes[ThemeIndex(t)] == t;
    }
    forall i | 0 <= i < |AllThemes| ensures ThemeIndex(AllThemes[i]) == i {
      assert AllThemes[i] == AllThemes[..13][i];
    }
  }

  /** Every tag is read back from its own literal. */
  lemma ThemeNameRoundTrip(t: Theme)
    ensures ParseTheme(ThemeName(t)) == Some(t)
  {
    var r := ParseTheme(ThemeName(t));
    assert r.Some? && ThemeName(r.value) == ThemeName(t);
  }

  /** An event is held online, offline or both. */
  datatype Mode = Online | Offline | Hybrid

  function ModeName(m: Mode): string {
    match m
    case Online => "Online"
    case Offline => "Offline"
    case Hybrid => "Hybrid"
  }

  function ParseMode(s: string): (r: Option<Mode>)
    ensures r.Some? ==> ModeName(r.value) == s
    ensures r.None? ==> forall m: Mode :: ModeName(m) != s
  {
    if s == "Online" then Some(Online)
    else if s == "Offline" then Some(Offline)
    else if s == "Hybrid" then Some(Hybrid)
    else None
  }

  /** A hosting platform; events embed the whole record, not only its id. */
  datatype Platform = Platform(id: string, name: string, logo: string, color: string)

  /** A normalized event. `endDate`, `location` and `college` are the optional fields.
      Tags and mode are kept as the strings the backend stores (the admin form accepts
      free-text tags and the mapper copies both columns unchecked); `WellTyped` states
      what the TypeScript type promises of them. */
  datatype Event = Event(
    id: string,
    title: string,
    description: string,
    shortDescription: string,
    platform: Platform,
    theme: seq<string>,
    date: int,
    endDate: Option<int>,
    organizer: string,
    location: Option<string>,
    mode: string,
    images: seq<string>,
    externalLink: string,
    isTrending: bool,
    isPopular: bool,
    viewCount: nat,
    createdAt: int,
    college: Option<string>)

  predicate WellTyped(e: Event) {
    ParseMode(e.mode).Some? && forall i :: 0 <= i < |e.theme| ==> ParseTheme(e.theme[i]).Some?
  }

  /** A well-typed event's mode is exactly one of Online, Offline and Hybrid. */
  lemma ModeIsExactlyOne(e: Event)
    requires WellTyped(e)
    ensures (if e.mode == "Online" then 1 else 0) + (if e.mode == "Offline" then 1 else 0)
          + (if e.mode == "Hybrid" then 1 else 0) == 1
  {
    var m := ParseMode(e.mode).value;
    assert ModeName(m) == e.mode;
  }

  /** The theme selector: one tag, or `'all'`. */
  datatype ThemeChoice = AnyTheme | OneTheme(tag: Theme)

  /** The date selector. */
  datatype DateBucket = AnyDate | Today | Week | Month

  /** The mode selector: one of the three modes, or `'all'`. */
  datatype ModeChoice = AnyMode | OneMode(mode: Mode)

  /** `FilterOptions`: four independent fields. The platform field is any string, with
      `"all"` as its wildcard. */
  datatype FilterSpec = FilterSpec(theme: ThemeChoice, platform: string, date: DateBucket, mode: ModeChoice)

  /** `{ theme: 'all', platform: 'all', date: 'all', mode: 'all' }`. */
  const AllWildcards: FilterSpec := FilterSpec(AnyTheme, "all", AnyDate, AnyMode)
}
