/** The event card (src/components/EventCard.tsx): what one card derives from its event —
    the image, the first two theme tags with a `+N` overflow badge, the colour of each tag,
    which optional rows show, the details link and the favourite click. Colours are the
    names of the card's class strings; the class strings themselves are not modelled. */
module EventCardView {
  import opened EventTypes

  /** Shown when the event has no usable first image. */
  const PLACEHOLDER: string := "/placeholder.svg"

  /** How many tags a card shows before the overflow badge. */
  const SHOWN_TAGS: nat := 2

  /** `event.images[0] || '/placeholder.svg'`: a missing or empty first image falls back. */
  function CardImage(images: seq<string>): (src: string)
    ensures |images| > 0 && images[0] != "" ==> src == images[0]
    ensures |images| == 0 || images[0] == "" ==> src == PLACEHOLDER
    ensures src != "" && (src in images || src == PLACEHOLDER)
  {
    if |images| > 0 && images[0] != "" then images[0] else PLACEHOLDER
  }

  /** `event.theme.slice(0, 2)`. */
  function ShownTags(theme: seq<string>): (tags: seq<string>)
    ensures |tags| == if |theme| < SHOWN_TAGS then |theme| else SHOWN_TAGS
    ensures tags <= theme
  {
    if |theme| < SHOWN_TAGS then theme else theme[..SHOWN_TAGS]
  }

  /** The `+N` badge: present only when there are more than two tags. */
  function Overflow(theme: seq<string>): (n: Option<nat>)
    ensures n.Some? <==> |theme| > SHOWN_TAGS
    ensures n.Some? ==> n.value > 0
  {
    if |theme| > SHOWN_TAGS then Some(|theme| - SHOWN_TAGS) else None
  }

  /** The badges account for every tag: the shown tags plus the overflow count is the
      number of tags, and the tags the badge stands for are exactly the rest. */
  lemma TagsAccountedFor(theme: seq<string>)
    ensures |ShownTags(theme)| + (if Overflow(theme).Some? then Overflow(theme).value else 0) == |theme|
    ensures ShownTags(theme) + theme[|ShownTags(theme)|..] == theme
    ensures Overflow(theme).Some? ==> Overflow(theme).value == |theme[|ShownTags(theme)|..]|
  {
  }

  /** The card's tag colours, named after the class strings. `'Open Source'` is given the
      same grey class as the fallback. `Inherited(name)` is what a tag named after an
      inherited object property gets: the built-in the lookup finds, in place of a class. */
  datatype CardColor =
    | Purple | Blue | Green | Orange | Indigo | Cyan | Emerald | Pink | Yellow
    | Red | Teal | Violet | Gray | Inherited(member: string)

  /** The colour each tag is listed with. */
  function TagColor(t: Theme): CardColor {
    match t
    case AI => Purple
    case Web3 => Blue
    case Mobile => Green
    case WebDevelopment => Orange
    case DataScience => Indigo
    case Blockchain => Cyan
    case IoT => Emerald
    case Gaming => Pink
    case Fintech => Yellow
    case Healthcare => Red
    case Sustainability => Teal
    case Education => Violet
    case OpenSource => Gray
  }

  /** `getThemeColor`: a lookup of the tag string in a 13-entry object literal, `||` grey.
      A string that is not a tag falls back to grey, unless it names a property the
      literal inherits: that lookup is truthy and no fallback happens. */
  function ThemeColor(s: string): (c: CardColor)
    ensures ParseTheme(s).Some? ==> c == TagColor(ParseTheme(s).value)
    ensures s in InheritedKeys ==> c == Inherited(s)
    ensures ParseTheme(s).None? && s !in InheritedKeys ==> c == Gray
  {
    if s == "AI" then Purple
    else if s == "Web3" then Blue
    else if s == "Mobile" then Green
    else if s == "Web Development" then Orange
    else if s == "Data Science" then Indigo
    else if s == "Blockchain" then Cyan
    else if s == "IoT" then Emerald
    else if s == "Gaming" then Pink
    else if s == "Fintech" then Yellow
    else if s == "Healthcare" then Red
    else if s == "Sustainability" then Teal
    else if s == "Education" then Violet
    else if s in InheritedKeys then Inherited(s)
    else Gray
  }

  /** Every tag gets its own listed colour, and grey means the fallback or `'Open Source'`:
      the twelve other tags have twelve distinct colours, none of them grey. The fallback
      is reached by every string that is neither a tag nor an inherited property name. */
  lemma ThemeColorTable(t: Theme, u: Theme, s: string)
    ensures ThemeColor(ThemeName(t)) == TagColor(t)
    ensures ThemeColor(s) == Gray <==> (ParseTheme(s).None? && s !in InheritedKeys) || s == "Open Source"
    ensures t != u && TagColor(t) == TagColor(u) ==> false
  {
    ThemeNameRoundTrip(t);
    if ParseTheme(s).Some? {
      var p := ParseTheme(s).value;
      assert ThemeName(p) == s;
    }
  }

  /** What a card renders from its event. */
  datatype Card = Card(
    image: string,
    tags: seq<string>,
    tagColors: seq<CardColor>,
    overflow: Option<nat>,
    showsEndDate: bool,
    showsLocation: bool,
    detailsHref: string,
    favoriteArg: string,
    isFavorited: bool)

  /** The link of the Details button: `/event/<id>`. */
  function DetailsHref(id: string): (href: string)
    ensures |href| == |"/event/"| + |id|
    ensures href[..|"/event/"|] == "/event/" && href[|"/event/"|..] == id
  {
    "/event/" + id
  }

  /** Different events link to different detail pages. */
  lemma DetailsHrefInjective(a: string, b: string)
    ensures DetailsHref(a) == DetailsHref(b) ==> a == b
  {
    if DetailsHref(a) == DetailsHref(b) {
      assert a == DetailsHref(a)[|"/event/"|..];
    }
  }

  /** The whole card: the end date shows only when present, the location row only when
      the location is non-empty, and the heart passes exactly the event's id. */
  function Render(e: Event, isFavorited: bool): (c: Card)
    ensures c.image == CardImage(e.images)
    ensures c.tags == ShownTags(e.theme) && c.overflow == Overflow(e.theme)
    ensures |c.tagColors| == |c.tags| && forall i :: 0 <= i < |c.tags| ==> c.tagColors[i] == ThemeColor(c.tags[i])
    ensures c.showsEndDate <==> e.endDate.Some?
    ensures c.showsLocation <==> e.location.Some? && e.location.value != ""
    ensures c.detailsHref == DetailsHref(e.id) && c.favoriteArg == e.id
    ensures c.isFavorited == isFavorited
  {
    var tags := ShownTags(e.theme);
    Card(
      image := CardImage(e.images),
      tags := tags,
      tagColors := seq(|tags|, i requires 0 <= i < |tags| => ThemeColor(tags[i])),
      overflow := Overflow(e.theme),
      showsEndDate := e.endDate.Some?,
      showsLocation := e.location.Some? && e.location.value != "",
      detailsHref := DetailsHref(e.id),
      favoriteArg := e.id,
      isFavorited := isFavorited)
  }

  /** The card's one state cell: whether the pointer is over it (it then glows). */
  class CardState {
    var isHovered: bool

    constructor ()
      ensures !isHovered
    {
      isHovered := false;
    }

    method MouseEnter()
      modifies this
      ensures isHovered
    {
      isHovered := true;
    }

    method MouseLeave()
      modifies this
      ensures !isHovered
    {
      isHovered := false;
    }
  }
}
