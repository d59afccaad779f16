/** The admin platform form (src/components/PlatformForm.tsx): the id slug, the auto-id on
    name edits, populate and reset, the logo-upload guard and the submit write. Backend
    answers (the upload's public URL, whether a write succeeded) are inputs. */
module PlatformFormModel {
  import opened EventTypes
  import opened Text

  /** The colour a new platform starts with. */
  const DEFAULT_COLOR: string := "#6366f1"

  /** Drops the whitespace at the front. */
  function DropSpaces(s: string): (r: string)
    ensures |r| <= |s|
    ensures r == [] || !IsSpace(r[0])
  {
    if s != [] && IsSpace(s[0]) then DropSpaces(s[1..]) else s
  }

  /** What is left is a suffix of the input. */
  lemma {:induction false} DropSpacesSuffix(s: string)
    ensures DropSpaces(s) == s[|s| - |DropSpaces(s)|..]
  {
    if s != [] && IsSpace(s[0]) {
      DropSpacesSuffix(s[1..]);
      assert s[1..][|s| - 1 - |DropSpaces(s)|..] == s[|s| - |DropSpaces(s)|..];
    }
  }

  /** `s.toLowerCase().replace(/\s+/g, '-')`: ASCII letters lowered, and each maximal run
      of whitespace replaced by a single `-`. */
  function Slug(s: string): (r: string)
    decreases |s|
  {
    if s == [] then []
    else if IsSpace(s[0]) then "-" + Slug(DropSpaces(s[1..]))
    else [Lower(s[0])] + Slug(s[1..])
  }

  /** Already a slug: no whitespace and no upper-case letter. */
  predicate Clean(s: string) {
    forall i :: 0 <= i < |s| ==> !IsSpace(s[i]) && !IsUpper(s[i])
  }

  /** A slug has no whitespace and no upper-case letter, and is no longer than its input. */
  lemma {:induction false} SlugIsClean(s: string)
    ensures Clean(Slug(s))
    ensures |Slug(s)| <= |s|
    decreases |s|
  {
    if s != [] {
      if IsSpace(s[0]) {
        SlugIsClean(DropSpaces(s[1..]));
        assert Slug(s) == "-" + Slug(DropSpaces(s[1..]));
      } else {
        SlugIsClean(s[1..]);
        assert Slug(s) == [Lower(s[0])] + Slug(s[1..]);
      }
    }
  }

  /** A clean string is its own slug. */
  lemma {:induction false} SlugOfClean(s: string)
    ensures Clean(s) ==> Slug(s) == s
    decreases |s|
  {
    if s != [] && Clean(s) {
      assert Clean(s[1..]);
      SlugOfClean(s[1..]);
      assert [s[0]] + s[1..] == s;
    }
  }

  /** Slugging twice is slugging once. */
  lemma SlugIdempotent(s: string)
    ensures Slug(Slug(s)) == Slug(s)
  {
    SlugIsClean(s);
    SlugOfClean(Slug(s));
  }

  /** A word without whitespace is lowered character by character, and nothing else
      happens to it: each ASCII capital becomes its small letter, every other character
      stays. */
  lemma {:induction false} SlugLowersWord(s: string)
    requires forall i :: 0 <= i < |s| ==> !IsSpace(s[i])
    ensures Slug(s) == seq(|s|, i requires 0 <= i < |s| => Lower(s[i]))
    ensures forall i :: 0 <= i < |s| && IsUpper(s[i]) ==> Slug(s)[i] as int == s[i] as int + 32
    decreases |s|
  {
    if s != [] {
      SlugLowersWord(s[1..]);
      var t := seq(|s|, i requires 0 <= i < |s| => Lower(s[i]));
      assert t == [Lower(s[0])] + seq(|s| - 1, i requires 0 <= i < |s| - 1 => Lower(s[1..][i]));
    }
  }

  /** Whitespace between two words becomes one dash, whatever its length. */
  lemma {:induction false} SlugJoinsWords(a: string, gap: string, b: string)
    requires gap != [] && Blank(gap)
    requires a == [] || !IsSpace(a[|a| - 1])
    requires b == [] || !IsSpace(b[0])
    ensures Slug(a + gap + b) == Slug(a) + "-" + Slug(b)
    decreases |a|, 1
  {
    var w := a + gap + b;
    if a == [] {
      assert w == gap + b;
      assert w[0] == gap[0] && w[1..] == gap[1..] + b;
      DropSpacesOver(gap[1..], b);
      assert Slug(w) == "-" + Slug(b);
    } else if IsSpace(a[0]) {
      SlugJoinsLeadingSpace(a, gap, b);
    } else {
      SlugJoinsLeadingChar(a, gap, b);
    }
  }

  lemma {:induction false} SlugJoinsLeadingSpace(a: string, gap: string, b: string)
    requires gap != [] && Blank(gap)
    requires a != [] && IsSpace(a[0]) && !IsSpace(a[|a| - 1])
    requires b == [] || !IsSpace(b[0])
    ensures Slug(a + gap + b) == Slug(a) + "-" + Slug(b)
    decreases |a|, 0
  {
    var rest := LeadingSpaceFacts(a, gap, b);
    SlugJoinsWords(rest, gap, b);
    ConcatAssoc("-", Slug(rest), "-" + Slug(b));
  }

  /** What one leading whitespace run of `a` contributes: a dash, then the slug of the
      rest of `a`, which still ends in a non-space. */
  lemma LeadingSpaceFacts(a: string, gap: string, b: string) returns (rest: string)
    requires gap != [] && Blank(gap)
    requires a != [] && IsSpace(a[0]) && !IsSpace(a[|a| - 1])
    ensures |rest| < |a| && rest != [] && !IsSpace(rest[|rest| - 1])
    ensures Slug(a + gap + b) == "-" + Slug(rest + gap + b)
    ensures Slug(a) == "-" + Slug(rest)
  {
    var tail := a[1..];
    rest := DropSpaces(tail);
    assert tail != [] && tail[|tail| - 1] == a[|a| - 1];
    DropSpacesAppend(tail, gap + b);
    DropSpacesSuffix(tail);
    assert rest[|rest| - 1] == tail[|tail| - 1];
    ConcatAssoc(rest, gap, b);
    SpaceRunThenRest(a[0], tail, rest + gap + b, gap + b);
    assert a == [a[0]] + tail;
    ConcatAssoc(a, gap, b);
    SlugSpaceCons(a[0], tail);
  }

  lemma SpaceRunThenRest(c: char, tail: string, joined: string, more: string)
    requires IsSpace(c)
    requires DropSpaces(tail + more) == joined
    ensures Slug([c] + tail + more) == "-" + Slug(joined)
  {
    assert [c] + tail + more == [c] + (tail + more);
    SlugSpaceCons(c, tail + more);
  }

  lemma {:induction false} SlugJoinsLeadingChar(a: string, gap: string, b: string)
    requires gap != [] && Blank(gap)
    requires a != [] && !IsSpace(a[0]) && !IsSpace(a[|a| - 1])
    requires b == [] || !IsSpace(b[0])
    ensures Slug(a + gap + b) == Slug(a) + "-" + Slug(b)
    decreases |a|, 0
  {
    var tail := a[1..];
    var after := tail + gap + b;
    assert a + gap + b == [a[0]] + after;
    assert a == [a[0]] + tail;
    if tail != [] {
      assert tail[|tail| - 1] == a[|a| - 1];
    }
    var l := [Lower(a[0])];
    calc {
      Slug(a + gap + b);
      { SlugCharCons(a[0], after); }
      l + Slug(after);
      { SlugJoinsWords(tail, gap, b); }
      l + (Slug(tail) + "-" + Slug(b));
      { ConcatAssoc(l, Slug(tail), "-" + Slug(b)); }
      (l + Slug(tail)) + "-" + Slug(b);
      { SlugCharCons(a[0], tail); }
      Slug(a) + "-" + Slug(b);
    }
  }

  lemma ConcatAssoc(x: string, y: string, z: string)
    ensures x + (y + z) == (x + y) + z
  {
  }

  /** One unfolding of `Slug` on a leading non-space character. */
  lemma SlugCharCons(c: char, t: string)
    requires !IsSpace(c)
    ensures Slug([c] + t) == [Lower(c)] + Slug(t)
  {
    assert ([c] + t)[0] == c && ([c] + t)[1..] == t;
  }

  /** One unfolding of `Slug` on a leading whitespace character. */
  lemma SlugSpaceCons(c: char, t: string)
    requires IsSpace(c)
    ensures Slug([c] + t) == "-" + Slug(DropSpaces(t))
  {
    assert ([c] + t)[0] == c && ([c] + t)[1..] == t;
  }

  /** Dropping a run of whitespace in front of a word leaves the word. */
  lemma {:induction false} DropSpacesOver(gap: string, b: string)
    requires Blank(gap)
    requires b == [] || !IsSpace(b[0])
    ensures DropSpaces(gap + b) == b
    decreases |gap|
  {
    if gap == [] {
      assert gap + b == b;
    } else {
      assert (gap + b)[1..] == gap[1..] + b;
      DropSpacesOver(gap[1..], b);
    }
  }

  /** Leading whitespace of a string that ends in a non-space is dropped before anything
      appended to it is reached; what is left is non-empty. */
  lemma {:induction false} DropSpacesAppend(x: string, y: string)
    requires x != [] && !IsSpace(x[|x| - 1])
    ensures DropSpaces(x + y) == DropSpaces(x) + y
    ensures DropSpaces(x) != []
    decreases |x|
  {
    assert (x + y)[0] == x[0];
    if IsSpace(x[0]) {
      assert |x| > 1;
      assert (x + y)[1..] == x[1..] + y;
      assert x[1..][|x[1..]| - 1] == x[|x| - 1];
      DropSpacesAppend(x[1..], y);
    }
  }

  /** The stored platform the form is opened with; nullable columns are options. */
  datatype PlatformRow = PlatformRow(id: Option<string>, name: Option<string>, logo: Option<string>, color: Option<string>)

  /** The row the submit writes. */
  datatype PlatformData = PlatformData(id: string, name: string, logo: string, color: string)

  /** The submit's single write: an update of the row whose id is the original
      `platform.id`, or an insert. */
  datatype PlatformWrite = UpdatePlatform(matchId: Option<string>, data: PlatformData) | InsertPlatform(data: PlatformData)

  /** What a logo file choice led to. */
  datatype LogoOutcome = NoFile | NeedsId | Uploaded(url: string) | UploadFailed

  /** `platformData`: the id is always submitted as its slug. */
  function SubmittedData(id: string, name: string, logo: string, color: string): (d: PlatformData)
    ensures d.id == Slug(id)
    ensures Clean(d.id) && |d.id| <= |id|
    ensures Clean(id) ==> d.id == id
    ensures d.name == name && d.logo == logo && d.color == color
  {
    SlugIsClean(id);
    SlugOfClean(id);
    PlatformData(Slug(id), name, logo, color)
  }

  /** The form component's six state cells. */
  class PlatformFormState {
    var id: string
    var name: string
    var logo: string
    var color: string
    var isLoading: bool
    var logoUploading: bool

    constructor ()
      ensures id == "" && name == "" && logo == "" && color == DEFAULT_COLOR
      ensures !isLoading && !logoUploading
    {
      id, name, logo, color := "", "", "", DEFAULT_COLOR;
      isLoading, logoUploading := false, false;
    }

    /** `resetForm`: the four text cells only. */
    method ResetForm()
      modifies this
      ensures id == "" && name == "" && logo == "" && color == DEFAULT_COLOR
      ensures isLoading == old(isLoading) && logoUploading == old(logoUploading)
    {
      id, name, logo, color := "", "", "", DEFAULT_COLOR;
    }

    /** The populate effect: copies the stored platform with empty defaults (the colour
        defaults to the standard one), or resets when there is none. */
    method Populate(platform: Option<PlatformRow>)
      modifies this
      ensures platform.Some? ==> id == OrElse(platform.value.id, "") && name == OrElse(platform.value.name, "")
      ensures platform.Some? ==> logo == OrElse(platform.value.logo, "") && color == OrElse(platform.value.color, DEFAULT_COLOR)
      ensures platform.None? ==> id == "" && name == "" && logo == "" && color == DEFAULT_COLOR
      ensures isLoading == old(isLoading) && logoUploading == old(logoUploading)
    {
      if platform.Some? {
        id := OrElse(platform.value.id, "");
        name := OrElse(platform.value.name, "");
        logo := OrElse(platform.value.logo, "");
        color := OrElse(platform.value.color, DEFAULT_COLOR);
      } else {
        ResetForm();
      }
    }

    /** The name input: when creating, the id follows as the slug of the name. */
    method ChangeName(value: string, editing: bool)
      modifies this
      ensures name == value
      ensures id == (if editing then old(id) else Slug(value))
      ensures logo == old(logo) && color == old(color)
      ensures isLoading == old(isLoading) && logoUploading == old(logoUploading)
    {
      name := value;
      if !editing {
        id := Slug(value);
      }
    }

    /** The id input, which is disabled while editing. */
    method ChangeId(value: string, editing: bool)
      modifies this
      ensures id == (if editing then old(id) else value)
      ensures name == old(name) && logo == old(logo) && color == old(color)
      ensures isLoading == old(isLoading) && logoUploading == old(logoUploading)
    {
      if !editing {
        id := value;
      }
    }

    /** `handleLogoFileChange`: without a file, or while the id is empty, nothing changes;
        otherwise the uploaded file's public URL becomes the logo, and the upload flag is
        down again afterwards. */
    method HandleLogoFileChange(file: Option<string>, uploadedUrl: Option<string>) returns (outcome: LogoOutcome)
      modifies this
      ensures file.None? ==> outcome == NoFile
      ensures file.Some? && old(id) == "" ==> outcome == NeedsId
      ensures outcome.NoFile? || outcome.NeedsId? ==>
        logo == old(logo) && logoUploading == old(logoUploading)
      ensures file.Some? && old(id) != "" ==>
        outcome == (if uploadedUrl.Some? then Uploaded(uploadedUrl.value) else UploadFailed)
        && !logoUploading && logo == (if uploadedUrl.Some? then uploadedUrl.value else old(logo))
      ensures id == old(id) && name == old(name) && color == old(color) && isLoading == old(isLoading)
    {
      if file.None? {
        return NoFile;
      }
      if id == "" {
        return NeedsId;
      }
      logoUploading := true;
      if uploadedUrl.Some? {
        logo := uploadedUrl.value;
        outcome := Uploaded(uploadedUrl.value);
      } else {
        outcome := UploadFailed;
      }
      logoUploading := false;
    }

    /** `handleSubmit`: one write with the slugged id; success resets the form, and
        loading ends either way. */
    method HandleSubmit(platform: Option<PlatformRow>, writeOk: bool) returns (write: PlatformWrite)
      modifies this
      ensures write.data == SubmittedData(old(id), old(name), old(logo), old(color))
      ensures platform.Some? ==> write == UpdatePlatform(platform.value.id, write.data)
      ensures platform.None? ==> write.InsertPlatform?
      ensures writeOk ==> id == "" && name == "" && logo == "" && color == DEFAULT_COLOR
      ensures !writeOk ==> id == old(id) && name == old(name) && logo == old(logo) && color == old(color)
      ensures !isLoading && logoUploading == old(logoUploading)
    {
      isLoading := true;
      var data := SubmittedData(id, name, logo, color);
      if platform.Some? {
        write := UpdatePlatform(platform.value.id, data);
      } else {
        write := InsertPlatform(data);
      }
      if writeOk {
        ResetForm();
      }
      isLoading := false;
    }
  }

  /** On a new platform, the submitted id is the slug of the last name typed: the
      auto-generated id survives the submit's own slugging unchanged. */
  lemma CreatedIdFollowsName(nameTyped: string, logo: string, color: string)
    ensures SubmittedData(Slug(nameTyped), nameTyped, logo, color).id == Slug(nameTyped)
  {
    SlugIdempotent(nameTyped);
  }
}
