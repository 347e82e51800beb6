/**
 * The project editor dialog of the gallery: a form seeded from the website being edited
 * (or empty when adding one), field-by-field edits, and the save that turns the
 * comma-separated tag text back into a tag list and fills in the id.
 */
module EditWebsiteModal {
  import opened Wrappers
  import opened Types
  import opened Text

  /** `tagsInput.split(',')`: the pieces between commas, empty ones included, in order. */
  function Split(s: string): (pieces: seq<string>)
    ensures |pieces| >= 1
    ensures forall i :: 0 <= i < |pieces| ==> ',' !in pieces[i]
  {
    if s == [] then [""]
    else
      var rest := Split(s[1..]);
      if s[0] == ',' then [""] + rest
      else [[s[0]] + rest[0]] + rest[1..]
  }

  /** `parts.join(sep)`: the parts in order with `sep` between neighbours; no parts give the empty string. */
  function Join(parts: seq<string>, sep: string): (r: string)
    ensures parts == [] ==> r == ""
  {
    if parts == [] then ""
    else if |parts| == 1 then parts[0]
    else parts[0] + sep + Join(parts[1..], sep)
  }

  /** The joined text starts with the first part and ends with the last. */
  lemma {:induction false} JoinEnds(parts: seq<string>, sep: string)
    requires |parts| >= 1
    ensures parts[0] <= Join(parts, sep)
    ensures var last := parts[|parts| - 1]; |last| <= |Join(parts, sep)| && Join(parts, sep)[|Join(parts, sep)| - |last|..] == last
  {
    if |parts| > 1 {
      JoinEnds(parts[1..], sep);
      var tail := Join(parts[1..], sep);
      assert Join(parts, sep) == (parts[0] + sep) + tail;
      assert parts[|parts| - 1] == parts[1..][|parts[1..]| - 1];
    }
  }

  /** Joining the pieces with commas gives back the text that was split. */
  lemma {:induction false} JoinSplit(s: string)
    ensures Join(Split(s), ",") == s
  {
    if s != [] {
      var rest := Split(s[1..]);
      JoinSplit(s[1..]);
      if s[0] == ',' {
        assert Split(s) == [""] + rest;
        assert ([""] + rest)[1..] == rest;
      } else {
        assert Split(s) == [[s[0]] + rest[0]] + rest[1..];
        if |rest| > 1 {
          assert ([[s[0]] + rest[0]] + rest[1..])[1..] == rest[1..];
        }
      }
    }
  }

  /** Splitting text that starts with a comma-free stretch `a` glues `a` onto the first piece. */
  lemma {:induction false} SplitAfterPrefix(a: string, rest: string)
    requires ',' !in a
    ensures Split(a + rest) == [a + Split(rest)[0]] + Split(rest)[1..]
  {
    if a == [] {
      var pieces := Split(rest);
      assert a + rest == rest;
      assert a + pieces[0] == pieces[0];
      assert pieces == [pieces[0]] + pieces[1..];
    } else {
      assert (a + rest)[0] == a[0];
      assert (a + rest)[1..] == a[1..] + rest;
      SplitAfterPrefix(a[1..], rest);
      assert [a[0]] + (a[1..] + Split(rest)[0]) == a + Split(rest)[0];
    }
  }

  /** Splitting comma-joined comma-free parts gives back the parts. */
  lemma {:induction false} SplitJoin(parts: seq<string>)
    requires |parts| >= 1
    requires forall i :: 0 <= i < |parts| ==> ',' !in parts[i]
    ensures Split(Join(parts, ",")) == parts
  {
    if |parts| == 1 {
      SplitAfterPrefix(parts[0], "");
      assert parts[0] + "" == parts[0];
    } else {
      var tail := Join(parts[1..], ",");
      SplitJoin(parts[1..]);
      SplitAfterPrefix(parts[0], "," + tail);
      assert ("," + tail)[0] == ',';
      assert ("," + tail)[1..] == tail;
      assert Split("," + tail) == [""] + Split(tail);
      assert Join(parts, ",") == parts[0] + ("," + tail);
      assert parts[0] + "" == parts[0];
      assert parts == [parts[0]] + parts[1..];
    }
  }

  /** `.map(tag => tag.trim())`. */
  function TrimEach(pieces: seq<string>): (trimmed: seq<string>)
    ensures |trimmed| == |pieces|
    ensures forall i :: 0 <= i < |pieces| ==> trimmed[i] == Trim(pieces[i])
  {
    seq(|pieces|, i requires 0 <= i < |pieces| => Trim(pieces[i]))
  }

  /** `.filter(tag => tag)`: drops the empty strings, keeps the rest in order. */
  function DropEmpty(pieces: seq<string>): (kept: seq<string>)
    ensures |kept| <= |pieces|
    ensures forall i :: 0 <= i < |kept| ==> kept[i] != "" && kept[i] in pieces
    ensures (forall i :: 0 <= i < |pieces| ==> pieces[i] != "") ==> kept == pieces
  {
    if pieces == [] then []
    else
      var rest := DropEmpty(pieces[1..]);
      if pieces[0] == "" then rest else [pieces[0]] + rest
  }

  /** A single piece survives exactly when it is non-empty. */
  lemma DropEmptySingle(x: string)
    ensures DropEmpty([x]) == (if x == "" then [] else [x])
  {
    assert [x][1..] == [];
  }

  /** Every non-empty piece survives, as often as it occurs. */
  lemma {:induction false} DropEmptyCounts(pieces: seq<string>)
    ensures forall x :: x != "" ==> multiset(DropEmpty(pieces))[x] == multiset(pieces)[x]
  {
    if pieces != [] {
      DropEmptyCounts(pieces[1..]);
      assert pieces == [pieces[0]] + pieces[1..];
    }
  }

  /** Filtering keeps order: the survivors of a concatenation are the survivors of each part, in turn. */
  lemma {:induction false} DropEmptyAppend(a: seq<string>, b: seq<string>)
    ensures DropEmpty(a + b) == DropEmpty(a) + DropEmpty(b)
  {
    if a != [] {
      assert (a + b)[0] == a[0];
      assert (a + b)[1..] == a[1..] + b;
      DropEmptyAppend(a[1..], b);
    } else {
      assert a + b == b;
    }
  }

  /** A tag as the editor produces it: non-empty, free of commas and of surrounding whitespace. */
  predicate IsTag(t: string) {
    t != "" && ',' !in t && IsTrimmed(t)
  }

  /** The tag list saved from the tag text: split at commas, trim each piece, drop the empty ones. */
  function ParseTags(input: string): (tags: seq<string>)
    ensures forall i :: 0 <= i < |tags| ==> IsTag(tags[i])
  {
    var pieces := Split(input);
    var trimmed := TrimEach(pieces);
    assert forall j :: 0 <= j < |trimmed| ==> trimmed[j] == "" || IsTag(trimmed[j]) by {
      forall j | 0 <= j < |trimmed| ensures trimmed[j] == "" || IsTag(trimmed[j]) {
        if ',' in trimmed[j] {
          TrimKeepsCharacters(pieces[j], ',');
        }
      }
    }
    var kept := DropEmpty(trimmed);
    kept
  }

  /** A leading comma of the text starts a new, empty piece. */
  lemma SplitConsComma(t: string)
    ensures Split([','] + t) == [""] + Split(t)
  {
    assert ([','] + t)[1..] == t;
  }

  /** Any other leading character joins the first piece. */
  lemma SplitConsOther(c: char, t: string)
    requires c != ','
    ensures Split([c] + t) == [[c] + Split(t)[0]] + Split(t)[1..]
  {
    assert ([c] + t)[0] == c;
    assert ([c] + t)[1..] == t;
  }

  /** Gluing a character onto the first of some pieces, then appending more pieces, in either order (a hint for the solver, not a claim about the dialog). */
  lemma GlueFirstAppend(c: char, left: seq<string>, right: seq<string>)
    requires |left| >= 1
    ensures [[c] + (left + right)[0]] + (left + right)[1..] == ([[c] + left[0]] + left[1..]) + right
  {
    assert (left + right)[0] == left[0];
    assert (left + right)[1..] == left[1..] + right;
  }

  /** The inductive step of `SplitAtComma`: one more character in front of the text before the comma. */
  lemma SplitAtCommaCons(c: char, a: string, b: string)
    requires Split(a + "," + b) == Split(a) + Split(b)
    ensures Split([c] + (a + "," + b)) == Split([c] + a) + Split(b)
  {
    var t := a + "," + b;
    if c == ',' {
      SplitConsComma(t);
      SplitConsComma(a);
      assert [""] + (Split(a) + Split(b)) == ([""] + Split(a)) + Split(b);
    } else {
      SplitConsOther(c, t);
      SplitConsOther(c, a);
      GlueFirstAppend(c, Split(a), Split(b));
    }
  }

  /** Splitting at a comma: the pieces before it, then the pieces after it. */
  lemma {:induction false} SplitAtComma(a: string, b: string)
    ensures Split(a + "," + b) == Split(a) + Split(b)
  {
    if a == [] {
      assert a + "," + b == [','] + b;
      SplitConsComma(b);
    } else {
      var c, a' := a[0], a[1..];
      assert a + "," + b == [c] + (a' + "," + b);
      assert a == [c] + a';
      SplitAtComma(a', b);
      SplitAtCommaCons(c, a', b);
    }
  }

  /** `map(trim)` works piece by piece. */
  lemma TrimEachAppend(a: seq<string>, b: seq<string>)
    ensures TrimEach(a + b) == TrimEach(a) + TrimEach(b)
  {
  }

  /**
   * Parsing text with a comma in it: the tags before the comma, then the tags after it.
   * Together with `ParseTagsPiece` this fixes every parse: the tags are the trimmed
   * comma-separated pieces, empty ones removed, in input order.
   */
  lemma ParseTagsAtComma(a: string, b: string)
    ensures ParseTags(a + "," + b) == ParseTags(a) + ParseTags(b)
  {
    SplitAtComma(a, b);
    TrimEachAppend(Split(a), Split(b));
    DropEmptyAppend(TrimEach(Split(a)), TrimEach(Split(b)));
  }

  /** A comma-free stretch parses to its trim, or to no tag when it is blank. */
  lemma ParseTagsPiece(a: string)
    requires ',' !in a
    ensures ParseTags(a) == (if Trim(a) == "" then [] else [Trim(a)])
  {
    SplitAfterPrefix(a, "");
    assert a + "" == a;
    assert Split("") == [""];
    assert Split(a) == [a];
    assert TrimEach([a]) == [Trim(a)];
  }

  /** The text shown for a tag list: `tags.join(', ')`. */
  function TagsText(tags: seq<string>): (text: string)
    ensures tags == [] ==> text == ""
    ensures |tags| >= 1 ==> tags[0] <= text
  {
    Join(tags, ", ")
  }

  /** The pieces `tags.join(', ')` consists of between its commas: each tag after the first keeps a leading space. */
  function SpacedTags(tags: seq<string>): (pieces: seq<string>)
    ensures |pieces| == |tags|
  {
    seq(|tags|, i requires 0 <= i < |tags| => if i == 0 then tags[0] else " " + tags[i])
  }

  /** Joining a first part onto at least one more puts a comma between it and the rest (a hint for the solver). */
  lemma JoinCons(first: string, rest: seq<string>)
    requires |rest| >= 1
    ensures Join([first] + rest, ",") == first + "," + Join(rest, ",")
  {
    assert ([first] + rest)[1..] == rest;
  }

  /** String concatenation is associative (a hint for the solver, used step by step in `JoinExtendFirst`). */
  lemma ConcatAssoc(a: string, b: string, c: string)
    ensures (a + b) + c == a + (b + c)
  {
  }

  /** Extending the first part extends the joined text at its front. */
  lemma JoinExtendFirst(x: string, parts: seq<string>)
    requires |parts| >= 1
    ensures Join([x + parts[0]] + parts[1..], ",") == x + Join(parts, ",")
  {
    if |parts| > 1 {
      var rest := Join(parts[1..], ",");
      var tail := "," + rest;
      calc {
        Join([x + parts[0]] + parts[1..], ",");
        { JoinCons(x + parts[0], parts[1..]); }
        (x + parts[0]) + "," + rest;
        { ConcatAssoc(x + parts[0], ",", rest); }
        (x + parts[0]) + tail;
        { ConcatAssoc(x, parts[0], tail); }
        x + (parts[0] + tail);
        { ConcatAssoc(parts[0], ",", rest); }
        x + (parts[0] + "," + rest);
      }
    }
  }

  /** `tags.join(', ')` is the comma-join of the spaced tags. */
  lemma {:induction false} JoinCommaSpace(tags: seq<string>)
    requires |tags| >= 1
    ensures Join(tags, ", ") == Join(SpacedTags(tags), ",")
  {
    if |tags| > 1 {
      var spaced := SpacedTags(tags);
      var later := SpacedTags(tags[1..]);
      JoinCommaSpace(tags[1..]);
      assert spaced[1..] == [" " + later[0]] + later[1..];
      JoinExtendFirst(" ", later);
      assert tags[0] + ", " + Join(tags[1..], ", ") == tags[0] + "," + (" " + Join(later, ","));
    }
  }

  /** The pieces of `tags.join(', ')` split at commas: the first tag, then each later one after a space. */
  lemma SplitTagsText(tags: seq<string>)
    requires |tags| >= 1
    requires forall i :: 0 <= i < |tags| ==> ',' !in tags[i]
    ensures Split(TagsText(tags)) == SpacedTags(tags)
  {
    JoinCommaSpace(tags);
    var spaced := SpacedTags(tags);
    forall i | 0 <= i < |spaced| ensures ',' !in spaced[i] {
      if i > 0 {
        assert spaced[i] == " " + tags[i];
      }
    }
    SplitJoin(spaced);
  }

  /** Trimming the pieces of `tags.join(', ')` gives back the tags. */
  lemma TrimTagsTextPieces(tags: seq<string>)
    requires |tags| >= 1
    requires forall i :: 0 <= i < |tags| ==> IsTag(tags[i])
    ensures TrimEach(Split(TagsText(tags))) == tags
  {
    SplitTagsText(tags);
    var pieces := SpacedTags(tags);
    forall i | 0 <= i < |tags| ensures Trim(pieces[i]) == tags[i] {
      TrimTrimmed(tags[i]);
      if i > 0 {
        TrimSkipsLeadingSpace(" ", tags[i]);
      }
    }
  }

  /** Round trip: well-formed tags shown as `tags.join(', ')` parse back to the same tags. */
  lemma ParseTagsText(tags: seq<string>)
    requires forall i :: 0 <= i < |tags| ==> IsTag(tags[i])
    ensures ParseTags(TagsText(tags)) == tags
  {
    if tags == [] {
      assert Split("") == [""];
      assert Trim("") == "";
    } else {
      TrimTagsTextPieces(tags);
    }
  }

  /** Saving normalises the tag text once and for all: parsing the shown text of parsed tags changes nothing. */
  lemma ParseTagsIdempotent(input: string)
    ensures ParseTags(TagsText(ParseTags(input))) == ParseTags(input)
  {
    ParseTagsText(ParseTags(input));
  }

  /** `Omit<Website, 'id'>`: the form's fields. */
  datatype WebsiteDraft = WebsiteDraft(
    title: string,
    description: string,
    imageUrl: string,
    url: string,
    tags: seq<string>)

  /** The text fields `handleChange` can update, by their `name` attribute. */
  datatype FieldName = Title | Description | ImageUrl | Url

  const EmptyDraft: WebsiteDraft := WebsiteDraft("", "", "", "", [])

  /** The form the effect sets up for a website, or the empty form when there is none. */
  function SeededDraft(website: Option<Website>): (d: WebsiteDraft)
    ensures website.None? ==> d == EmptyDraft
    ensures website.Some? ==>
      && d.title == website.value.title && d.description == website.value.description
      && d.imageUrl == website.value.imageUrl && d.url == website.value.url
      && d.tags == website.value.tags
  {
    match website
    case None => EmptyDraft
    case Some(w) => WebsiteDraft(w.title, w.description, w.imageUrl, w.url, w.tags)
  }

  /** The tag text the effect sets up: the website's tags joined by ", ", or empty. */
  function SeededTagsText(website: Option<Website>): (text: string)
    ensures website.None? ==> text == ""
    ensures website.Some? && (forall i :: 0 <= i < |website.value.tags| ==> IsTag(website.value.tags[i]))
            ==> ParseTags(text) == website.value.tags
  {
    match website
    case None => ""
    case Some(w) =>
      var text := TagsText(w.tags);
      assert (forall i :: 0 <= i < |w.tags| ==> IsTag(w.tags[i])) ==> ParseTags(text) == w.tags by {
        if forall i :: 0 <= i < |w.tags| ==> IsTag(w.tags[i]) {
          ParseTagsText(w.tags);
        }
      }
      text
  }

  /** `{ ...prev, [name]: value }`: the named field takes the value, the others are kept. */
  function WithField(d: WebsiteDraft, name: FieldName, value: string): (e: WebsiteDraft)
    ensures e.title == (if name == Title then value else d.title)
    ensures e.description == (if name == Description then value else d.description)
    ensures e.imageUrl == (if name == ImageUrl then value else d.imageUrl)
    ensures e.url == (if name == Url then value else d.url)
    ensures e.tags == d.tags
  {
    match name
    case Title => d.(title := value)
    case Description => d.(description := value)
    case ImageUrl => d.(imageUrl := value)
    case Url => d.(url := value)
  }

  /** `website?.id || 0`: the edited website's id, or 0 for a new one (0 is the only falsy integer). */
  function SavedId(website: Option<Website>): (id: int)
    ensures id == (if website.Some? then website.value.id else 0)
  {
    match website
    case None => 0
    case Some(w) => if w.id != 0 then w.id else 0
  }

  /** The website handed to `onSave`: the form fields, the parsed tags and the id. */
  function SavedWebsite(d: WebsiteDraft, tagsText: string, website: Option<Website>): (w: Website)
    ensures && w.title == d.title && w.description == d.description
            && w.imageUrl == d.imageUrl && w.url == d.url
    ensures w.tags == ParseTags(tagsText)
    ensures w.id == (if website.Some? then website.value.id else 0)
  {
    Website(SavedId(website), d.title, d.description, d.imageUrl, d.url, ParseTags(tagsText))
  }

  /** Opening a website for editing and saving it untouched gives back the same website. */
  lemma SaveUnchangedEdit(w: Website)
    requires forall i :: 0 <= i < |w.tags| ==> IsTag(w.tags[i])
    ensures SavedWebsite(SeededDraft(Some(w)), SeededTagsText(Some(w)), Some(w)) == w
  {
    ParseTagsText(w.tags);
  }

  /** The dialog's state: the current `website` prop, `formData` and `tagsInput`. */
  class EditWebsiteForm {
    var website: Option<Website>
    var formData: WebsiteDraft
    var tagsInput: string

    /** Mounting: the effect runs once with the initial prop. */
    constructor (website: Option<Website>)
      ensures this.website == website
      ensures formData == SeededDraft(website) && tagsInput == SeededTagsText(website)
    {
      this.website := website;
      formData := SeededDraft(website);
      tagsInput := SeededTagsText(website);
    }

    /** A new `website` prop and the effect that reseeds the form from it. */
    method Seed(website: Option<Website>)
      modifies this
      ensures this.website == website
      ensures formData == SeededDraft(website) && tagsInput == SeededTagsText(website)
    {
      this.website := website;
      formData := SeededDraft(website);
      tagsInput := SeededTagsText(website);
    }

    /** `handleChange` for one of the four text fields. */
    method HandleChange(name: FieldName, value: string)
      modifies this`formData
      ensures formData == WithField(old(formData), name, value)
    {
      match name {
        case Title => formData := formData.(title := value);
        case Description => formData := formData.(description := value);
        case ImageUrl => formData := formData.(imageUrl := value);
        case Url => formData := formData.(url := value);
      }
    }

    /** `handleTagsChange`. */
    method HandleTagsChange(value: string)
      modifies this`tagsInput
      ensures tagsInput == value
    {
      tagsInput := value;
    }

    /** `handleSubmit`: the website passed to `onSave`; the form itself is not changed. */
    method HandleSubmit() returns (saved: Website)
      ensures saved == SavedWebsite(formData, tagsInput, website)
    {
      saved := SavedWebsite(formData, tagsInput, website);
    }
  }
}
