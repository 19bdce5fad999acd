/**
 * The admin category form: its initial state, the change handler that
 * derives a URL slug from the English name while the slug is still empty,
 * and the category object it hands to its `onSubmit` callback.
 */
module AdminCategoryForm {
  import opened Js
  import opened JsArray
  import opened Catalog

  datatype FormData = FormData(name_ar: string, name_en: string, slug: string, image_url: string)

  /** The inputs wired to `handleChange` (their `name` attributes). */
  datatype Field = NameAr | NameEn | Slug

  function FieldValue(f: FormData, field: Field): string
  {
    match field
    case NameAr => f.name_ar
    case NameEn => f.name_en
    case Slug => f.slug
  }

  /** `{ ...prev, [name]: value }`. */
  function WithField(f: FormData, field: Field, value: string): (r: FormData)
    ensures FieldValue(r, field) == value
    ensures forall other :: other != field ==> FieldValue(r, other) == FieldValue(f, other)
    ensures r.image_url == f.image_url
  {
    match field
    case NameAr => f.(name_ar := value)
    case NameEn => f.(name_en := value)
    case Slug => f.(slug := value)
  }

  /** The form's starting state: each field copied from the category, or "" / the placeholder image. */
  function InitialForm(category: Option<Category>): (f: FormData)
    ensures category.None? ==> f == FormData("", "", "", PlaceholderImage)
    ensures category.Some? ==>
      f.name_ar == category.value.name_ar && f.name_en == category.value.name_en &&
      f.slug == category.value.slug &&
      f.image_url == (if category.value.image_url != "" then category.value.image_url else PlaceholderImage)
  {
    match category
    case None => FormData("", "", "", PlaceholderImage)
    case Some(c) => FormData(c.name_ar, c.name_en, c.slug, if c.image_url != "" then c.image_url else PlaceholderImage)
  }

  // ---------------------------------------------------------------------
  // Slug generation: value.toLowerCase().replace(/\s+/g, "-").replace(/[^\w-]+/g, "")

  /** `.replace(/\s+/g, "-")`: each maximal run of white space becomes one hyphen. */
  function CollapseWhitespace(s: string): string
    decreases |s|
  {
    if s == [] then []
    else if IsWhitespace(s[0]) then "-" + CollapseWhitespace(TrimStart(s[1..]))
    else [s[0]] + CollapseWhitespace(s[1..])
  }

  /** Collapsing leaves no white space and introduces no capital letter. */
  lemma CollapseShape(s: string)
    ensures forall i :: 0 <= i < |CollapseWhitespace(s)| ==> !IsWhitespace(CollapseWhitespace(s)[i])
    ensures NoCapitals(s) ==> NoCapitals(CollapseWhitespace(s))
  {
    CollapseNoWhitespace(s);
    if NoCapitals(s) {
      CollapseNoCapitals(s);
    }
  }

  /** The first piece `CollapseWhitespace` emits for a non-empty string, and the suffix it continues on. */
  function CollapseHead(s: string): (r: (string, string))
    requires s != []
    ensures |r.1| < |s| && r.1 == s[|s| - |r.1|..]
    ensures CollapseWhitespace(s) == r.0 + CollapseWhitespace(r.1)
    ensures r.0 == "-" || r.0 == [s[0]]
  {
    if IsWhitespace(s[0]) then ("-", TrimStart(s[1..])) else ([s[0]], s[1..])
  }

  lemma {:induction false} CollapseNoWhitespace(s: string)
    ensures forall i :: 0 <= i < |CollapseWhitespace(s)| ==> !IsWhitespace(CollapseWhitespace(s)[i])
    decreases |s|
  {
    if s != [] {
      var (head, rest) := CollapseHead(s);
      CollapseNoWhitespace(rest);
      var c := CollapseWhitespace(s);
      forall i | 0 <= i < |c| ensures !IsWhitespace(c[i]) {
        if i >= |head| {
          assert c[i] == CollapseWhitespace(rest)[i - |head|];
        }
      }
    }
  }

  lemma {:induction false} CollapseNoCapitals(s: string)
    requires NoCapitals(s)
    ensures NoCapitals(CollapseWhitespace(s))
    decreases |s|
  {
    if s != [] {
      var (head, rest) := CollapseHead(s);
      forall i | 0 <= i < |rest| ensures !('A' <= rest[i] <= 'Z') {
        assert rest[i] == s[|s| - |rest| + i];
      }
      CollapseNoCapitals(rest);
      var c := CollapseWhitespace(s);
      forall i | 0 <= i < |c| ensures !('A' <= c[i] <= 'Z') {
        if i >= |head| {
          assert c[i] == CollapseWhitespace(rest)[i - |head|];
        }
      }
    }
  }

  predicate NoCapitals(s: string)
  {
    forall i :: 0 <= i < |s| ==> !('A' <= s[i] <= 'Z')
  }

  predicate Kept(c: char)
  {
    IsWordChar(c) || c == '-'
  }

  /** `.replace(/[^\w-]+/g, "")`: drop every character outside `[A-Za-z0-9_-]`. */
  function StripNonWord(s: string): (r: string)
    ensures forall i :: 0 <= i < |r| ==> r[i] in s && Kept(r[i])
    ensures forall i :: 0 <= i < |s| && Kept(s[i]) ==> s[i] in r
  {
    Filter(s, Kept)
  }

  function Slugify(value: string): string
  {
    StripNonWord(CollapseWhitespace(ToLowerCase(value)))
  }

  /** What a generated slug is made of: lower-case ASCII letters, digits, `_` and `-`. */
  predicate SlugChar(c: char)
  {
    'a' <= c <= 'z' || IsDigit(c) || c == '_' || c == '-'
  }

  lemma {:induction false} LowerHasNoCapitals(s: string)
    ensures NoCapitals(ToLowerCase(s))
  {
    if s != [] {
      LowerHasNoCapitals(s[1..]);
      var h := LowerChar(s[0]);
      assert forall i :: 0 <= i < |h| ==> !('A' <= h[i] <= 'Z');
      assert ToLowerCase(s) == h + ToLowerCase(s[1..]);
    }
  }

  /** A generated slug holds no white space and only characters from a-z, 0-9, `_` and `-`. */
  lemma SlugAlphabet(value: string)
    ensures forall i :: 0 <= i < |Slugify(value)| ==> SlugChar(Slugify(value)[i]) && !IsWhitespace(Slugify(value)[i])
  {
    LowerHasNoCapitals(value);
    CollapseShape(ToLowerCase(value));
  }

  lemma {:induction false} LowerKeepsSlug(s: string)
    requires forall i :: 0 <= i < |s| ==> SlugChar(s[i])
    ensures ToLowerCase(s) == s
  {
    if s != [] {
      LowerKeepsSlug(s[1..]);
    }
  }

  lemma {:induction false} CollapseKeepsSolid(s: string)
    requires forall i :: 0 <= i < |s| ==> !IsWhitespace(s[i])
    ensures CollapseWhitespace(s) == s
  {
    if s != [] {
      CollapseKeepsSolid(s[1..]);
    }
  }

  lemma {:induction false} StripKeepsSlug(s: string)
    requires forall i :: 0 <= i < |s| ==> SlugChar(s[i])
    ensures StripNonWord(s) == s
  {
    FilterExtremes(s, Kept);
  }

  /** Slug generation is idempotent: a generated slug generates itself. */
  lemma SlugIdempotent(value: string)
    ensures Slugify(Slugify(value)) == Slugify(value)
  {
    SlugAlphabet(value);
    SlugCharsAreFixed(Slugify(value));
  }

  lemma {:induction false} TrimStartOfRun(w: string, b: string)
    requires forall i :: 0 <= i < |w| ==> IsWhitespace(w[i])
    requires b == [] || !IsWhitespace(b[0])
    ensures TrimStart(w + b) == b
  {
    if w != [] {
      assert (w + b)[1..] == w[1..] + b;
      TrimStartOfRun(w[1..], b);
    }
  }

  lemma {:induction false} TrimStartOfPrefix(a: string, b: string)
    requires a != [] && !IsWhitespace(a[|a| - 1])
    ensures TrimStart(a + b) == TrimStart(a) + b
    ensures TrimStart(a) != [] && !IsWhitespace(TrimStart(a)[|TrimStart(a)| - 1])
  {
    if IsWhitespace(a[0]) {
      assert (a + b)[1..] == a[1..] + b;
      TrimStartOfPrefix(a[1..], b);
    }
  }

  /** White-space runs never straddle a non-space character, so collapsing splits there. */
  lemma {:induction false} CollapseSplit(a: string, b: string)
    requires a != [] && !IsWhitespace(a[|a| - 1])
    ensures CollapseWhitespace(a + b) == CollapseWhitespace(a) + CollapseWhitespace(b)
    decreases |a|, 1
  {
    if |a| == 1 {
      assert (a + b)[0] == a[0] && (a + b)[1..] == b && a[1..] == [];
    } else if IsWhitespace(a[0]) {
      CollapseSplitAtRun(a, b);
    } else {
      CollapseSplitAtChar(a, b);
    }
  }

  /** `CollapseSplit` when `a` opens with a white-space run. */
  lemma {:induction false} CollapseSplitAtRun(a: string, b: string)
    requires |a| > 1 && IsWhitespace(a[0]) && !IsWhitespace(a[|a| - 1])
    ensures CollapseWhitespace(a + b) == CollapseWhitespace(a) + CollapseWhitespace(b)
    decreases |a|, 0
  {
    var a' := a[1..];
    assert (a + b)[0] == a[0] && (a + b)[1..] == a' + b;
    TrimStartOfPrefix(a', b);
    var t := TrimStart(a');
    CollapseSplit(t, b);
  }

  /** `CollapseSplit` when `a` opens with a character that is kept. */
  lemma {:induction false} CollapseSplitAtChar(a: string, b: string)
    requires |a| > 1 && !IsWhitespace(a[0]) && !IsWhitespace(a[|a| - 1])
    ensures CollapseWhitespace(a + b) == CollapseWhitespace(a) + CollapseWhitespace(b)
    decreases |a|, 0
  {
    var a' := a[1..];
    assert (a + b)[0] == a[0] && (a + b)[1..] == a' + b;
    assert a'[|a'| - 1] == a[|a| - 1];
    CollapseSplit(a', b);
  }

  lemma CollapseRun(w: string, b: string)
    requires w != [] && forall i :: 0 <= i < |w| ==> IsWhitespace(w[i])
    requires b == [] || !IsWhitespace(b[0])
    ensures CollapseWhitespace(w + b) == "-" + CollapseWhitespace(b)
  {
    var wb := w + b;
    assert wb[0] == w[0] && IsWhitespace(w[0]);
    assert wb[1..] == w[1..] + b;
    TrimStartOfRun(w[1..], b);
  }

  lemma RunAfterPrefix(a: string, w: string, b: string)
    requires a != [] && !IsWhitespace(a[|a| - 1])
    requires w != [] && forall i :: 0 <= i < |w| ==> IsWhitespace(w[i])
    requires b == [] || !IsWhitespace(b[0])
    ensures CollapseWhitespace(a + w + b) == CollapseWhitespace(a) + "-" + CollapseWhitespace(b)
  {
    assert a + w + b == a + (w + b);
    CollapseRun(w, b);
    CollapseSplit(a, w + b);
  }

  /** Each maximal white-space run, wherever it sits, becomes exactly one hyphen. */
  lemma WhitespaceRunBecomesHyphen(a: string, w: string, b: string)
    requires a == [] || !IsWhitespace(a[|a| - 1])
    requires w != [] && forall i :: 0 <= i < |w| ==> IsWhitespace(w[i])
    requires b == [] || !IsWhitespace(b[0])
    ensures CollapseWhitespace(a + w + b) == CollapseWhitespace(a) + "-" + CollapseWhitespace(b)
  {
    if a == [] {
      assert a + w + b == w + b;
      CollapseRun(w, b);
    } else {
      RunAfterPrefix(a, w, b);
    }
  }

  /**
   * Two words of slug characters joined by one space become the two words
   * joined by a hyphen: "washing machines" gives "washing-machines".
   */
  lemma TwoWordsSlug(a: string, b: string)
    requires forall i :: 0 <= i < |a| ==> SlugChar(a[i])
    requires forall i :: 0 <= i < |b| ==> SlugChar(b[i])
    ensures Slugify(a + " " + b) == a + "-" + b
  {
    TwoWordsLower(a, b);
    WhitespaceRunBecomesHyphen(a, " ", b);
    CollapseKeepsSolid(a);
    CollapseKeepsSolid(b);
    HyphenJoinIsSlug(a, b);
    StripKeepsSlug(a + "-" + b);
  }

  lemma TwoWordsLower(a: string, b: string)
    requires forall i :: 0 <= i < |a| ==> SlugChar(a[i])
    requires forall i :: 0 <= i < |b| ==> SlugChar(b[i])
    ensures ToLowerCase(a + " " + b) == a + " " + b
  {
    var space := " ";
    assert ToLowerCase(space) == space by {
      assert space[1..] == [];
    }
    LowerKeepsSlug(a);
    LowerKeepsSlug(b);
    LowerOfJoin(a, space, b);
  }

  /** Lower-casing a join of pieces that lower-casing leaves alone leaves the join alone. */
  lemma LowerOfJoin(a: string, sep: string, b: string)
    requires ToLowerCase(a) == a && ToLowerCase(sep) == sep && ToLowerCase(b) == b
    ensures ToLowerCase(a + sep + b) == a + sep + b
  {
    ToLowerAppend(a, sep);
    ToLowerAppend(a + sep, b);
  }

  lemma HyphenJoinIsSlug(a: string, b: string)
    requires forall i :: 0 <= i < |a| ==> SlugChar(a[i])
    requires forall i :: 0 <= i < |b| ==> SlugChar(b[i])
    ensures forall i :: 0 <= i < |a + "-" + b| ==> SlugChar((a + "-" + b)[i])
  {
    var s := a + "-" + b;
    forall i | 0 <= i < |s| ensures SlugChar(s[i]) {
      if i < |a| { assert s[i] == a[i]; }
      else if i > |a| { assert s[i] == b[i - |a| - 1]; }
    }
  }

  /**
   * Any text made of slug characters is its own slug. The hint under the slug
   * input promises lower-case letters and hyphens only, but digits and
   * underscores pass through as well ("tv_4k" stays "tv_4k"), and a slug
   * typed by hand is not checked at all.
   */
  lemma SlugCharsAreFixed(s: string)
    requires forall i :: 0 <= i < |s| ==> SlugChar(s[i])
    ensures Slugify(s) == s
  {
    LowerKeepsSlug(s);
    CollapseKeepsSolid(s);
    StripKeepsSlug(s);
  }

  // ---------------------------------------------------------------------
  // handleChange and handleSubmit

  /** The form after `handleChange` for `field` and `value`. */
  function ChangeField(f: FormData, field: Field, value: string): (r: FormData)
    ensures field == NameEn && f.slug == "" ==> r == f.(name_en := value, slug := Slugify(value))
    ensures !(field == NameEn && f.slug == "") ==>
      FieldValue(r, field) == value &&
      (forall other :: other != field ==> FieldValue(r, other) == FieldValue(f, other)) &&
      r.image_url == f.image_url
  {
    if field == NameEn && f.slug == "" then f.(name_en := value, slug := Slugify(value))
    else WithField(f, field, value)
  }

  /** The object passed to `onSubmit`: the form, the preview URL if any, the edited category's id. */
  function FinalCategory(f: FormData, imagePreview: Option<string>, category: Option<Category>): (c: Category)
    ensures c.name_ar == f.name_ar && c.name_en == f.name_en && c.slug == f.slug
    ensures c.image_url == OrElse(imagePreview, f.image_url)
    ensures c.id == (if category.Some? then category.value.id else None)
  {
    Category(if category.Some? then category.value.id else None,
             f.name_ar, f.name_en, f.slug, OrElse(imagePreview, f.image_url))
  }

  /** Opening the form on a category and submitting it untouched gives that category back. */
  lemma SubmitUntouched(c: Category)
    requires c.image_url != ""
    ensures FinalCategory(InitialForm(Some(c)), None, Some(c)) == c
  {
  }

  class CategoryForm {
    /** The `category` prop: present when editing. */
    const category: Option<Category>
    var formData: FormData
    var imagePreview: Option<string>
    var isLoading: bool

    constructor (category: Option<Category>)
      ensures this.category == category
      ensures formData == InitialForm(category) && imagePreview == None && !isLoading
    {
      this.category := category;
      formData := InitialForm(category);
      imagePreview := None;
      isLoading := false;
    }

    method HandleChange(field: Field, value: string)
      modifies this`formData
      ensures formData == ChangeField(old(formData), field, value)
    {
      if field == NameEn && formData.slug == "" {
        var slug := Slugify(value);
        formData := formData.(name_en := value, slug := slug);
      } else {
        formData := WithField(formData, field, value);
      }
    }

    /** `handleImageChange`: `objectUrl` is the preview URL made for the chosen file, if one was chosen. */
    method HandleImageChange(objectUrl: Option<string>)
      modifies this`imagePreview
      ensures imagePreview == if objectUrl.Some? then objectUrl else old(imagePreview)
    {
      if objectUrl.Some? {
        imagePreview := objectUrl;
      }
    }

    /** `handleSubmit`: returns what `onSubmit` receives; the loading flag ends cleared. */
    method HandleSubmit() returns (submitted: Category)
      modifies this`isLoading
      ensures submitted == FinalCategory(formData, imagePreview, category)
      ensures !isLoading
    {
      isLoading := true;
      var finalImageUrl := formData.image_url;
      if StringTruthy(imagePreview) {
        finalImageUrl := imagePreview.value;
      }
      submitted := Category(if category.Some? then category.value.id else None,
                            formData.name_ar, formData.name_en, formData.slug, finalImageUrl);
      isLoading := false;
    }
  }
}
