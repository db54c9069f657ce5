/**
 * The place creation form (src/app/admin/places/create/page.tsx): the slug
 * a new category gets, creating a category, the error map of a submit, the
 * operating-hours and link editors, and the address the postcode search
 * fills in.
 *
 * The inserts are backend calls; their outcomes are parameters.
 */
module PlaceCreate {
  import opened Wrappers
  import opened Strings
  import opened Database
  import opened Seqs

  // ---------------------------------------------------------------------------
  // Category slugs

  predicate IsHangulSyllable(c: char) {
    '\U{AC00}' <= c <= '\U{D7A3}'
  }

  /** The characters a slug keeps: a-z, 0-9 and the Hangul syllables 가 to 힣. */
  predicate IsSlugChar(c: char) {
    IsAsciiLower(c) || IsDigit(c) || IsHangulSyllable(c)
  }

  /** `.replace(/[^a-z0-9가-힣]/g, '_')`. */
  function ReplaceDisallowed(s: string): (r: string)
    ensures |r| == |s|
  {
    if s == [] then [] else [if IsSlugChar(s[0]) then s[0] else '_'] + ReplaceDisallowed(s[1..])
  }

  /** Each character is kept when it is a slug character and becomes '_' otherwise. */
  lemma {:induction false} ReplaceDisallowedChars(s: string)
    ensures forall i :: 0 <= i < |s| ==>
      ReplaceDisallowed(s)[i] == if IsSlugChar(s[i]) then s[i] else '_'
  {
    if s != [] {
      ReplaceDisallowedChars(s[1..]);
      forall i | 1 <= i < |s|
        ensures ReplaceDisallowed(s)[i] == ReplaceDisallowed(s[1..])[i - 1]
      {
      }
    }
  }

  /** Replacing keeps exactly the slug characters apart from the '_' it writes. */
  lemma {:induction false} ReplaceDisallowedKeepsSlugChars(s: string)
    ensures Filter(ReplaceDisallowed(s), IsNotUnderscore) == Filter(s, IsSlugChar)
  {
    if s != [] {
      ReplaceDisallowedKeepsSlugChars(s[1..]);
      assert ReplaceDisallowed(s)[1..] == ReplaceDisallowed(s[1..]);
    }
  }

  predicate IsNotUnderscore(c: char) {
    c != '_'
  }

  predicate NoDoubleUnderscore(s: string) {
    forall i :: 0 <= i < |s| - 1 ==> !(s[i] == '_' && s[i + 1] == '_')
  }

  /** `.replace(/_+/g, '_')`: every run of '_' becomes one '_'. */
  function CollapseUnderscores(s: string): (r: string)
    ensures r == [] <==> s == []
    ensures s != [] ==> r[0] == s[0]
  {
    if |s| <= 1 then s
    else if s[0] == '_' && s[1] == '_' then CollapseUnderscores(s[1..])
    else [s[0]] + CollapseUnderscores(s[1..])
  }

  /** After collapsing no "__" is left, and the last character is the one the input ended with. */
  lemma {:induction false} CollapseLeavesNoDouble(s: string)
    ensures NoDoubleUnderscore(CollapseUnderscores(s))
    ensures s != [] ==> CollapseUnderscores(s)[|CollapseUnderscores(s)| - 1] == s[|s| - 1]
  {
    if |s| > 1 {
      CollapseLeavesNoDouble(s[1..]);
      var rest := CollapseUnderscores(s[1..]);
      if !(s[0] == '_' && s[1] == '_') {
        var r := [s[0]] + rest;
        assert r == CollapseUnderscores(s);
        forall i | 0 <= i < |r| - 1 ensures !(r[i] == '_' && r[i + 1] == '_') {
          if i > 0 {
            assert r[i] == rest[i - 1] && r[i + 1] == rest[i];
          } else {
            assert r[1] == rest[0] == s[1];
          }
        }
      }
    }
  }

  /** Collapsing introduces no character that was not there. */
  lemma {:induction false} CollapseKeepsChars(s: string)
    ensures forall c :: c in CollapseUnderscores(s) ==> c in s
  {
    if |s| > 1 {
      CollapseKeepsChars(s[1..]);
    }
  }

  /** Collapsing removes only '_': the other characters stay, in their order. */
  lemma {:induction false} CollapseKeepsNonUnderscores(s: string)
    ensures Filter(CollapseUnderscores(s), IsNotUnderscore) == Filter(s, IsNotUnderscore)
  {
    if |s| > 1 {
      CollapseKeepsNonUnderscores(s[1..]);
      if !(s[0] == '_' && s[1] == '_') {
        assert CollapseUnderscores(s)[1..] == CollapseUnderscores(s[1..]);
      }
    }
  }

  /** A string without "__" has nothing to collapse. */
  lemma {:induction false} CollapseNothingToDo(s: string)
    requires NoDoubleUnderscore(s)
    ensures CollapseUnderscores(s) == s
  {
    if |s| > 1 {
      CollapseNothingToDo(s[1..]);
    }
  }

  /** `.replace(/^_|_$/g, '')`: drops one '_' at the start and one at the end. */
  function StripEdges(s: string): (r: string)
    ensures |r| <= |s|
  {
    var a := if |s| > 0 && s[0] == '_' then s[1..] else s;
    if |a| > 0 && a[|a| - 1] == '_' then a[..|a| - 1] else a
  }

  /** Once runs are collapsed, stripping leaves no '_' at either end and no "__". */
  lemma StripEdgesWellFormed(s: string)
    requires NoDoubleUnderscore(s)
    ensures NoDoubleUnderscore(StripEdges(s))
    ensures StripEdges(s) == [] || (StripEdges(s)[0] != '_' && StripEdges(s)[|StripEdges(s)| - 1] != '_')
    ensures forall c :: c in StripEdges(s) ==> c in s
  {
  }

  /** Stripping removes only '_': the other characters stay, in their order. */
  lemma StripEdgesKeepsNonUnderscores(s: string)
    ensures Filter(StripEdges(s), IsNotUnderscore) == Filter(s, IsNotUnderscore)
  {
    var a := if |s| > 0 && s[0] == '_' then s[1..] else s;
    if |s| > 0 && s[0] == '_' {
      assert Filter(a, IsNotUnderscore) == Filter(s, IsNotUnderscore);
    }
    if |a| > 0 && a[|a| - 1] == '_' {
      assert a == a[..|a| - 1] + [a[|a| - 1]];
      FilterConcat(a[..|a| - 1], [a[|a| - 1]], IsNotUnderscore);
    }
  }

  /** A string with no '_' at either end is not stripped. */
  lemma StripEdgesNothingToDo(s: string)
    requires s == [] || (s[0] != '_' && s[|s| - 1] != '_')
    ensures StripEdges(s) == s
  {
  }

  /** The slug of a category name: lower-case, replace, collapse, strip. */
  function Slug(name: string): string {
    StripEdges(CollapseUnderscores(ReplaceDisallowed(LowerStr(name))))
  }

  /** A well-formed slug: slug characters and single '_' separators, no '_' at either end. */
  predicate IsSlug(s: string) {
    (forall i :: 0 <= i < |s| ==> IsSlugChar(s[i]) || s[i] == '_')
    && NoDoubleUnderscore(s)
    && (s == [] || (s[0] != '_' && s[|s| - 1] != '_'))
  }

  /** Every slug the pipeline makes is well formed. */
  lemma SlugIsWellFormed(name: string)
    ensures IsSlug(Slug(name))
  {
    var lowered := LowerStr(name);
    LowerStrChars(name);
    var replaced := ReplaceDisallowed(lowered);
    ReplaceDisallowedChars(lowered);
    var collapsed := CollapseUnderscores(replaced);
    CollapseKeepsChars(replaced);
    CollapseLeavesNoDouble(replaced);
    StripEdgesWellFormed(collapsed);
    var slug := Slug(name);
    forall i | 0 <= i < |slug| ensures IsSlugChar(slug[i]) || slug[i] == '_' {
      assert slug[i] in collapsed;
      assert slug[i] in replaced;
    }
  }

  /**
   * The slug keeps the lower-cased name's slug characters, all of them and in
   * their order; everything else in it is a '_' separator.
   */
  lemma SlugKeepsContent(name: string)
    ensures Filter(Slug(name), IsNotUnderscore) == Filter(LowerStr(name), IsSlugChar)
  {
    var replaced := ReplaceDisallowed(LowerStr(name));
    ReplaceDisallowedKeepsSlugChars(LowerStr(name));
    CollapseKeepsNonUnderscores(replaced);
    StripEdgesKeepsNonUnderscores(CollapseUnderscores(replaced));
  }

  /** A well-formed slug goes through the pipeline unchanged. */
  lemma SlugOfSlug(s: string)
    requires IsSlug(s)
    ensures Slug(s) == s
  {
    LowerStrChars(s);
    assert LowerStr(s) == s;
    ReplaceDisallowedChars(s);
    assert ReplaceDisallowed(s) == s;
    CollapseNothingToDo(s);
    StripEdgesNothingToDo(s);
  }

  /** Making a slug twice changes nothing the second time. */
  lemma SlugIdempotent(name: string)
    ensures Slug(Slug(name)) == Slug(name)
  {
    SlugIsWellFormed(name);
    SlugOfSlug(Slug(name));
  }

  // ---------------------------------------------------------------------------
  // Form

  /** The form fields that can carry an error. */
  datatype FieldKey = NameField | CategoryField | AddressField

  /** The form, without the coordinates and the image files. */
  datatype PlaceForm = PlaceForm(
    name: string,
    categoryId: string,
    description: string,
    phone: string,
    operatingHours: OperatingHours,
    address: string,
    jibunAddress: string,
    links: PlaceLinks)

  /** The row inserted into `places`. */
  datatype PlaceRecord = PlaceRecord(
    name: string,
    categoryId: string,
    description: Option<string>,
    phone: Option<string>,
    operatingHours: OperatingHours,
    address: string,
    jibunAddress: Option<string>,
    links: PlaceLinks)

  /** `s.trim() || null`. */
  function TrimOrNull(s: string): (r: Option<string>)
    ensures r.None? <==> IsBlank(s)
    ensures r.Some? ==> r.value == Trim(s)
  {
    if IsBlank(s) then None else Some(Trim(s))
  }

  /** One edit of a day's schedule: its opening time, its closing time, or its closed flag. */
  datatype ScheduleEdit = SetOpen(time: string) | SetClose(time: string) | SetClosed(closed: bool)

  function ApplyEdit(s: DaySchedule, edit: ScheduleEdit): (r: DaySchedule)
    ensures edit.SetOpen? ==> r == s.(open := edit.time)
    ensures edit.SetClose? ==> r == s.(close := edit.time)
    ensures edit.SetClosed? ==> r == s.(closed := edit.closed)
  {
    match edit
    case SetOpen(t) => s.(open := t)
    case SetClose(t) => s.(close := t)
    case SetClosed(b) => s.(closed := b)
  }

  /** The postcode search's choice: the road address when there is one, else the address. */
  function ChosenAddress(roadAddress: string, address: string): (r: string)
    ensures roadAddress != "" ==> r == roadAddress
    ensures roadAddress == "" ==> r == address
  {
    if roadAddress != "" then roadAddress else address
  }

  /**
   * The category the dialog inserts: the trimmed name, the slug made from the
   * name, and the trimmed description or null when it is blank.
   */
  function DialogCategory(id: string, name: string, description: string): (c: Category)
    requires !IsBlank(name)
    ensures c.id == id && c.name == Trim(name) && c.name != []
    ensures c.slug == Slug(name) && IsSlug(c.slug)
    ensures c.description.None? <==> IsBlank(description)
  {
    SlugIsWellFormed(name);
    Category(id, Trim(name), Slug(name), TrimOrNull(description))
  }

  class CreatePlacePage {
    var form: PlaceForm
    var errors: map<FieldKey, string>
    var categories: seq<Category>
    var newCategoryName: string
    var newCategoryDescription: string
    var showCategoryModal: bool
    var loading: bool

    constructor()
      ensures form == PlaceForm("", "", "", "", DefaultOperatingHours(), "", "", DefaultPlaceLinks())
      ensures errors == map[] && categories == [] && !loading
      ensures newCategoryName == "" && newCategoryDescription == "" && !showCategoryModal
    {
      form := PlaceForm("", "", "", "", DefaultOperatingHours(), "", "", DefaultPlaceLinks());
      errors := map[];
      categories := [];
      newCategoryName := "";
      newCategoryDescription := "";
      showCategoryModal := false;
      loading := false;
    }

    /**
     * Creates a category from the dialog. A blank name is refused before any
     * insert; a failed insert changes nothing; a created category is appended,
     * selected in the form, and the dialog is closed and cleared.
     */
    method HandleCreateCategory(insertFails: bool, newId: string) returns (inserted: Option<Category>)
      modifies this`categories, this`form, this`newCategoryName, this`newCategoryDescription,
        this`showCategoryModal
      ensures IsBlank(old(newCategoryName)) ==> inserted.None?
      ensures !IsBlank(old(newCategoryName)) ==>
        inserted == Some(DialogCategory(newId, old(newCategoryName), old(newCategoryDescription)))
      ensures IsBlank(old(newCategoryName)) || insertFails ==>
        categories == old(categories) && form == old(form) && newCategoryName == old(newCategoryName)
        && newCategoryDescription == old(newCategoryDescription) && showCategoryModal == old(showCategoryModal)
      ensures !IsBlank(old(newCategoryName)) && !insertFails ==>
        categories == old(categories) + [inserted.value] && form == old(form).(categoryId := newId)
        && newCategoryName == "" && newCategoryDescription == "" && !showCategoryModal
    {
      if IsBlank(newCategoryName) {
        inserted := None;
      } else {
        var category := DialogCategory(newId, newCategoryName, newCategoryDescription);
        inserted := Some(category);
        if !insertFails {
          categories := categories + [category];
          form := form.(categoryId := newId);
          showCategoryModal := false;
          newCategoryName, newCategoryDescription := "", "";
        }
      }
    }

    /**
     * Submits the form. Every failing field gets an error, not only the first;
     * the insert is sent iff there is none.
     */
    method HandleSubmit() returns (inserted: Option<PlaceRecord>)
      modifies this
      ensures NameField in errors <==> IsBlank(form.name)
      ensures CategoryField in errors <==> form.categoryId == ""
      ensures AddressField in errors <==> IsBlank(form.address)
      ensures inserted.Some? <==> errors == map[]
      ensures inserted.Some? ==> inserted.value == PlaceRecord(
        Trim(form.name), form.categoryId, TrimOrNull(form.description), TrimOrNull(form.phone),
        form.operatingHours, Trim(form.address), TrimOrNull(form.jibunAddress), form.links)
      ensures form == old(form) && categories == old(categories) && !loading
      ensures newCategoryName == old(newCategoryName) && newCategoryDescription == old(newCategoryDescription)
      ensures showCategoryModal == old(showCategoryModal)
    {
      var newErrors: map<FieldKey, string> := map[];
      if IsBlank(form.name) {
        newErrors := newErrors[NameField := "장소명을 입력해주세요"];
      }
      if form.categoryId == "" {
        newErrors := newErrors[CategoryField := "카테고리를 선택해주세요"];
      }
      if IsBlank(form.address) {
        newErrors := newErrors[AddressField := "주소를 입력해주세요"];
      }
      errors := newErrors;
      if |newErrors| > 0 {
        assert NameField in newErrors || CategoryField in newErrors || AddressField in newErrors;
        loading := false;
        return None;
      }
      loading := true;
      inserted := Some(PlaceRecord(
        Trim(form.name), form.categoryId, TrimOrNull(form.description), TrimOrNull(form.phone),
        form.operatingHours, Trim(form.address), TrimOrNull(form.jibunAddress), form.links));
      loading := false;
    }

    /** Edits one field of one day's opening hours; every other day and field keeps its value. */
    method UpdateOperatingHours(day: Weekday, edit: ScheduleEdit)
      modifies this
      ensures form.operatingHours.Get(day) == ApplyEdit(old(form.operatingHours.Get(day)), edit)
      ensures forall d :: d != day ==> form.operatingHours.Get(d) == old(form.operatingHours.Get(d))
      ensures form == old(form).(operatingHours := form.operatingHours)
      ensures errors == old(errors) && categories == old(categories) && loading == old(loading)
      ensures newCategoryName == old(newCategoryName) && newCategoryDescription == old(newCategoryDescription)
      ensures showCategoryModal == old(showCategoryModal)
    {
      var hours := form.operatingHours;
      form := form.(operatingHours := hours.With(day, ApplyEdit(hours.Get(day), edit)));
    }

    /** Sets one link; the other links and the rest of the form keep their values. */
    method UpdateLink(kind: LinkKind, value: string)
      modifies this
      ensures kind in form.links && form.links[kind] == value
      ensures forall k :: k != kind ==> (k in form.links <==> k in old(form.links))
      ensures forall k :: k != kind && k in form.links ==> form.links[k] == old(form.links)[k]
      ensures form == old(form).(links := form.links)
      ensures errors == old(errors) && categories == old(categories) && loading == old(loading)
      ensures newCategoryName == old(newCategoryName) && newCategoryDescription == old(newCategoryDescription)
      ensures showCategoryModal == old(showCategoryModal)
    {
      form := form.(links := form.links[kind := value]);
    }

    /**
     * The postcode search's result: the chosen address and the lot-number
     * address are stored, and an address error is cleared.
     */
    method SelectAddress(roadAddress: string, address: string, jibunAddress: string)
      modifies this
      ensures form == old(form).(address := ChosenAddress(roadAddress, address), jibunAddress := jibunAddress)
      ensures errors == old(errors) - {AddressField}
      ensures categories == old(categories) && loading == old(loading)
      ensures newCategoryName == old(newCategoryName) && newCategoryDescription == old(newCategoryDescription)
      ensures showCategoryModal == old(showCategoryModal)
    {
      form := form.(address := ChosenAddress(roadAddress, address), jibunAddress := jibunAddress);
      if AddressField in errors {
        errors := errors - {AddressField};
      }
    }
  }
}
