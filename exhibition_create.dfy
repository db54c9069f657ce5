/**
 * The exhibition creation form (src/app/admin/exhibitions/create/page.tsx):
 * the thumbnail check, the ordered checks of a save, the storage path of the
 * thumbnail and the row that is inserted.
 *
 * The storage upload, the public URL and the insert are backend calls; their
 * outcomes are parameters of `SaveExhibition`.
 */
module ExhibitionCreate {
  import opened Wrappers
  import opened Strings
  import opened Files

  /** The form. An unset date is `None`; a set one is the instant it denotes. */
  datatype ExhibitionForm = ExhibitionForm(
    title: string,
    location: string,
    description: string,
    startDate: Option<int>,
    endDate: Option<int>,
    thumbnail: Option<File>)

  const EmptyForm := ExhibitionForm("", "", "", None, None, None)

  /** A thumbnail may be at most 5 MB. */
  const ThumbnailLimit: int := 5 * MiB

  /** The reasons a save stops before anything is uploaded or inserted, in the order they are checked. */
  datatype FormError = MissingTitle | MissingLocation | MissingStartDate | MissingEndDate | EndNotAfterStart

  /** The first check the form fails, or `None` when it may be saved. */
  function Check(form: ExhibitionForm): (r: Option<FormError>)
    ensures r.None? <==>
      !IsBlank(form.title) && !IsBlank(form.location) && form.startDate.Some? && form.endDate.Some?
      && form.startDate.value < form.endDate.value
    ensures r == Some(MissingTitle) <==> IsBlank(form.title)
    ensures r == Some(MissingLocation) <==> !IsBlank(form.title) && IsBlank(form.location)
    ensures r == Some(MissingStartDate) <==>
      !IsBlank(form.title) && !IsBlank(form.location) && form.startDate.None?
    ensures r == Some(MissingEndDate) <==>
      !IsBlank(form.title) && !IsBlank(form.location) && form.startDate.Some? && form.endDate.None?
  {
    if IsBlank(form.title) then Some(MissingTitle)
    else if IsBlank(form.location) then Some(MissingLocation)
    else if form.startDate.None? then Some(MissingStartDate)
    else if form.endDate.None? then Some(MissingEndDate)
    else if form.startDate.value >= form.endDate.value then Some(EndNotAfterStart)
    else None
  }

  /** An exhibition must end strictly after it starts: equal dates are refused. */
  lemma EqualDatesRejected(form: ExhibitionForm)
    requires !IsBlank(form.title) && !IsBlank(form.location)
    requires form.startDate.Some? && form.startDate == form.endDate
    ensures Check(form) == Some(EndNotAfterStart)
  {
  }

  /** The row inserted into `exhibitions`. */
  datatype ExhibitionRecord = ExhibitionRecord(
    title: string,
    location: string,
    description: Option<string>,
    startDate: int,
    endDate: int,
    thumbnailUrl: Option<string>,
    status: string)

  /**
   * The row built from a form that passed its checks: trimmed title and
   * location, the trimmed description or null when it is blank, the dates as
   * entered, and the status "upcoming".
   */
  function RecordOf(form: ExhibitionForm, thumbnailUrl: Option<string>): (rec: ExhibitionRecord)
    requires Check(form).None?
    ensures rec.title == Trim(form.title) && rec.title != []
    ensures rec.location == Trim(form.location) && rec.location != []
    ensures rec.description.None? <==> IsBlank(form.description)
    ensures rec.description.Some? ==> rec.description.value == Trim(form.description)
    ensures rec.startDate < rec.endDate
    ensures rec.startDate == form.startDate.value && rec.endDate == form.endDate.value
    ensures rec.status == "upcoming"
  {
    var description := Trim(form.description);
    ExhibitionRecord(
      Trim(form.title),
      Trim(form.location),
      if description == [] then None else Some(description),
      form.startDate.value,
      form.endDate.value,
      thumbnailUrl,
      "upcoming")
  }

  /** `exhibitions/exhibition-<timestamp>.<extension>`. */
  function ThumbnailPath(timestamp: nat, f: File): (path: string)
    ensures StartsWith(path, "exhibitions/exhibition-")
  {
    StampedName("exhibitions/exhibition-", timestamp, f)
  }

  /** Thumbnails uploaded at different instants never overwrite each other. */
  lemma ThumbnailPathsDistinct(t1: nat, f1: File, t2: nat, f2: File)
    requires t1 != t2
    ensures ThumbnailPath(t1, f1) != ThumbnailPath(t2, f2)
  {
    StampedNamesDistinct("exhibitions/exhibition-", t1, f1, t2, f2);
  }

  /** How a save ended. */
  datatype SaveOutcome = Invalid(error: FormError) | UploadFailed | InsertFailed | Saved

  class CreateExhibitionPage {
    var form: ExhibitionForm
    var saving: bool
    var uploadingThumbnail: bool

    constructor()
      ensures form == EmptyForm && !saving && !uploadingThumbnail
    {
      form := EmptyForm;
      saving := false;
      uploadingThumbnail := false;
    }

    /**
     * Takes the first chosen file as the thumbnail when it passes the size and
     * type checks; otherwise reports why and leaves the form as it was.
     */
    method HandleThumbnailChange(file: Option<File>) returns (problem: Option<FileProblem>)
      modifies this
      ensures file.None? ==> problem.None? && form == old(form)
      ensures file.Some? ==> problem == CheckFile(file.value, ThumbnailLimit)
      ensures problem.Some? ==> form == old(form)
      ensures file.Some? && problem.None? ==> form == old(form).(thumbnail := file)
      ensures saving == old(saving) && uploadingThumbnail == old(uploadingThumbnail)
    {
      if file.None? {
        return None;
      }
      var f := file.value;
      if f.size > ThumbnailLimit {
        return Some(TooLarge);
      }
      if !IsImage(f) {
        return Some(NotImage);
      }
      form := form.(thumbnail := file);
      return None;
    }

    /**
     * Saves the form: the checks in order, then the thumbnail upload when there
     * is one, then the insert. `uploadPath` is the path uploaded to and
     * `inserted` the row sent, when those calls were made.
     */
    method SaveExhibition(timestamp: nat, uploadFails: bool, publicUrl: string, insertFails: bool)
      returns (outcome: SaveOutcome, uploadPath: Option<string>, inserted: Option<ExhibitionRecord>)
      modifies this
      ensures !saving && !uploadingThumbnail
      ensures form == old(form)
      ensures Check(form).Some? ==>
        outcome == Invalid(Check(form).value) && uploadPath.None? && inserted.None?
      ensures Check(form).None? ==>
        uploadPath == (if form.thumbnail.Some? then Some(ThumbnailPath(timestamp, form.thumbnail.value)) else None)
      ensures Check(form).None? && form.thumbnail.Some? && uploadFails ==>
        outcome == UploadFailed && inserted.None?
      ensures Check(form).None? && (form.thumbnail.None? || !uploadFails) ==>
        inserted == Some(RecordOf(form, if form.thumbnail.Some? then Some(publicUrl) else None))
        && outcome == (if insertFails then InsertFailed else Saved)
    {
      saving := true;
      uploadPath, inserted := None, None;
      var problem := Check(form);
      if problem.Some? {
        outcome := Invalid(problem.value);
      } else {
        var thumbnailUrl: Option<string> := None;
        var uploaded := true;
        if form.thumbnail.Some? {
          uploadingThumbnail := true;
          uploadPath := Some(ThumbnailPath(timestamp, form.thumbnail.value));
          if uploadFails {
            uploaded := false;
          } else {
            thumbnailUrl := Some(publicUrl);
          }
        }
        if !uploaded {
          outcome := UploadFailed;
        } else {
          inserted := Some(RecordOf(form, thumbnailUrl));
          outcome := if insertFails then InsertFailed else Saved;
        }
      }
      saving := false;
      uploadingThumbnail := false;
    }
  }
}
