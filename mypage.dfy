/**
 * The profile page (src/app/mypage/page.tsx): the edit form and its
 * conversions to and from the stored profile, saving, the avatar upload
 * checks and storage paths, the shown name and the completeness gauge.
 *
 * The profile update, the storage calls and the public-URL lookup are
 * backend calls; their results are parameters.
 */
module MyPage {
  import opened Wrappers
  import opened Strings
  import opened Seqs
  import opened Files
  import opened Display

  /** The profile fields the page reads; every one of them may be null. */
  datatype Profile = Profile(
    name: Option<string>, displayName: Option<string>, bio: Option<string>,
    websiteUrl: Option<string>, location: Option<string>, birthDate: Option<string>,
    avatarUrl: Option<string>)

  /** The edit form: six text inputs. */
  datatype EditForm = EditForm(
    name: string, displayName: string, bio: string,
    websiteUrl: string, location: string, birthDate: string)

  /** The record sent by `saveProfile`. */
  datatype ProfileUpdate = ProfileUpdate(
    name: Option<string>, displayName: Option<string>, bio: Option<string>,
    websiteUrl: Option<string>, location: Option<string>, birthDate: Option<string>)

  const EmptyForm := EditForm("", "", "", "", "", "")

  /** `field || ''`: a null field shows as an empty input. */
  function Shown(field: Option<string>): (r: string)
    ensures field.Some? ==> r == field.value
    ensures field.None? ==> r == ""
  {
    OrElse(field, "")
  }

  /** `field || null`: an empty input is stored as null. */
  function Stored(input: string): (r: Option<string>)
    ensures r.None? <==> input == ""
    ensures r.Some? ==> r.value == input
  {
    if input == "" then None else Some(input)
  }

  /** The form filled from a profile, as loading and cancelling do. */
  function FormOf(p: Profile): EditForm {
    EditForm(Shown(p.name), Shown(p.displayName), Shown(p.bio),
             Shown(p.websiteUrl), Shown(p.location), Shown(p.birthDate))
  }

  /** The update built from the form by `saveProfile`. */
  function UpdateOf(f: EditForm): ProfileUpdate {
    ProfileUpdate(Stored(f.name), Stored(f.displayName), Stored(f.bio),
                  Stored(f.websiteUrl), Stored(f.location), Stored(f.birthDate))
  }

  /** The six editable fields of a stored profile. */
  function EditableFields(p: Profile): ProfileUpdate {
    ProfileUpdate(p.name, p.displayName, p.bio, p.websiteUrl, p.location, p.birthDate)
  }

  /** A profile whose six editable fields hold no empty text. */
  predicate NoEmptyTexts(p: Profile) {
    p.name != Some("") && p.displayName != Some("") && p.bio != Some("")
    && p.websiteUrl != Some("") && p.location != Some("") && p.birthDate != Some("")
  }

  /** Saving a form that was loaded and not edited writes back what the profile held. */
  lemma SaveUneditedRestores(p: Profile)
    requires NoEmptyTexts(p)
    ensures UpdateOf(FormOf(p)) == EditableFields(p)
  {
  }

  /** The other way round: a saved form, once loaded again, shows exactly what was typed. */
  lemma ReloadShowsSavedForm(p: Profile, f: EditForm)
    requires EditableFields(p) == UpdateOf(f)
    ensures FormOf(p) == f
  {
  }

  /** `field && field.trim()`: present and not blank. */
  predicate IsFilled(field: Option<string>) {
    field.Some? && !IsBlank(field.value)
  }

  function Filled(): Option<string> -> bool {
    field => IsFilled(field)
  }

  function Unfilled(): Option<string> -> bool {
    field => !IsFilled(field)
  }

  /** The five fields the gauge counts. */
  function GaugeFields(p: Profile): (fields: seq<Option<string>>)
    ensures |fields| == 5
  {
    [p.name, p.displayName, p.bio, p.location, p.avatarUrl]
  }

  /**
   * `calculateCompleteness`: the share of filled gauge fields, in percent.
   * With five fields the rounded share is always an exact multiple of 20.
   */
  function Completeness(p: Profile): (percent: nat)
    ensures percent == 20 * Count(GaugeFields(p), Filled())
    ensures percent % 20 == 0 && percent <= 100
  {
    Count(GaugeFields(p), Filled()) * 100 / 5
  }

  /** The gauge is full exactly when every counted field is filled, and empty exactly when none is. */
  lemma CompletenessExtremes(p: Profile)
    ensures Completeness(p) == 100 <==> forall i :: 0 <= i < 5 ==> IsFilled(GaugeFields(p)[i])
    ensures Completeness(p) == 0 <==> forall i :: 0 <= i < 5 ==> !IsFilled(GaugeFields(p)[i])
  {
    var fields := GaugeFields(p);
    CountSplit(fields, Filled(), Unfilled());
    CountPositive(fields, Filled());
    CountPositive(fields, Unfilled());
  }

  /**
   * The name in the page header: display name, else name, else the email
   * before '@', else "사용자"; an empty text counts as missing.
   */
  function DisplayName(profile: Option<Profile>, email: Option<string>): (r: string)
    ensures r != ""
    ensures profile.Some? && profile.value.displayName.Some? && profile.value.displayName.value != ""
      ==> r == profile.value.displayName.value
    ensures profile.Some? && Shown(profile.value.displayName) == "" && Shown(profile.value.name) != ""
      ==> r == profile.value.name.value
    ensures (profile.None? || (Shown(profile.value.displayName) == "" && Shown(profile.value.name) == ""))
      ==> r == OrElse(EmailLocalPart(email), "사용자")
  {
    var displayName := if profile.Some? then profile.value.displayName else None;
    var name := if profile.Some? then profile.value.name else None;
    OrElse(displayName, OrElse(name, OrElse(EmailLocalPart(email), "사용자")))
  }

  /** The avatar limit: 5 MB. */
  const AvatarMaxBytes: int := 5 * MiB

  /** The storage object a new upload removes first: the old one, if its last segment names an avatar. */
  function OldAvatarPath(userId: string, avatarUrl: Option<string>): (r: Option<string>)
    ensures r.Some? ==> avatarUrl.Some? && Contains(AfterLast(avatarUrl.value, '/'), "avatar-")
    ensures r.Some? ==> r.value == userId + "/" + AfterLast(avatarUrl.value, '/')
    ensures avatarUrl.Some? && Contains(AfterLast(avatarUrl.value, '/'), "avatar-") ==> r.Some?
  {
    if avatarUrl.None? || avatarUrl.value == "" then None
    else
      var oldName := AfterLast(avatarUrl.value, '/');
      if oldName != "" && Contains(oldName, "avatar-") then Some(userId + "/" + oldName) else None
  }

  /** `<user id>/avatar-<timestamp>.<extension>`. */
  function AvatarPath(userId: string, timestamp: nat, f: File): (path: string)
    ensures StartsWith(path, userId + "/")
  {
    userId + "/" + StampedName("avatar-", timestamp, f)
  }

  /**
   * An avatar this page uploaded is recognised by the next upload: whatever
   * the public URL puts in front of the storage path, the old object removed
   * is the one that was stored.
   */
  lemma NextUploadRemovesThisAvatar(base: string, userId: string, timestamp: nat, f: File)
    requires '/' !in f.name
    ensures OldAvatarPath(userId, Some(base + "/" + AvatarPath(userId, timestamp, f)))
         == Some(AvatarPath(userId, timestamp, f))
  {
    var name := StampedName("avatar-", timestamp, f);
    StampedNameHasNoSlash(timestamp, f);
    StampedNameNamesAvatar(timestamp, f);
    var url := base + "/" + AvatarPath(userId, timestamp, f);
    assert url == (base + "/" + userId) + ['/'] + name;
    AfterLastOfJoin(base + "/" + userId, '/', name);
  }

  lemma StampedNameNamesAvatar(timestamp: nat, f: File)
    ensures Contains(StampedName("avatar-", timestamp, f), "avatar-")
  {
    var name := StampedName("avatar-", timestamp, f);
    assert name[..7] == "avatar-";
    assert OccursAt(name, "avatar-", 0);
  }

  lemma StampedNameHasNoSlash(timestamp: nat, f: File)
    requires '/' !in f.name
    ensures '/' !in StampedName("avatar-", timestamp, f)
  {
    var digits := DecimalString(timestamp);
    var ext := Extension(f);
    assert '/' !in digits && '/' !in ext;
    assert StampedName("avatar-", timestamp, f) == "avatar-" + digits + "." + ext;
  }

  /** The outcome of a backend call that reports an error. */
  datatype CallOutcome = Ok | Failed(message: string)

  /** The storage and profile calls one avatar upload made. */
  datatype AvatarCalls = AvatarCalls(removed: Option<string>, uploaded: Option<string>, newAvatarUrl: Option<string>)

  const NoCalls := AvatarCalls(None, None, None)

  class MyPageState {
    var profile: Option<Profile>
    var editForm: EditForm
    var isEditing: bool
    var saving: bool
    var uploadingAvatar: bool

    constructor(profile: Option<Profile>)
      ensures this.profile == profile && editForm == EmptyForm
      ensures !isEditing && !saving && !uploadingAvatar
    {
      this.profile := profile;
      editForm := EmptyForm;
      isEditing := false;
      saving := false;
      uploadingAvatar := false;
    }

    /** The effect that fills the form whenever a profile is loaded. */
    method LoadForm()
      modifies this`editForm
      ensures profile.Some? ==> editForm == FormOf(profile.value)
      ensures profile.None? ==> editForm == old(editForm)
    {
      if profile.Some? {
        editForm := FormOf(profile.value);
      }
    }

    /** `startEditing`. */
    method StartEditing()
      modifies this`isEditing
      ensures isEditing
    {
      isEditing := true;
    }

    /** `cancelEditing`: leaves edit mode and throws the edits away. */
    method CancelEditing()
      modifies this`isEditing, this`editForm
      ensures !isEditing
      ensures profile.Some? ==> editForm == FormOf(profile.value)
      ensures profile.None? ==> editForm == old(editForm)
    {
      isEditing := false;
      if profile.Some? {
        editForm := FormOf(profile.value);
      }
    }

    /**
     * `saveProfile`: sends the form as an update; a failure keeps the page in
     * edit mode, a success leaves it. Saving ends either way.
     */
    method SaveProfile(outcome: CallOutcome) returns (sent: ProfileUpdate)
      modifies this`saving, this`isEditing
      ensures sent == UpdateOf(editForm)
      ensures outcome.Failed? ==> isEditing == old(isEditing)
      ensures outcome.Ok? ==> !isEditing
      ensures !saving
    {
      saving := true;
      sent := UpdateOf(editForm);
      if outcome.Ok? {
        isEditing := false;
      }
      saving := false;
    }

    /**
     * `uploadAvatar`: without a user or a file nothing happens; a file over
     * 5 MB or not an image is refused before any storage call; otherwise a
     * recognisable old avatar is removed, the new file stored under a fresh
     * path, and the profile pointed at its public URL.
     */
    method UploadAvatar(userId: Option<string>, chosen: seq<File>, timestamp: nat,
                        upload: CallOutcome, publicUrl: string)
      returns (calls: AvatarCalls)
      modifies this`uploadingAvatar
      ensures userId.None? || chosen == [] ==> calls == NoCalls
      ensures userId.Some? && chosen != [] && CheckFile(chosen[0], AvatarMaxBytes).Some? ==> calls == NoCalls
      ensures userId.Some? && chosen != [] && CheckFile(chosen[0], AvatarMaxBytes).None? ==>
        calls.removed == OldAvatarPath(userId.value, if profile.Some? then profile.value.avatarUrl else None)
        && calls.uploaded == Some(AvatarPath(userId.value, timestamp, chosen[0]))
        && (calls.newAvatarUrl.Some? <==> upload.Ok?)
        && (upload.Ok? ==> calls.newAvatarUrl == Some(publicUrl))
      ensures !uploadingAvatar
    {
      uploadingAvatar := true;
      calls := NoCalls;
      if userId.None? || |chosen| == 0 {
        uploadingAvatar := false;
        return;
      }
      var file := chosen[0];
      if file.size > AvatarMaxBytes || !IsImage(file) {
        uploadingAvatar := false;
        return;
      }
      var removed := OldAvatarPath(userId.value, if profile.Some? then profile.value.avatarUrl else None);
      var path := AvatarPath(userId.value, timestamp, file);
      if upload.Failed? {
        calls := AvatarCalls(removed, Some(path), None);
      } else {
        calls := AvatarCalls(removed, Some(path), Some(publicUrl));
      }
      uploadingAvatar := false;
    }
  }
}
