/** The settings page: the profile and password schemas, the checks on a
    newly picked profile picture or cover image, and the order of the save
    requests. */
module Settings {
  import opened Outcomes
  import opened Types
  import Js

  const MinName: nat := 2
  const MaxBio: nat := 500
  const MinNewPassword: nat := 8

  datatype ProfileForm = ProfileForm(firstName: string, lastName: string, bio: Option<string>, email: string)

  datatype ProfileField = FirstName | LastName | Bio | Email

  /** `profileSchema`: names of at least two characters, an optional bio
      of at most 500, and an email that `isEmail` accepts (the format check
      itself is not modelled). Lengths are UTF-16 code units. */
  function ProfileErrors(form: ProfileForm, isEmail: string -> bool): (errs: set<ProfileField>)
    ensures FirstName in errs <==> Js.Utf16Length(form.firstName) < MinName
    ensures LastName in errs <==> Js.Utf16Length(form.lastName) < MinName
    ensures Bio in errs <==> form.bio.Some? && Js.Utf16Length(form.bio.value) > MaxBio
    ensures Email in errs <==> !isEmail(form.email)
  {
    (if Js.Utf16Length(form.firstName) < MinName then {FirstName} else {})
    + (if Js.Utf16Length(form.lastName) < MinName then {LastName} else {})
    + (if form.bio.Some? && Js.Utf16Length(form.bio.value) > MaxBio then {Bio} else {})
    + (if !isEmail(form.email) then {Email} else {})
  }

  datatype PasswordForm = PasswordForm(currentPassword: string, newPassword: string, confirmPassword: string)

  datatype PasswordField = CurrentPassword | NewPassword | ConfirmPassword

  /** `passwordSchema`: a non-empty current password, a new one of at
      least eight characters, and a confirmation equal to it; a mismatch is
      reported on the confirmation field. Lengths are UTF-16 code units;
      no field of this schema can abort the parse, so the confirmation is
      always checked. */
  function PasswordErrors(form: PasswordForm): (errs: set<PasswordField>)
    ensures CurrentPassword in errs <==> form.currentPassword == ""
    ensures NewPassword in errs <==> Js.Utf16Length(form.newPassword) < MinNewPassword
    ensures ConfirmPassword in errs <==> form.newPassword != form.confirmPassword
  {
    (if Js.Utf16Length(form.currentPassword) < 1 then {CurrentPassword} else {})
    + (if Js.Utf16Length(form.newPassword) < MinNewPassword then {NewPassword} else {})
    + (if form.newPassword != form.confirmPassword then {ConfirmPassword} else {})
  }

  /** A password form validates exactly when a current password is given
      and the new one is confirmed and at least eight code units long. */
  lemma ValidPasswordFormIsConfirmed(form: PasswordForm)
    ensures PasswordErrors(form) == {} <==>
      form.confirmPassword == form.newPassword && Js.Utf16Length(form.newPassword) >= MinNewPassword && form.currentPassword != ""
  {
    if PasswordErrors(form) == {} {
      assert ConfirmPassword !in PasswordErrors(form);
      assert NewPassword !in PasswordErrors(form);
      assert CurrentPassword !in PasswordErrors(form);
    }
  }

  /** Four astral characters are eight code units: such a new password
      meets the minimum, although it has only four characters. */
  lemma FourEmojiPasswordIsLongEnough()
    ensures var p := "\U{1F511}\U{1F511}\U{1F511}\U{1F511}";
            |p| == 4 && PasswordErrors(PasswordForm("old", p, p)) == {}
  {
    var p := "\U{1F511}\U{1F511}\U{1F511}\U{1F511}";
    assert forall i :: 0 <= i < |p| ==> Js.IsAstral(p[i]);
  }

  /** A profile form validates exactly when both names have at least two
      code units, a bio (if any) at most 500, and the email is accepted. */
  lemma ValidProfileForm(form: ProfileForm, isEmail: string -> bool)
    ensures ProfileErrors(form, isEmail) == {} <==>
      && Js.Utf16Length(form.firstName) >= MinName && Js.Utf16Length(form.lastName) >= MinName
      && (form.bio.None? || Js.Utf16Length(form.bio.value) <= MaxBio) && isEmail(form.email)
  {
    if ProfileErrors(form, isEmail) == {} {
      assert FirstName !in ProfileErrors(form, isEmail) && LastName !in ProfileErrors(form, isEmail);
      assert Bio !in ProfileErrors(form, isEmail) && Email !in ProfileErrors(form, isEmail);
    }
  }

  /** A file picked in the browser. */
  datatype PickedFile = PickedFile(name: string, mimeType: string, size: nat)

  /** 5 MiB for a profile picture, 10 MiB for a cover image. */
  const ProfilePictureLimit: nat := 5 * 1024 * 1024
  const CoverImageLimit: nat := 10 * 1024 * 1024

  /** What became of a pick; the size is checked before the type. */
  datatype PictureVerdict = NothingPicked | TooLarge | NotAnImage | Taken

  datatype PictureChoice = PictureChoice(file: Option<PickedFile>, verdict: PictureVerdict)

  /** Picking a picture: a file over the limit or of a non-image type is
      refused and the pending file stays as it was; otherwise it becomes
      the pending file. */
  function PickPicture(pending: Option<PickedFile>, picked: Option<PickedFile>, limit: nat): (r: PictureChoice)
    ensures r.verdict == Taken <==> picked.Some? && picked.value.size <= limit && Js.StartsWith(picked.value.mimeType, "image/")
    ensures r.verdict == Taken ==> r.file == picked
    ensures r.verdict != Taken ==> r.file == pending
    ensures r.verdict == NotAnImage ==> picked.Some? && picked.value.size <= limit
  {
    match picked
    case None => PictureChoice(pending, NothingPicked)
    case Some(f) =>
      if f.size > limit then PictureChoice(pending, TooLarge)
      else if !Js.StartsWith(f.mimeType, "image/") then PictureChoice(pending, NotAnImage)
      else PictureChoice(picked, Taken)
  }

  /** `handleProfilePictureChange`. */
  function PickProfilePicture(pending: Option<PickedFile>, picked: Option<PickedFile>): (r: PictureChoice)
    ensures r.file.Some? && r.file != pending ==> r.file.value.size <= ProfilePictureLimit
  {
    PickPicture(pending, picked, ProfilePictureLimit)
  }

  /** `handleCoverImageChange`. */
  function PickCoverImage(pending: Option<PickedFile>, picked: Option<PickedFile>): (r: PictureChoice)
    ensures r.file.Some? && r.file != pending ==> r.file.value.size <= CoverImageLimit
  {
    PickPicture(pending, picked, CoverImageLimit)
  }

  /** Any file good enough for a profile picture is good enough for a
      cover image, and a 6 MiB image is a cover but not a profile picture. */
  lemma CoverLimitIsLooser(pending: Option<PickedFile>, picked: Option<PickedFile>)
    ensures PickProfilePicture(pending, picked).verdict == Taken ==> PickCoverImage(pending, picked).verdict == Taken
    ensures var big := Some(PickedFile("b.png", "image/png", 6 * 1024 * 1024));
            PickProfilePicture(None, big).verdict == TooLarge && PickCoverImage(None, big).verdict == Taken
  {
  }

  /** A request the save sends, in order. */
  datatype Request = UpdateProfile(form: ProfileForm) | UploadProfilePicture(file: PickedFile) | UploadCoverImage(file: PickedFile)

  /** The requests sent, whether the save succeeded, and the pending files
      afterwards. */
  datatype SaveResult = SaveResult(requests: seq<Request>, succeeded: bool, picture: Option<PickedFile>, cover: Option<PickedFile>)

  /** `onProfileSubmit`, corrected so that the cover step sends a cover
      upload: update the profile, then upload the picture if one
      is pending, then the cover if one is pending AND the user is a
      creator; each step runs only if the previous one succeeded. On
      success both pending files are cleared (a non-creator's pending cover
      is dropped unsent); on failure both are kept. */
  function SaveProfile(form: ProfileForm, role: Role, picture: Option<PickedFile>, cover: Option<PickedFile>,
                       update: Attempt<()>, pictureUpload: Attempt<()>, coverUpload: Attempt<()>): (r: SaveResult)
    ensures |r.requests| >= 1 && r.requests[0] == UpdateProfile(form)
    ensures r.requests[|r.requests| - 1].UploadCoverImage? <==>
      update.Resolved? && (picture.None? || pictureUpload.Resolved?) && cover.Some? && role == CREATOR
    ensures forall i :: 0 <= i < |r.requests| - 1 ==> !r.requests[i].UploadCoverImage?
    ensures |r.requests| >= 2 && r.requests[1].UploadProfilePicture? <==> update.Resolved? && picture.Some?
    ensures r.succeeded <==>
      update.Resolved? && (picture.None? || pictureUpload.Resolved?) && (cover.None? || role != CREATOR || coverUpload.Resolved?)
    ensures r.succeeded ==> r.picture.None? && r.cover.None?
    ensures !r.succeeded ==> r.picture == picture && r.cover == cover
  {
    var first := [UpdateProfile(form)];
    if update.Rejected? then SaveResult(first, false, picture, cover)
    else
      var second := first + (if picture.Some? then [UploadProfilePicture(picture.value)] else []);
      if picture.Some? && pictureUpload.Rejected? then SaveResult(second, false, picture, cover)
      else if cover.Some? && role == CREATOR then
        var third := second + [UploadCoverImage(cover.value)];
        if coverUpload.Rejected? then SaveResult(third, false, picture, cover)
        else SaveResult(third, true, None, None)
      else SaveResult(second, true, None, None)
  }

  /** Over the request sequence: nothing is uploaded unless the profile
      update succeeded, a cover is never sent for a non-creator or without
      a pending cover, and a picture upload is always the second request. */
  lemma SaveProfileOrder(form: ProfileForm, role: Role, picture: Option<PickedFile>, cover: Option<PickedFile>,
                         update: Attempt<()>, pictureUpload: Attempt<()>, coverUpload: Attempt<()>)
    ensures var r := SaveProfile(form, role, picture, cover, update, pictureUpload, coverUpload);
            && (update.Rejected? ==> r.requests == [UpdateProfile(form)])
            && (forall i :: 0 <= i < |r.requests| && r.requests[i].UploadCoverImage? ==> role == CREATOR && r.requests[i] == UploadCoverImage(cover.value))
            && (forall i :: 0 <= i < |r.requests| && r.requests[i].UploadProfilePicture? ==> i == 1 && r.requests[i] == UploadProfilePicture(picture.value))
            && (forall i :: 0 < i < |r.requests| ==> !r.requests[i].UpdateProfile?)
  {
  }

  /** `onProfileSubmit` as written: the cover step calls
      `userService.uploadCoverImage`, which the user service does not
      define (src/services/userService.ts defines only the profile picture
      upload). The call throws a TypeError before any request goes out, the
      catch reports 'Update failed', and both pending files are kept,
      although the update and the picture upload have already been applied. */
  function SaveProfileAsWritten(form: ProfileForm, role: Role, picture: Option<PickedFile>, cover: Option<PickedFile>,
                                update: Attempt<()>, pictureUpload: Attempt<()>): (r: SaveResult)
    ensures |r.requests| >= 1 && r.requests[0] == UpdateProfile(form)
    ensures forall i :: 0 <= i < |r.requests| ==> !r.requests[i].UploadCoverImage?
    ensures r.succeeded <==>
      update.Resolved? && (picture.None? || pictureUpload.Resolved?) && !(cover.Some? && role == CREATOR)
    ensures r.succeeded ==> r.picture.None? && r.cover.None?
    ensures !r.succeeded ==> r.picture == picture && r.cover == cover
  {
    var first := [UpdateProfile(form)];
    if update.Rejected? then SaveResult(first, false, picture, cover)
    else
      var second := first + (if picture.Some? then [UploadProfilePicture(picture.value)] else []);
      if picture.Some? && pictureUpload.Rejected? then SaveResult(second, false, picture, cover)
      else if cover.Some? && role == CREATOR then SaveResult(second, false, picture, cover)
      else SaveResult(second, true, None, None)
  }

  /** As written, a creator with a pending cover can never save: the profile
      update (and any picture upload) is sent and accepted, yet the save
      fails and keeps both files. The corrected save, with the cover upload
      accepted, succeeds and sends the cover last. */
  lemma AsWrittenCreatorCoverNeverSaves(form: ProfileForm, picture: Option<PickedFile>, cover: Option<PickedFile>,
                                        pictureUpload: Attempt<()>, coverUpload: Attempt<()>)
    requires cover.Some? && (picture.None? || pictureUpload.Resolved?)
    ensures var r := SaveProfileAsWritten(form, CREATOR, picture, cover, Resolved(()), pictureUpload);
            && !r.succeeded && r.picture == picture && r.cover == cover
            && r.requests == [UpdateProfile(form)] + (if picture.Some? then [UploadProfilePicture(picture.value)] else [])
    ensures var c := SaveProfile(form, CREATOR, picture, cover, Resolved(()), pictureUpload, Resolved(()));
            c.succeeded && c.requests[|c.requests| - 1] == UploadCoverImage(cover.value)
  {
  }

  /** Apart from a creator's pending cover, the save as written and the
      corrected one are the same save. */
  lemma AsWrittenAgreesWithoutCreatorCover(form: ProfileForm, role: Role, picture: Option<PickedFile>, cover: Option<PickedFile>,
                                           update: Attempt<()>, pictureUpload: Attempt<()>, coverUpload: Attempt<()>)
    requires !(cover.Some? && role == CREATOR)
    ensures SaveProfileAsWritten(form, role, picture, cover, update, pictureUpload)
         == SaveProfile(form, role, picture, cover, update, pictureUpload, coverUpload)
  {
  }

  datatype SaveOutcome = FormInvalid(errors: set<ProfileField>) | Ran(result: SaveResult)

  /** The save button: the schema is checked before anything is sent. */
  function SubmitProfile(form: ProfileForm, isEmail: string -> bool, role: Role, picture: Option<PickedFile>, cover: Option<PickedFile>,
                         update: Attempt<()>, pictureUpload: Attempt<()>, coverUpload: Attempt<()>): (r: SaveOutcome)
    ensures r.FormInvalid? <==> ProfileErrors(form, isEmail) != {}
    ensures r.Ran? ==> Js.Utf16Length(form.firstName) >= MinName && Js.Utf16Length(form.lastName) >= MinName && isEmail(form.email)
    ensures r.Ran? ==> r.result == SaveProfile(form, role, picture, cover, update, pictureUpload, coverUpload)
  {
    var errs := ProfileErrors(form, isEmail);
    if errs != {} then FormInvalid(errs)
    else
      assert FirstName !in errs && LastName !in errs && Email !in errs;
      Ran(SaveProfile(form, role, picture, cover, update, pictureUpload, coverUpload))
  }

  /** The images tab's "Save Images" button, shown while a picture or a
      cover is pending. It calls the save with the form's current values
      directly, so the profile schema is never checked. A non-creator's
      pending cover alone shows the button, yet only the profile update is
      sent. */
  function SaveImages(form: ProfileForm, role: Role, picture: Option<PickedFile>, cover: Option<PickedFile>,
                      update: Attempt<()>, pictureUpload: Attempt<()>, coverUpload: Attempt<()>): (r: SaveResult)
    requires picture.Some? || cover.Some?
    ensures |r.requests| >= 1 && r.requests[0] == UpdateProfile(form)
    ensures update.Resolved? && picture.Some? ==> |r.requests| >= 2 && r.requests[1] == UploadProfilePicture(picture.value)
    ensures picture.None? && role != CREATOR ==> r.requests == [UpdateProfile(form)]
    ensures update.Resolved? && picture.None? && role != CREATOR ==> r.succeeded && r.cover.None?
    ensures r.succeeded ==> r.picture.None? && r.cover.None?
  {
    SaveProfile(form, role, picture, cover, update, pictureUpload, coverUpload)
  }

  /** The two ways to save run the same save, but only the form's submit
      checks the schema: a form the schema rejects is refused there and
      still sent first by "Save Images". */
  lemma SaveImagesSkipsSchema(form: ProfileForm, isEmail: string -> bool, role: Role, picture: Option<PickedFile>, cover: Option<PickedFile>,
                              update: Attempt<()>, pictureUpload: Attempt<()>, coverUpload: Attempt<()>)
    requires picture.Some? || cover.Some?
    ensures var s := SubmitProfile(form, isEmail, role, picture, cover, update, pictureUpload, coverUpload);
            s.Ran? ==> s.result == SaveImages(form, role, picture, cover, update, pictureUpload, coverUpload)
    ensures ProfileErrors(form, isEmail) != {} ==>
            && SubmitProfile(form, isEmail, role, picture, cover, update, pictureUpload, coverUpload).FormInvalid?
            && SaveImages(form, role, picture, cover, update, pictureUpload, coverUpload).requests[0] == UpdateProfile(form)
  {
  }

  /** With no user known at mount the form's defaults are empty strings.
      The submit refuses them, while "Save Images" sends them as the
      profile update, followed by the pending picture. */
  lemma ColdLoadDefaultsAreSentUnchecked(isEmail: string -> bool, role: Role, picture: PickedFile, cover: Option<PickedFile>,
                                         pictureUpload: Attempt<()>, coverUpload: Attempt<()>)
    ensures var s := SubmitProfile(ProfileForm("", "", Some(""), ""), isEmail, role, Some(picture), cover, Resolved(()), pictureUpload, coverUpload);
            s.FormInvalid? && FirstName in s.errors && LastName in s.errors
    ensures var defaults := ProfileForm("", "", Some(""), "");
            SaveImages(defaults, role, Some(picture), cover, Resolved(()), pictureUpload, coverUpload).requests[..2]
              == [UpdateProfile(defaults), UploadProfilePicture(picture)]
  {
  }
}
