/** The profile editor dialog: the form filled from the current profile, the
    avatar and banner pickers with their previews, and the save handler, which
    uploads any newly chosen image and then updates the profile row. */
module EditProfile {
  import opened Text
  import opened Backend

  /** The columns of the profile the dialog reads; any of them may be null. */
  datatype Profile = Profile(
    fullName: Option<string>,
    bio: Option<string>,
    sport: Option<string>,
    location: Option<string>,
    avatarUrl: Option<string>,
    bannerUrl: Option<string>)

  datatype FormData = FormData(fullName: string, bio: string, sport: string, location: string)

  function OrEmpty(s: Option<string>): (r: string)
    ensures s.None? ==> r == ""
    ensures s.Some? ==> r == s.value
  {
    if s.Some? then s.value else ""
  }

  /** The form as the profile effect fills it: null becomes "". */
  function InitForm(p: Profile): (f: FormData)
    ensures f.fullName == OrEmpty(p.fullName) && f.bio == OrEmpty(p.bio)
    ensures f.sport == OrEmpty(p.sport) && f.location == OrEmpty(p.location)
  {
    FormData(OrEmpty(p.fullName), OrEmpty(p.bio), OrEmpty(p.sport), OrEmpty(p.location))
  }

  /** What one optional image upload contributes: the request, the URL the
      update will carry, and whether the handler goes on. */
  datatype Step = Step(sent: seq<Request>, url: Option<string>, ok: bool)

  /** The URL an image column is saved with: the new upload's, or else the
      one the profile already has. */
  function SavedUrl(bucket: string, uid: UserId, stem: string, file: Option<File>, current: Option<string>): Option<string> {
    if file.Some? then Some(PublicUrl(bucket, StoragePath(uid, stem, file.value))) else current
  }

  function ImageStep(bucket: string, uid: UserId, stem: string, file: Option<File>, current: Option<string>, failed: bool): (s: Step)
    ensures s.ok <==> file.None? || !failed
    ensures s.ok ==> s.url == SavedUrl(bucket, uid, stem, file, current)
    ensures file.None? ==> s.sent == []
    ensures file.Some? ==> s.sent == [Upload(bucket, StoragePath(uid, stem, file.value), true)]
  {
    match file
    case None => Step([], current, true)
    case Some(f) =>
      var path := StoragePath(uid, stem, f);
      Step([Upload(bucket, path, true)], if failed then current else Some(PublicUrl(bucket, path)), !failed)
  }

  /** The backend's answers: the signed-in user and the errors of the calls. */
  datatype SubmitReplies = SubmitReplies(user: Option<UserId>, avatarFailed: bool, bannerFailed: bool, updateFailed: bool)

  /** The uploads the handler sent, in order, then the profile update if it
      got that far, and whether everything succeeded. */
  datatype SubmitResult = SubmitResult(uploads: seq<Request>, update: Option<Request>, saved: bool)

  /** The update payload: the four form fields and the two image URLs. */
  function Changes(form: FormData, avatarUrl: Option<string>, bannerUrl: Option<string>): ProfileChanges {
    ProfileChanges(form.fullName, form.bio, form.sport, form.location, avatarUrl, bannerUrl)
  }

  /** `handleSubmit` as a function of the dialog's state and the answers. A
      null profile throws when its URLs are read, after the user lookup. */
  function SubmitRun(profile: Option<Profile>, form: FormData, avatarFile: Option<File>, bannerFile: Option<File>,
                     replies: SubmitReplies): (r: SubmitResult)
    ensures replies.user.None? || profile.None? ==> r == SubmitResult([], None, false)
    ensures forall q | q in r.uploads :: q.Upload? && q.upsert
    ensures r.update.Some? <==>
      && replies.user.Some? && profile.Some?
      && !(avatarFile.Some? && replies.avatarFailed)
      && !(bannerFile.Some? && replies.bannerFailed)
    ensures r.update.Some? ==> r.update.value == UpdateProfile(replies.user.value, Changes(form,
           SavedUrl("avatars", replies.user.value, "avatar", avatarFile, profile.value.avatarUrl),
           SavedUrl("banners", replies.user.value, "banner", bannerFile, profile.value.bannerUrl)))
    ensures r.saved <==> r.update.Some? && !replies.updateFailed
    ensures replies.user.Some? && profile.Some? ==>
      var avatar := ImageStep("avatars", replies.user.value, "avatar", avatarFile, profile.value.avatarUrl, replies.avatarFailed);
      var banner := ImageStep("banners", replies.user.value, "banner", bannerFile, profile.value.bannerUrl, replies.bannerFailed);
      r.uploads == avatar.sent + (if avatar.ok then banner.sent else [])
  {
    match replies.user
    case None => SubmitResult([], None, false)
    case Some(uid) =>
      match profile
      case None => SubmitResult([], None, false)
      case Some(p) => SubmitAs(uid, p, form, avatarFile, bannerFile, replies)
  }

  /** The submit of a signed-in user with a loaded profile: the avatar
      upload, the banner upload only after a successful avatar step, then
      the update only after both steps succeeded. */
  function SubmitAs(uid: UserId, p: Profile, form: FormData, avatarFile: Option<File>, bannerFile: Option<File>,
                    replies: SubmitReplies): (r: SubmitResult)
    ensures forall q | q in r.uploads :: q.Upload? && q.upsert
    ensures r.update.Some? <==> !(avatarFile.Some? && replies.avatarFailed) && !(bannerFile.Some? && replies.bannerFailed)
    ensures r.update.Some? ==> r.update.value == UpdateProfile(uid, Changes(form,
           SavedUrl("avatars", uid, "avatar", avatarFile, p.avatarUrl),
           SavedUrl("banners", uid, "banner", bannerFile, p.bannerUrl)))
    ensures r.saved <==> r.update.Some? && !replies.updateFailed
    ensures var avatar := ImageStep("avatars", uid, "avatar", avatarFile, p.avatarUrl, replies.avatarFailed);
      var banner := ImageStep("banners", uid, "banner", bannerFile, p.bannerUrl, replies.bannerFailed);
      r.uploads == avatar.sent + (if avatar.ok then banner.sent else [])
  {
    var a := ImageStep("avatars", uid, "avatar", avatarFile, p.avatarUrl, replies.avatarFailed);
    if !a.ok then
      assert a.sent + [] == a.sent;
      SubmitResult(a.sent, None, false)
    else
      var b := ImageStep("banners", uid, "banner", bannerFile, p.bannerUrl, replies.bannerFailed);
      if !b.ok then SubmitResult(a.sent + b.sent, None, false)
      else SubmitResult(a.sent + b.sent, Some(UpdateProfile(uid, Changes(form, a.url, b.url))), !replies.updateFailed)
  }

  /** Without a newly chosen image, the saved URLs are the profile's own,
      even when a preview was cleared, and nothing is uploaded. */
  lemma UnchangedImagesKeepTheirUrls(p: Profile, form: FormData, replies: SubmitReplies)
    requires replies.user.Some?
    ensures var r := SubmitRun(Some(p), form, None, None, replies);
      r.uploads == [] && r.update == Some(UpdateProfile(replies.user.value, Changes(form, p.avatarUrl, p.bannerUrl)))
  {
  }

  /** A failed avatar upload stops the handler: that upload is all it sent. */
  lemma AvatarFailureStopsBeforeUpdate(p: Profile, form: FormData, avatar: File, bannerFile: Option<File>, replies: SubmitReplies)
    requires replies.user.Some? && replies.avatarFailed
    ensures SubmitRun(Some(p), form, Some(avatar), bannerFile, replies) ==
      SubmitResult([Upload("avatars", StoragePath(replies.user.value, "avatar", avatar), true)], None, false)
  {
  }

  /** The dialog's state. */
  class EditProfileDialog {
    var profile: Option<Profile>
    var loading: bool
    var formData: FormData
    var avatarFile: Option<File>
    var bannerFile: Option<File>
    var avatarPreview: string
    var bannerPreview: string

    constructor (p: Option<Profile>)
      ensures profile == p && !loading && formData == FormData("", "", "", "")
      ensures avatarFile == None && bannerFile == None && avatarPreview == "" && bannerPreview == ""
    {
      profile := p;
      loading := false;
      formData := FormData("", "", "", "");
      avatarFile, bannerFile := None, None;
      avatarPreview, bannerPreview := "", "";
    }

    /** The effect run when the profile prop changes; a null profile changes
        nothing. */
    method OnProfile(p: Option<Profile>)
      modifies this`profile, this`formData, this`avatarPreview, this`bannerPreview
      ensures profile == p
      ensures p.Some? ==> && formData == InitForm(p.value)
                          && avatarPreview == OrEmpty(p.value.avatarUrl)
                          && bannerPreview == OrEmpty(p.value.bannerUrl)
      ensures p.None? ==> && formData == old(formData)
                          && avatarPreview == old(avatarPreview) && bannerPreview == old(bannerPreview)
    {
      profile := p;
      if p.Some? {
        formData := InitForm(p.value);
        avatarPreview := OrEmpty(p.value.avatarUrl);
        bannerPreview := OrEmpty(p.value.bannerUrl);
      }
    }

    /** `handleAvatarChange`; objectUrl stands for `URL.createObjectURL(file)`. */
    method ChooseAvatar(file: Option<File>, objectUrl: string)
      modifies this`avatarFile, this`avatarPreview
      ensures file.Some? ==> avatarFile == file && avatarPreview == objectUrl
      ensures file.None? ==> avatarFile == old(avatarFile) && avatarPreview == old(avatarPreview)
    {
      if file.Some? {
        avatarFile := file;
        avatarPreview := objectUrl;
      }
    }

    /** `handleBannerChange`. */
    method ChooseBanner(file: Option<File>, objectUrl: string)
      modifies this`bannerFile, this`bannerPreview
      ensures file.Some? ==> bannerFile == file && bannerPreview == objectUrl
      ensures file.None? ==> bannerFile == old(bannerFile) && bannerPreview == old(bannerPreview)
    {
      if file.Some? {
        bannerFile := file;
        bannerPreview := objectUrl;
      }
    }

    /** The remove button on the avatar preview. */
    method ClearAvatar()
      modifies this`avatarFile, this`avatarPreview
      ensures avatarFile == None && avatarPreview == ""
    {
      avatarFile := None;
      avatarPreview := "";
    }

    /** The remove button on the banner preview. */
    method ClearBanner()
      modifies this`bannerFile, this`bannerPreview
      ensures bannerFile == None && bannerPreview == ""
    {
      bannerFile := None;
      bannerPreview := "";
    }

    /** One `if (file) { upload; if (uploadError) throw; url = publicUrl }`
        block of `handleSubmit`. */
    static method UploadImage(bucket: string, uid: UserId, stem: string, file: Option<File>, current: Option<string>, failed: bool)
      returns (step: Step)
      ensures step == ImageStep(bucket, uid, stem, file, current, failed)
    {
      var url := current;
      if file.Some? {
        var path := StoragePath(uid, stem, file.value);
        if failed {
          return Step([Upload(bucket, path, true)], url, false);
        }
        url := Some(PublicUrl(bucket, path));
        return Step([Upload(bucket, path, true)], url, true);
      }
      return Step([], url, true);
    }

    /** `handleSubmit`: the local URLs start as the profile's and are replaced
        only by a successful upload; any error ends the handler. */
    method HandleSubmit(replies: SubmitReplies) returns (uploads: seq<Request>, update: Option<Request>, saved: bool)
      modifies this`loading
      ensures SubmitResult(uploads, update, saved) == SubmitRun(profile, formData, avatarFile, bannerFile, replies)
      ensures !loading
    {
      loading := true;
      uploads, update, saved := [], None, false;
      if replies.user.None? || profile.None? {
        loading := false;
        return;
      }
      var uid := replies.user.value;
      var avatar := UploadImage("avatars", uid, "avatar", avatarFile, profile.value.avatarUrl, replies.avatarFailed);
      uploads := avatar.sent;
      if !avatar.ok {
        loading := false;
        return;
      }
      var banner := UploadImage("banners", uid, "banner", bannerFile, profile.value.bannerUrl, replies.bannerFailed);
      uploads := uploads + banner.sent;
      if !banner.ok {
        loading := false;
        return;
      }
      update := Some(UpdateProfile(uid, Changes(formData, avatar.url, banner.url)));
      saved := !replies.updateFailed;
      loading := false;
    }
  }
}
