/** The reel upload dialog: a video is required, a thumbnail is optional and
    its upload may fail without stopping the handler, and the form is emptied
    once the reel row is stored. `Date.now()` is read twice by the handler;
    both readings are parameters. */
module UploadReel {
  import opened Text
  import opened Backend

  /** `${user.id}/${Date.now()}.${ext}`. */
  function VideoPath(uid: UserId, stamp: nat, video: File): string {
    StoragePath(uid, NatToString(stamp), video)
  }

  /** `${user.id}/${Date.now()}-thumb.${ext}`. */
  function ThumbnailPath(uid: UserId, stamp: nat, thumbnail: File): string {
    StoragePath(uid, NatToString(stamp) + "-thumb", thumbnail)
  }

  /** Two uploads of one user share a path only if their stems and
      extensions agree: the extension is what follows the last '.'. */
  lemma StoragePathDeterminesStem(uid: UserId, stem: string, stem': string, file: File, file': File)
    requires StoragePath(uid, stem, file) == StoragePath(uid, stem', file')
    ensures Extension(file.name) == Extension(file'.name)
    ensures stem == stem'
  {
    var ext, ext' := Extension(file.name), Extension(file'.name);
    var folder := uid + "/";
    var head, head' := folder + stem, folder + stem';
    assert StoragePath(uid, stem, file) == head + "." + ext;
    assert StoragePath(uid, stem', file') == head' + "." + ext';
    SplitAtLastIsUnique(head, ext, head', ext', '.');
    DropPrefix(folder, stem);
    DropPrefix(folder, stem');
  }

  lemma DropPrefix(p: string, s: string)
    ensures (p + s)[|p|..] == s
  {
  }

  /** A video and a thumbnail never share a path, even when both clock
      readings are equal: the video's stem ends in a digit, the thumbnail's
      in 'b'. */
  lemma VideoAndThumbnailPathsDiffer(uid: UserId, stamp: nat, stamp': nat, video: File, thumbnail: File)
    ensures VideoPath(uid, stamp, video) != ThumbnailPath(uid, stamp', thumbnail)
  {
    var vs, ts := NatToString(stamp), NatToString(stamp') + "-thumb";
    assert IsDigit(vs[|vs| - 1]) && ts[|ts| - 1] == 'b';
    if VideoPath(uid, stamp, video) == ThumbnailPath(uid, stamp', thumbnail) {
      StoragePathDeterminesStem(uid, vs, ts, video, thumbnail);
      assert false;
    }
  }

  datatype ReelReplies = ReelReplies(user: Option<UserId>, videoFailed: bool, thumbnailFailed: bool, insertFailed: bool)

  datatype ReelOutcome = NoVideo | Failed | Uploaded

  /** The uploads sent, the reel insert if reached, and the outcome. */
  datatype ReelResult = ReelResult(uploads: seq<Request>, insert: Option<Request>, outcome: ReelOutcome)

  /** The form as typed. */
  datatype ReelForm = ReelForm(title: string, description: string, sport: string, location: string)

  /** The thumbnail column: the uploaded image's URL, or null when there was
      no thumbnail or its upload failed. */
  function ThumbnailUrl(uid: UserId, stamp: nat, thumbnail: Option<File>, failed: bool): (url: Option<string>)
    ensures url.Some? <==> thumbnail.Some? && !failed
    ensures url.Some? ==> url.value == PublicUrl("reel-thumbnails", ThumbnailPath(uid, stamp, thumbnail.value))
  {
    if thumbnail.Some? && !failed then Some(PublicUrl("reel-thumbnails", ThumbnailPath(uid, stamp, thumbnail.value)))
    else None
  }

  function ReelRecord(uid: UserId, form: ReelForm, videoUrl: string, thumbnailUrl: Option<string>): (row: ReelRow)
    ensures row.userId == uid && row.videoUrl == videoUrl && row.thumbnailUrl == thumbnailUrl
    ensures row.title == form.title && row.description == form.description
    ensures row.sport == form.sport && row.location == form.location
  {
    ReelRow(uid, form.title, form.description, form.sport, form.location, videoUrl, thumbnailUrl)
  }

  /** `handleSubmit` as a function of the form, the chosen files, the two
      clock readings and the backend's answers. */
  function ReelRun(form: ReelForm, video: Option<File>, thumbnail: Option<File>, videoStamp: nat, thumbnailStamp: nat,
                   replies: ReelReplies): (r: ReelResult)
    ensures video.None? ==> r == ReelResult([], None, NoVideo)
    ensures video.Some? && replies.user.None? ==> r == ReelResult([], None, Failed)
    ensures video.Some? && replies.user.Some? ==>
      |r.uploads| >= 1 && r.uploads[0] == Upload("reel-videos", VideoPath(replies.user.value, videoStamp, video.value), false)
    ensures forall q | q in r.uploads :: q.Upload? && !q.upsert
    ensures video.Some? && replies.user.Some? && !replies.videoFailed ==>
      r.uploads == [Upload("reel-videos", VideoPath(replies.user.value, videoStamp, video.value), false)] +
        (if thumbnail.Some? then [Upload("reel-thumbnails", ThumbnailPath(replies.user.value, thumbnailStamp, thumbnail.value), false)] else [])
    ensures replies.videoFailed ==> |r.uploads| <= 1
    ensures r.insert.Some? <==> video.Some? && replies.user.Some? && !replies.videoFailed
    ensures r.insert.Some? ==> r.insert.value == InsertReel(ReelRecord(replies.user.value, form,
      PublicUrl("reel-videos", VideoPath(replies.user.value, videoStamp, video.value)),
      ThumbnailUrl(replies.user.value, thumbnailStamp, thumbnail, replies.thumbnailFailed)))
    ensures r.outcome == Uploaded <==> r.insert.Some? && !replies.insertFailed
  {
    match video
    case None => ReelResult([], None, NoVideo)
    case Some(v) =>
      match replies.user
      case None => ReelResult([], None, Failed)
      case Some(uid) =>
        var videoPath := VideoPath(uid, videoStamp, v);
        var videoUpload := Upload("reel-videos", videoPath, false);
        if replies.videoFailed then ReelResult([videoUpload], None, Failed)
        else
          var thumbUploads := if thumbnail.Some? then [Upload("reel-thumbnails", ThumbnailPath(uid, thumbnailStamp, thumbnail.value), false)] else [];
          var row := ReelRecord(uid, form, PublicUrl("reel-videos", videoPath), ThumbnailUrl(uid, thumbnailStamp, thumbnail, replies.thumbnailFailed));
          ReelResult([videoUpload] + thumbUploads, Some(InsertReel(row)), if replies.insertFailed then Failed else Uploaded)
  }

  /** A failed thumbnail upload still stores the reel, without a thumbnail. */
  lemma ThumbnailFailureIsTolerated(form: ReelForm, video: File, thumbnail: File, videoStamp: nat, thumbnailStamp: nat, replies: ReelReplies)
    requires replies.user.Some? && !replies.videoFailed && replies.thumbnailFailed && !replies.insertFailed
    ensures var r := ReelRun(form, Some(video), Some(thumbnail), videoStamp, thumbnailStamp, replies);
      && r.outcome == Uploaded
      && r.insert.Some? && r.insert.value.reel.thumbnailUrl.None?
      && |r.uploads| == 2
  {
  }

  class UploadReelDialog {
    var loading: bool
    var title: string
    var description: string
    var sport: string
    var location: string
    var videoFile: Option<File>
    var thumbnailFile: Option<File>

    constructor ()
      ensures !loading && title == "" && description == "" && sport == "" && location == ""
      ensures videoFile == None && thumbnailFile == None
    {
      loading := false;
      title, description, sport, location := "", "", "", "";
      videoFile, thumbnailFile := None, None;
    }

    function Form(): ReelForm
      reads this
    {
      ReelForm(title, description, sport, location)
    }

    /** The `try` block of `handleSubmit`, once a video is chosen: the
        uploads and the insert, with a failed thumbnail upload leaving the
        thumbnail column null. */
    static method SendReel(form: ReelForm, video: File, thumbnail: Option<File>, videoStamp: nat, thumbnailStamp: nat,
                           replies: ReelReplies)
      returns (r: ReelResult)
      ensures r == ReelRun(form, Some(video), thumbnail, videoStamp, thumbnailStamp, replies)
    {
      if replies.user.None? {
        return ReelResult([], None, Failed);
      }
      var uid := replies.user.value;
      var videoPath := VideoPath(uid, videoStamp, video);
      var uploads := [Upload("reel-videos", videoPath, false)];
      if replies.videoFailed {
        return ReelResult(uploads, None, Failed);
      }
      var thumbnailUrl: Option<string> := None;
      if thumbnail.Some? {
        var thumbnailPath := ThumbnailPath(uid, thumbnailStamp, thumbnail.value);
        uploads := uploads + [Upload("reel-thumbnails", thumbnailPath, false)];
        if !replies.thumbnailFailed {
          thumbnailUrl := Some(PublicUrl("reel-thumbnails", thumbnailPath));
        }
      }
      var insert := InsertReel(ReelRecord(uid, form, PublicUrl("reel-videos", videoPath), thumbnailUrl));
      r := ReelResult(uploads, Some(insert), if replies.insertFailed then Failed else Uploaded);
    }

    /** The six setters `handleSubmit` calls after a stored reel. */
    method Reset()
      modifies this`title, this`description, this`sport, this`location, this`videoFile, this`thumbnailFile
      ensures title == "" && description == "" && sport == "" && location == ""
      ensures videoFile == None && thumbnailFile == None
    {
      title, description, sport, location := "", "", "", "";
      videoFile, thumbnailFile := None, None;
    }

    /** `handleSubmit`. After a stored reel every field is emptied; otherwise
        the form stays as it was. */
    method HandleSubmit(videoStamp: nat, thumbnailStamp: nat, replies: ReelReplies)
      returns (uploads: seq<Request>, insert: Option<Request>, outcome: ReelOutcome)
      modifies this
      ensures ReelResult(uploads, insert, outcome) ==
        ReelRun(old(Form()), old(videoFile), old(thumbnailFile), videoStamp, thumbnailStamp, replies)
      ensures outcome == Uploaded ==> && title == "" && description == "" && sport == "" && location == ""
                                      && videoFile == None && thumbnailFile == None
      ensures outcome != Uploaded ==> && Form() == old(Form())
                                      && videoFile == old(videoFile) && thumbnailFile == old(thumbnailFile)
      ensures loading == (outcome == NoVideo && old(loading))
    {
      if videoFile.None? {
        assert ReelRun(Form(), None, thumbnailFile, videoStamp, thumbnailStamp, replies) == ReelResult([], None, NoVideo);
        return [], None, NoVideo;
      }
      ghost var run := ReelRun(Form(), videoFile, thumbnailFile, videoStamp, thumbnailStamp, replies);
      loading := true;
      var r := SendReel(Form(), videoFile.value, thumbnailFile, videoStamp, thumbnailStamp, replies);
      assert r == run;
      uploads, insert, outcome := r.uploads, r.insert, r.outcome;
      if outcome == Uploaded {
        Reset();
      }
      loading := false;
    }
  }
}
