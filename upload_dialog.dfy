/** The upload dialog: the draft, the file-size checks made when a file is
    picked, and the submit sequence — session, required fields, video
    upload, optional thumbnail upload, record insert, draft reset — where
    the first failing step ends the sequence. */
module Upload {
  import opened Nullable
  import opened Storage
  import opened Backend

  const MiB := 1024 * 1024
  /** The largest video accepted, in bytes (50 MiB). */
  const MaxFileSize := 50 * MiB
  /** The largest thumbnail accepted, in bytes (5 MiB). */
  const MaxThumbnailSize := 5 * MiB

  const VideoBucket := "videos"
  const ThumbnailFolder := "thumbnails/"

  /** No file passes; a file passes unless it is strictly larger than the
      limit. */
  function ValidateFileSize(file: Option<File>, maxSize: int): (ok: bool)
    ensures ok <==> file.None? || file.value.size <= maxSize
  {
    if file.None? then true
    else if file.value.size > maxSize then false
    else true
  }

  /** A file exactly at the limit passes and one byte more does not, for
      either kind of file. */
  lemma LimitsAreInclusive(name: string)
    ensures MaxFileSize == 52428800 && MaxThumbnailSize == 5242880
    ensures ValidateFileSize(Some(File(name, MaxFileSize)), MaxFileSize)
    ensures !ValidateFileSize(Some(File(name, MaxFileSize + 1)), MaxFileSize)
    ensures ValidateFileSize(Some(File(name, MaxThumbnailSize)), MaxThumbnailSize)
    ensures !ValidateFileSize(Some(File(name, MaxThumbnailSize + 1)), MaxThumbnailSize)
  {
  }

  datatype FileKind = VideoFile | ThumbnailFile

  function Limit(kind: FileKind): int {
    match kind
    case VideoFile => MaxFileSize
    case ThumbnailFile => MaxThumbnailSize
  }

  /** What the user has entered so far. */
  datatype Draft = Draft(title: string, description: string, video: Option<File>, thumbnail: Option<File>)

  const EmptyDraft := Draft("", "", None, None)

  /** Both chosen files are within their limits. */
  predicate WithinLimits(d: Draft) {
    ValidateFileSize(d.video, MaxFileSize) && ValidateFileSize(d.thumbnail, MaxThumbnailSize)
  }

  /** The draft after a selection, and whether the file input was cleared. */
  datatype Selection = Selection(draft: Draft, inputCleared: bool)

  /** Picking a file (or an empty pick) in one of the two file inputs. A
      file over its limit is refused: the input is cleared and the draft
      kept. Otherwise only the chosen field changes, to the pick. */
  function SelectFile(d: Draft, kind: FileKind, file: Option<File>): (s: Selection)
    ensures s.inputCleared <==> file.Some? && file.value.size > Limit(kind)
    ensures s.inputCleared ==> s.draft == d
    ensures s.draft.title == d.title && s.draft.description == d.description
    ensures kind == VideoFile ==> s.draft.thumbnail == d.thumbnail
    ensures kind == ThumbnailFile ==> s.draft.video == d.video
    ensures !s.inputCleared ==> (if kind == VideoFile then s.draft.video else s.draft.thumbnail) == file
    ensures WithinLimits(d) ==> WithinLimits(s.draft)
  {
    if file.Some? && kind == VideoFile && !ValidateFileSize(file, MaxFileSize) then Selection(d, true)
    else if file.Some? && kind == ThumbnailFile && !ValidateFileSize(file, MaxThumbnailSize) then Selection(d, true)
    else match kind
      case VideoFile => Selection(d.(video := file), false)
      case ThumbnailFile => Selection(d.(thumbnail := file), false)
  }

  /** Where a video goes: a fresh name and the file's extension. */
  function VideoKey(freshName: string, video: File): ObjectKey {
    ObjectKey(VideoBucket, ObjectPath("", freshName, video.name))
  }

  /** Where a thumbnail goes: the same shape, under "thumbnails/". */
  function ThumbnailKey(freshName: string, thumbnail: File): ObjectKey {
    ObjectKey(VideoBucket, ObjectPath(ThumbnailFolder, freshName, thumbnail.name))
  }

  /** Both objects keep the extension of the file they came from; the
      thumbnail sits in the "thumbnails/" folder. */
  lemma UploadKeysKeepExtension(fv: string, ft: string, video: File, thumbnail: File)
    ensures Extension(VideoKey(fv, video).path) == Extension(video.name)
    ensures Extension(ThumbnailKey(ft, thumbnail).path) == Extension(thumbnail.name)
    ensures ThumbnailKey(ft, thumbnail).path[..|ThumbnailFolder|] == ThumbnailFolder
  {
    ObjectPathKeepsExtension("", fv, video.name);
    ObjectPathKeepsExtension(ThumbnailFolder, ft, thumbnail.name);
  }

  /** Whether the backend accepts each of the three calls. */
  datatype Availability = Availability(videoUpload: bool, thumbnailUpload: bool, insert: bool)

  datatype Stage =
    | NoSession
    | MissingVideoOrTitle
    | VideoTooLarge
    | VideoUploadFailed
    | ThumbnailUploadFailed
    | InsertFailed

  datatype Outcome = Uploaded | Failed(stage: Stage) {
    /** Failed before any call to the backend. */
    predicate FailedLocally() {
      Failed? && stage in {NoSession, MissingVideoOrTitle, VideoTooLarge}
    }
  }

  /** The calls a submit makes, in order, and how it ends. */
  datatype Attempt = Attempt(steps: seq<Step>, outcome: Outcome)

  function RecordFor(d: Draft, s: Session, videoUrl: string, thumbnailUrl: Option<string>): VideoRecord {
    VideoRecord(d.title, d.description, videoUrl, thumbnailUrl, s.userId)
  }

  /** The submit sequence as the dialog runs it, given the session, the two
      fresh names and the backend's answers. */
  function Submit(d: Draft, session: Option<Session>, freshVideo: string, freshThumbnail: string,
                  avail: Availability): (a: Attempt)
    ensures a.outcome == Uploaded <==>
      && session.Some? && d.video.Some? && d.title != ""
      && d.video.value.size <= MaxFileSize
      && avail.videoUpload && (d.thumbnail.Some? ==> avail.thumbnailUpload) && avail.insert
    ensures a.outcome.FailedLocally() <==> a.steps == []
    ensures |a.steps| <= 3
    ensures forall k :: 0 <= k < |a.steps| - 1 ==> a.steps[k].ok && a.steps[k].call.Upload?
    ensures a.steps != [] ==> (a.steps[|a.steps| - 1].ok <==> a.outcome == Uploaded)
    ensures a.outcome == Uploaded || a.outcome == Failed(InsertFailed) ==>
      a.steps != [] && a.steps[|a.steps| - 1].call.InsertVideo?
    ensures a.outcome == Failed(VideoUploadFailed) || a.outcome == Failed(ThumbnailUploadFailed) ==>
      a.steps != [] && a.steps[|a.steps| - 1].call.Upload?
  {
    if session.None? then Attempt([], Failed(NoSession))
    else if d.video.None? || d.title == "" then Attempt([], Failed(MissingVideoOrTitle))
    else if !ValidateFileSize(d.video, MaxFileSize) then Attempt([], Failed(VideoTooLarge))
    else
      var videoKey := VideoKey(freshVideo, d.video.value);
      var videoStep := Step(Upload(videoKey, d.video.value), avail.videoUpload);
      if !avail.videoUpload then Attempt([videoStep], Failed(VideoUploadFailed))
      else if d.thumbnail.None? then
        var insertStep := Step(InsertVideo(RecordFor(d, session.value, PublicUrl(videoKey), None)), avail.insert);
        Attempt([videoStep, insertStep], if avail.insert then Uploaded else Failed(InsertFailed))
      else
        var thumbnailKey := ThumbnailKey(freshThumbnail, d.thumbnail.value);
        var thumbnailStep := Step(Upload(thumbnailKey, d.thumbnail.value), avail.thumbnailUpload);
        if !avail.thumbnailUpload then Attempt([videoStep, thumbnailStep], Failed(ThumbnailUploadFailed))
        else
          var record := RecordFor(d, session.value, PublicUrl(videoKey), Some(PublicUrl(thumbnailKey)));
          var insertStep := Step(InsertVideo(record), avail.insert);
          Attempt([videoStep, thumbnailStep, insertStep], if avail.insert then Uploaded else Failed(InsertFailed))
  }

  /** Without a session, a video or a title, a submit fails before it calls
      the backend at all. */
  lemma IncompleteSubmitCallsNothing(d: Draft, session: Option<Session>, fv: string, ft: string, avail: Availability)
    requires session.None? || d.video.None? || d.title == ""
    ensures Submit(d, session, fv, ft, avail).steps == []
    ensures Submit(d, session, fv, ft, avail).outcome ==
      Failed(if session.None? then NoSession else MissingVideoOrTitle)
  {
  }

  /** A draft built through the file inputs never trips the submit-time size
      check. */
  lemma ValidDraftPassesSizeCheck(d: Draft, session: Option<Session>, fv: string, ft: string, avail: Availability)
    requires WithinLimits(d)
    ensures Submit(d, session, fv, ft, avail).outcome != Failed(VideoTooLarge)
  {
  }

  /** The uploads of a submit: the video first, under its fresh name in the
      videos bucket, then the thumbnail under "thumbnails/" if there is one,
      and nothing else. */
  lemma SubmitUploads(d: Draft, s: Session, fv: string, ft: string, avail: Availability)
    requires d.video.Some? && d.title != "" && d.video.value.size <= MaxFileSize
    ensures var a := Submit(d, Some(s), fv, ft, avail);
      && |a.steps| >= 1
      && a.steps[0] == Step(Upload(VideoKey(fv, d.video.value), d.video.value), avail.videoUpload)
      && (!avail.videoUpload ==> |a.steps| == 1)
      && (d.thumbnail.None? ==> forall k :: 1 <= k < |a.steps| ==> !a.steps[k].call.Upload?)
      && (d.thumbnail.Some? && avail.videoUpload ==>
            |a.steps| >= 2 &&
            a.steps[1] == Step(Upload(ThumbnailKey(ft, d.thumbnail.value), d.thumbnail.value), avail.thumbnailUpload))
      && (d.thumbnail.Some? && avail.videoUpload && !avail.thumbnailUpload ==> |a.steps| == 2)
      && (avail.videoUpload && (d.thumbnail.Some? ==> avail.thumbnailUpload) ==>
            a.steps[|a.steps| - 1].call.InsertVideo? && a.steps[|a.steps| - 1].ok == avail.insert)
  {
  }

  /** The row a successful submit inserts: the draft's title and
      description, the session user as owner, the video's public URL, and a
      thumbnail URL exactly when a thumbnail was chosen. */
  lemma SubmitInsertsRecord(d: Draft, s: Session, fv: string, ft: string, avail: Availability, t: Tables)
    requires Submit(d, Some(s), fv, ft, avail).outcome == Uploaded
    ensures var a := Submit(d, Some(s), fv, ft, avail);
      var r := a.steps[|a.steps| - 1].call.record;
      && a.steps[|a.steps| - 1].call.InsertVideo?
      && r.title == d.title && r.description == d.description && r.userId == s.userId
      && r.videoUrl == PublicUrl(VideoKey(fv, d.video.value))
      && (r.thumbnailUrl.None? <==> d.thumbnail.None?)
      && (d.thumbnail.Some? ==> r.thumbnailUrl == Some(PublicUrl(ThumbnailKey(ft, d.thumbnail.value))))
      && Replay(t, a.steps).videos == t.videos + [r]
  {
    var a := Submit(d, Some(s), fv, ft, avail);
    var uploads := a.steps[..|a.steps| - 1];
    NoInsertKeepsVideos(t, uploads);
  }

  /** A failed submit inserts no record, and one that fails at the video
      upload or earlier leaves the backend as it was. A failure after the
      video upload leaves the uploaded objects behind: nothing removes them. */
  lemma FailedSubmitInsertsNothing(d: Draft, s: Option<Session>, fv: string, ft: string, avail: Availability, t: Tables)
    requires Submit(d, s, fv, ft, avail).outcome.Failed?
    ensures Replay(t, Submit(d, s, fv, ft, avail).steps).videos == t.videos
    ensures Submit(d, s, fv, ft, avail).outcome.FailedLocally() ==> Replay(t, Submit(d, s, fv, ft, avail).steps) == t
    ensures Submit(d, s, fv, ft, avail).outcome == Failed(VideoUploadFailed) ==>
              Replay(t, Submit(d, s, fv, ft, avail).steps) == t
    ensures Submit(d, s, fv, ft, avail).outcome == Failed(ThumbnailUploadFailed) ||
            Submit(d, s, fv, ft, avail).outcome == Failed(InsertFailed) ==>
              d.video.Some? && VideoKey(fv, d.video.value) in Replay(t, Submit(d, s, fv, ft, avail).steps).objects
  {
    var a := Submit(d, s, fv, ft, avail);
    if a.steps != [] {
      var n := |a.steps|;
      var uploads := a.steps[..n - 1];
      assert a.steps == uploads + [a.steps[n - 1]];
      NoInsertKeepsVideos(t, uploads);
      ReplaySnoc(t, uploads, a.steps[n - 1]);
    }
  }

  lemma {:induction false} NoInsertKeepsVideos(t: Tables, steps: seq<Step>)
    requires forall k :: 0 <= k < |steps| ==> !steps[k].call.InsertVideo? || !steps[k].ok
    ensures Replay(t, steps).videos == t.videos
    decreases |steps|
  {
    if steps != [] {
      NoInsertKeepsVideos(t, steps[..|steps| - 1]);
    }
  }

  /** With a fresh UUID for the video, the thumbnail gets a URL of its own,
      distinct from the video's. */
  lemma ThumbnailUrlIsDistinct(fv: string, ft: string, video: File, thumbnail: File)
    requires IsUuid(fv)
    ensures PublicUrl(ThumbnailKey(ft, thumbnail)) != PublicUrl(VideoKey(fv, video))
  {
    var vp := ObjectPath("", fv, video.name);
    var tp := ObjectPath(ThumbnailFolder, ft, thumbnail.name);
    assert vp[10] == fv[10];
    assert tp[10] == '/';
    if PublicUrl(ThumbnailKey(ft, thumbnail)) == PublicUrl(VideoKey(fv, video)) {
      PublicUrlInjective(VideoBucket, tp, vp);
    }
  }

  /** The backend half of the submit button, once the draft has passed the
      local checks: the video upload, the optional thumbnail upload and the
      insert, each only if the one before succeeded. */
  method Publish(store: Store, d: Draft, session: Session, freshVideo: string, freshThumbnail: string,
                 avail: Availability) returns (outcome: Outcome)
    requires d.video.Some? && d.title != "" && d.video.value.size <= MaxFileSize
    modifies store
    ensures var a := Submit(d, Some(session), freshVideo, freshThumbnail, avail);
      && outcome == a.outcome
      && store.log == old(store.log) + a.steps
      && store.tables == Replay(old(store.tables), a.steps)
  {
    ghost var tables0 := store.tables;
    var video := d.video.value;
    var videoKey := VideoKey(freshVideo, video);
    var videoStep := Step(Upload(videoKey, video), avail.videoUpload);
    var ok := store.Perform(videoStep.call, avail.videoUpload);
    ReplaySnoc(tables0, [], videoStep);
    assert [videoStep] == [] + [videoStep];
    if !ok {
      return Failed(VideoUploadFailed);
    }
    if d.thumbnail.None? {
      var insertStep := Step(InsertVideo(RecordFor(d, session, PublicUrl(videoKey), None)), avail.insert);
      ok := store.Perform(insertStep.call, avail.insert);
      ReplaySnoc(tables0, [videoStep], insertStep);
      assert [videoStep, insertStep] == [videoStep] + [insertStep];
      return if ok then Uploaded else Failed(InsertFailed);
    }
    var thumbnail := d.thumbnail.value;
    var thumbnailKey := ThumbnailKey(freshThumbnail, thumbnail);
    var thumbnailStep := Step(Upload(thumbnailKey, thumbnail), avail.thumbnailUpload);
    ok := store.Perform(thumbnailStep.call, avail.thumbnailUpload);
    ReplaySnoc(tables0, [videoStep], thumbnailStep);
    assert [videoStep, thumbnailStep] == [videoStep] + [thumbnailStep];
    if !ok {
      return Failed(ThumbnailUploadFailed);
    }
    var record := RecordFor(d, session, PublicUrl(videoKey), Some(PublicUrl(thumbnailKey)));
    var insertStep := Step(InsertVideo(record), avail.insert);
    ok := store.Perform(insertStep.call, avail.insert);
    ReplaySnoc(tables0, [videoStep, thumbnailStep], insertStep);
    assert [videoStep, thumbnailStep, insertStep] == [videoStep, thumbnailStep] + [insertStep];
    outcome := if ok then Uploaded else Failed(InsertFailed);
  }

  /** The dialog's state: the draft, the busy flag, and how many times it
      has told its caller that an upload completed. */
  class UploadDialog {
    var draft: Draft
    var loading: bool
    var completions: nat

    predicate Valid()
      reads this
    {
      WithinLimits(draft)
    }

    constructor ()
      ensures draft == EmptyDraft && !loading && completions == 0 && Valid()
    {
      draft := EmptyDraft;
      loading := false;
      completions := 0;
    }

    method SetTitle(title: string)
      modifies this
      ensures draft == old(draft).(title := title)
      ensures loading == old(loading) && completions == old(completions)
      ensures old(Valid()) ==> Valid()
    {
      draft := draft.(title := title);
    }

    method SetDescription(description: string)
      modifies this
      ensures draft == old(draft).(description := description)
      ensures loading == old(loading) && completions == old(completions)
      ensures old(Valid()) ==> Valid()
    {
      draft := draft.(description := description);
    }

    /** A pick in one of the file inputs; reports whether it cleared the
        input. */
    method HandleFileChange(kind: FileKind, file: Option<File>) returns (inputCleared: bool)
      modifies this
      ensures Selection(draft, inputCleared) == SelectFile(old(draft), kind, file)
      ensures loading == old(loading) && completions == old(completions)
      ensures old(Valid()) ==> Valid()
    {
      if file.Some? {
        if kind == VideoFile && !ValidateFileSize(file, MaxFileSize) {
          return true;
        }
        if kind == ThumbnailFile && !ValidateFileSize(file, MaxThumbnailSize) {
          return true;
        }
      }
      inputCleared := false;
      draft := if kind == VideoFile then draft.(video := file) else draft.(thumbnail := file);
    }

    /** The submit button. Makes exactly the calls `Submit` describes; on
        success resets the draft and signals completion once; is no longer
        busy afterwards, whatever the outcome. */
    method UploadVideo(store: Store, session: Option<Session>, freshVideo: string, freshThumbnail: string,
                       avail: Availability) returns (outcome: Outcome)
      modifies this, store
      ensures var a := Submit(old(draft), session, freshVideo, freshThumbnail, avail);
        && outcome == a.outcome
        && store.log == old(store.log) + a.steps
        && store.tables == Replay(old(store.tables), a.steps)
      ensures draft == if outcome == Uploaded then EmptyDraft else old(draft)
      ensures completions == old(completions) + if outcome == Uploaded then 1 else 0
      ensures !loading
      ensures old(Valid()) ==> Valid()
      ensures old(Valid()) ==> outcome != Failed(VideoTooLarge)
    {
      var d := draft;
      loading := true;
      if session.None? {
        outcome := Failed(NoSession);
      } else if d.video.None? || d.title == "" {
        outcome := Failed(MissingVideoOrTitle);
      } else if !ValidateFileSize(d.video, MaxFileSize) {
        outcome := Failed(VideoTooLarge);
      } else {
        outcome := Publish(store, d, session.value, freshVideo, freshThumbnail, avail);
      }
      if outcome == Uploaded {
        draft := EmptyDraft;
        completions := completions + 1;
      }
      loading := false;
    }
  }
}
