/**
 * The saved-videos hook: the set of video ids the signed-in user has saved,
 * kept in step with the `saved_videos` table. The database calls are
 * parameters: the rows a query returned or its error, and the error (if
 * any) an insert or delete reported. The signed-in user is `user`; the
 * toast each call shows is returned.
 */
module SavedVideos {
  import opened Common
  import opened YouTubeTypes

  /** A database error; `code` is the PostgreSQL error code. */
  datatype DbError = DbError(code: string)

  /** Code 23505: unique constraint violation, the video is already saved. */
  const UniqueViolation := "23505"

  /** The row inserted into `saved_videos`. */
  datatype SavedRow = SavedRow(
    userId: string,
    videoId: string,
    title: string,
    channelTitle: string,
    thumbnailUrl: string,
    viralScore: int,
    viewCount: int)

  datatype Toast = ErrorToast(message: string) | SuccessToast(message: string)

  /** The hook's state as a value. */
  datatype SavedState = SavedState(savedVideoIds: set<string>, loading: bool)

  function RowFor(userId: string, v: ViralVideo): (row: SavedRow)
    ensures row.userId == userId && row.videoId == v.video.id && row.viralScore == v.viralScore
  {
    SavedRow(userId, v.video.id, v.video.title, v.channel.title, v.video.thumbnail.url,
             v.viralScore, v.video.statistics.viewCount)
  }

  /** The outcome of `saveVideo`: the new state, the result, the toast, and the row sent to the table. */
  datatype SaveResult = SaveResult(state: SavedState, saved: bool, toast: Toast, inserted: Option<SavedRow>)

  /** `saveVideo(video)`; `insertError` is what the insert reported. */
  function Save(s: SavedState, user: Option<string>, v: ViralVideo, insertError: Option<DbError>): (r: SaveResult)
    ensures user.None? ==> r.state == s && !r.saved && r.inserted.None?
                           && r.toast == ErrorToast("Please sign in to save videos")
    ensures user.Some? ==> r.inserted == Some(RowFor(user.value, v)) && !r.state.loading
    ensures user.Some? ==> (r.saved <==> insertError.None?)
    ensures r.saved ==> r.state.savedVideoIds == s.savedVideoIds + {v.video.id}
    ensures !r.saved ==> r.state.savedVideoIds == s.savedVideoIds
    ensures user.Some? && insertError.None? ==> r.toast == SuccessToast("Video saved!")
    ensures user.Some? && insertError.Some? && insertError.value.code == UniqueViolation ==>
              r.toast == ErrorToast("Video already saved")
    ensures user.Some? && insertError.Some? && insertError.value.code != UniqueViolation ==>
              r.toast == ErrorToast("Failed to save video")
  {
    if user.None? then SaveResult(s, false, ErrorToast("Please sign in to save videos"), None)
    else
      var row := Some(RowFor(user.value, v));
      if insertError.None? then
        SaveResult(SavedState(s.savedVideoIds + {v.video.id}, false), true, SuccessToast("Video saved!"), row)
      else if insertError.value.code == UniqueViolation then
        SaveResult(s.(loading := false), false, ErrorToast("Video already saved"), row)
      else
        SaveResult(s.(loading := false), false, ErrorToast("Failed to save video"), row)
  }

  /** The outcome of `unsaveVideo`: the new state, the result, and the toast if one is shown. */
  datatype UnsaveResult = UnsaveResult(state: SavedState, removed: bool, toast: Option<Toast>, deleteIssued: bool)

  /** `unsaveVideo(videoId)`; `deleteError` is what the delete reported. */
  function Unsave(s: SavedState, user: Option<string>, videoId: string, deleteError: Option<DbError>): (r: UnsaveResult)
    ensures user.None? ==> r.state == s && !r.removed && r.toast.None? && !r.deleteIssued
    ensures user.Some? ==> r.deleteIssued && !r.state.loading && (r.removed <==> deleteError.None?)
    ensures r.removed ==> r.state.savedVideoIds == s.savedVideoIds - {videoId}
    ensures !r.removed ==> r.state.savedVideoIds == s.savedVideoIds
    ensures user.Some? && deleteError.None? ==> r.toast == Some(SuccessToast("Video removed from saved"))
    ensures user.Some? && deleteError.Some? ==> r.toast == Some(ErrorToast("Failed to remove video"))
  {
    if user.None? then UnsaveResult(s, false, None, false)
    else if deleteError.None? then
      UnsaveResult(SavedState(s.savedVideoIds - {videoId}, false), true, Some(SuccessToast("Video removed from saved")), true)
    else
      UnsaveResult(s.(loading := false), false, Some(ErrorToast("Failed to remove video")), true)
  }

  /** `fetchSavedVideoIds`: the set becomes the returned ids; an error or no user leaves it alone. */
  function Fetch(s: SavedState, user: Option<string>, rows: Result<seq<string>, DbError>): (r: SavedState)
    ensures user.Some? && rows.Success? ==> forall id :: id in r.savedVideoIds <==> id in rows.value
    ensures user.None? || rows.Failure? ==> r == s
    ensures r.loading == s.loading
  {
    if user.None? || rows.Failure? then s
    else s.(savedVideoIds := set id | id in rows.value)
  }

  class SavedVideosHook {
    var savedVideoIds: set<string>
    var loading: bool

    function State(): SavedState
      reads this
    {
      SavedState(savedVideoIds, loading)
    }

    constructor ()
      ensures State() == SavedState({}, false)
    {
      savedVideoIds := {};
      loading := false;
    }

    /** `isSaved(videoId)`. */
    function IsSaved(videoId: string): (r: bool)
      reads this
      ensures r <==> videoId in savedVideoIds
    {
      videoId in savedVideoIds
    }

    method FetchSavedVideoIds(user: Option<string>, rows: Result<seq<string>, DbError>)
      modifies this
      ensures State() == Fetch(old(State()), user, rows)
    {
      if user.None? {
        return;
      }
      if rows.Success? {
        savedVideoIds := set id | id in rows.value;
      }
    }

    method SaveVideo(user: Option<string>, v: ViralVideo, insertError: Option<DbError>)
      returns (saved: bool, toast: Toast, inserted: Option<SavedRow>)
      modifies this
      ensures var r := Save(old(State()), user, v, insertError);
        State() == r.state && saved == r.saved && toast == r.toast && inserted == r.inserted
    {
      if user.None? {
        return false, ErrorToast("Please sign in to save videos"), None;
      }
      loading := true;
      inserted := Some(RowFor(user.value, v));
      if insertError.None? {
        savedVideoIds := savedVideoIds + {v.video.id};
        saved, toast := true, SuccessToast("Video saved!");
      } else if insertError.value.code == UniqueViolation {
        saved, toast := false, ErrorToast("Video already saved");
      } else {
        saved, toast := false, ErrorToast("Failed to save video");
      }
      loading := false;
    }

    method UnsaveVideo(user: Option<string>, videoId: string, deleteError: Option<DbError>)
      returns (removed: bool, toast: Option<Toast>, deleteIssued: bool)
      modifies this
      ensures var r := Unsave(old(State()), user, videoId, deleteError);
        State() == r.state && removed == r.removed && toast == r.toast && deleteIssued == r.deleteIssued
    {
      if user.None? {
        return false, None, false;
      }
      loading := true;
      deleteIssued := true;
      if deleteError.None? {
        savedVideoIds := savedVideoIds - {videoId};
        removed, toast := true, Some(SuccessToast("Video removed from saved"));
      } else {
        removed, toast := false, Some(ErrorToast("Failed to remove video"));
      }
      loading := false;
    }

    /**
     * `toggleSaveVideo(video)`: unsave when the id is in the set, save
     * otherwise; `dbError` is what the one database call reported.
     */
    method ToggleSaveVideo(user: Option<string>, v: ViralVideo, dbError: Option<DbError>) returns (ok: bool)
      modifies this
      ensures old(IsSaved(v.video.id)) ==>
        var r := Unsave(old(State()), user, v.video.id, dbError); State() == r.state && ok == r.removed
      ensures !old(IsSaved(v.video.id)) ==>
        var r := Save(old(State()), user, v, dbError); State() == r.state && ok == r.saved
    {
      if IsSaved(v.video.id) {
        var toast, issued;
        ok, toast, issued := UnsaveVideo(user, v.video.id, dbError);
      } else {
        var toast, inserted;
        ok, toast, inserted := SaveVideo(user, v, dbError);
      }
    }
  }

  // ----- Lemmas -----

  /** Saving and then unsaving a video that was not saved restores the set. */
  lemma SaveThenUnsaveRestores(s: SavedState, user: Option<string>, v: ViralVideo)
    requires v.video.id !in s.savedVideoIds
    ensures Unsave(Save(s, user, v, None).state, user, v.video.id, None).state.savedVideoIds == s.savedVideoIds
  {
  }

  /** After a successful toggle, the video's saved status is flipped and no other id moves. */
  lemma ToggleFlips(s: SavedState, userId: string, v: ViralVideo)
    ensures var after :=
        if v.video.id in s.savedVideoIds then Unsave(s, Some(userId), v.video.id, None).state
        else Save(s, Some(userId), v, None).state;
      && (v.video.id in after.savedVideoIds <==> v.video.id !in s.savedVideoIds)
      && forall id | id != v.video.id :: id in after.savedVideoIds <==> id in s.savedVideoIds
  {
  }

  /** A rejected insert, the duplicate case included, leaves the set as it was. */
  lemma FailedSaveChangesNothing(s: SavedState, userId: string, v: ViralVideo, e: DbError)
    ensures Save(s, Some(userId), v, Some(e)).state.savedVideoIds == s.savedVideoIds
    ensures !Save(s, Some(userId), v, Some(e)).saved
  {
  }
}
