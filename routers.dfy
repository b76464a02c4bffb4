/**
  * The application router's procedures. Every procedure here is protected:
  * the signed-in guard runs first, then the input validators, then the
  * handler, which for child records and reads of one row loads the row or
  * the parent video and compares its owner with the caller. The URL check of
  * the submit input is the abstract predicate `isUrl`.
  */
module Routers {
  import opened Wrappers
  import opened Schema
  import opened Auth
  import opened Trpc
  import opened Store
  import Platform
  import LanguageCode

  /** Why a procedure throws. */
  datatype ApiError =
    | Denied(reason: TrpcError)        // the protected guard
    | InvalidInput(fields: set<string>) // the input validators, one entry per failing field
    | Failed(error: DbError)            // an ownership guard or the store

  const OwnerMismatchVideo: ApiError := Failed(NotFoundOrUnauthorized(VideoEntity))
  const OwnerMismatchTask: ApiError := Failed(NotFoundOrUnauthorized(TaskEntity))
  const NotSignedIn: ApiError := Denied(TrpcError(Unauthorized, UnauthedMessage))

  /** `z.string().min(1)`: at least one character, whitespace included. */
  predicate NonEmpty(s: string)
  {
    |s| >= 1
  }

  /** The statuses the task procedures accept, which are not the schema's statuses. */
  datatype LegacyStatus = Todo | InProgress | Done

  function LegacyStatusName(s: LegacyStatus): (name: string)
    ensures name in ["todo", "in_progress", "done"]
  {
    match s
    case Todo => "todo"
    case InProgress => "in_progress"
    case Done => "done"
  }

  /** No status the task procedures write is a status of the schema's enum. */
  lemma LegacyStatusOutsideSchema(s: LegacyStatus)
    ensures ParseStatus(LegacyStatusName(s)) == None
  {
  }

  /** The caller owns the video: it exists, the store is reachable and its owner is the caller. */
  predicate OwnsVideo(db: Database, userId: int, videoId: int)
    reads db
  {
    db.available && videoId in db.videos && db.videos[videoId].userId == userId
  }

  /** The "load parent video, compare owner" guard. */
  function VideoGuard(db: Database, userId: int, videoId: int): (r: Result<Video, ApiError>)
    reads db
    requires db.Valid()
    ensures r.Ok? <==> OwnsVideo(db, userId, videoId)
    ensures r.Ok? ==> r.value.id == videoId && r.value.userId == userId && r.value in db.videos.Values
    ensures r.Err? ==> r.error == OwnerMismatchVideo
  {
    var video := db.VideoById(videoId);
    if video.None? || video.value.userId != userId then Err(OwnerMismatchVideo) else Ok(video.value)
  }

  // ---------------------------------------------------------------------------
  // videos
  // ---------------------------------------------------------------------------

  function VideosList<R>(db: Database, ctx: Ctx<R>): (r: Result<set<Video>, ApiError>)
    reads db
    ensures r.Err? <==> ctx.user.None?
    ensures r.Err? ==> r.error == NotSignedIn
    ensures r.Ok? ==> forall v :: v in r.value <==>
              db.available && v in db.videos.Values && v.userId == ctx.user.value.id
  {
    match RequireUser(ctx)
    case Err(e) => Err(Denied(e))
    case Ok(authed) => Ok(db.UserVideos(authed.user.id))
  }

  function VideosGet<R>(db: Database, ctx: Ctx<R>, id: int): (r: Result<Video, ApiError>)
    reads db
    requires db.Valid()
    ensures ctx.user.None? ==> r == Err(NotSignedIn)
    ensures ctx.user.Some? ==> (r.Ok? <==> OwnsVideo(db, ctx.user.value.id, id))
    ensures ctx.user.Some? && r.Err? ==> r.error == OwnerMismatchVideo
    ensures r.Ok? ==> r.value == db.videos[id]
  {
    match RequireUser(ctx)
    case Err(e) => Err(Denied(e))
    case Ok(authed) => VideoGuard(db, authed.user.id, id)
  }

  /** The video row submit asks for: pending, classified by its URL. */
  function SubmittedVideo(url: string): (data: NewVideo)
    ensures data.url == url && data.status == Some(Pending)
    ensures data.sourcePlatform == Some(Platform.ExtractPlatform(url))
    ensures data.filePath.None? && data.title.None?
  {
    NewVideo(url, None, None, Some(Pending), Some(Platform.ExtractPlatform(url)), None, None)
  }

  /**
    * The capture task submit files. Its video key is read off the insert
    * result, which carries no `id` field, so the task is filed without a video.
    */
  function CaptureTaskFor(url: string): (data: NewTask)
    ensures data.videoId.None? && data.taskType == Some(CaptureTask)
    ensures data.title == "Video Capture" && data.description == Some("Capturing video from " + url)
    ensures data.status == Some(StatusName(Pending))
  {
    NewTask(None, Some(CaptureTask), "Video Capture", Some("Capturing video from " + url),
            Some(StatusName(Pending)), None, None)
  }

  function SubmitInputErrors(url: string, targetLanguage: string, isUrl: string -> bool): (fields: set<string>)
    ensures "url" in fields <==> !isUrl(url)
    ensures "targetLanguage" in fields <==> !LanguageCode.MatchesPattern(targetLanguage)
    ensures fields <= {"url", "targetLanguage"}
  {
    (if isUrl(url) then {} else {"url"})
    + (if LanguageCode.MatchesPattern(targetLanguage) then {} else {"targetLanguage"})
  }

  /**
    * videos.submit: two separate inserts, the video and then its capture task,
    * which is not linked to the video. The target language is validated and
    * then not stored; the voice profile is unused. The result is the new
    * video's id (the insert result's row id).
    */
  method VideosSubmit<R>(db: Database, ctx: Ctx<R>, url: string, targetLanguage: string,
                         voiceProfile: Option<string>, isUrl: string -> bool, now: int)
    returns (r: Result<int, ApiError>)
    requires db.Valid()
    modifies db
    ensures db.Valid()
    ensures ctx.user.None? ==> r == Err(NotSignedIn)
    ensures ctx.user.Some? && SubmitInputErrors(url, targetLanguage, isUrl) != {} ==>
              r == Err(InvalidInput(SubmitInputErrors(url, targetLanguage, isUrl)))
    ensures ctx.user.Some? && SubmitInputErrors(url, targetLanguage, isUrl) == {} && !old(db.available) ==>
              r == Err(Failed(Unavailable))
    ensures r.Err? ==> db.State() == old(db.State())
    ensures r.Ok? <==> ctx.user.Some? && SubmitInputErrors(url, targetLanguage, isUrl) == {} && old(db.available)
    ensures r.Ok? ==>
              var videoId := old(db.nextVideoId);
              var taskId := old(db.nextTaskId);
              var owner := ctx.user.value.id;
              && r.value == videoId
              && db.State() == old(db.State()).(
                   videos := old(db.videos)[videoId := InsertedVideo(videoId, owner, SubmittedVideo(url), now)],
                   nextVideoId := videoId + 1,
                   tasks := old(db.tasks)[taskId := InsertedTask(taskId, owner, CaptureTaskFor(url), now)],
                   nextTaskId := taskId + 1)
    ensures r.Ok? ==>
              && OwnsVideo(db, ctx.user.value.id, r.value)
              && db.videos[r.value].status == Pending
              && db.videos[r.value].sourcePlatform == Some(Platform.ExtractPlatform(url))
              && db.tasks[old(db.nextTaskId)].videoId.None?
              && db.tasks[old(db.nextTaskId)].userId == ctx.user.value.id
              && db.tasks[old(db.nextTaskId)].taskType == Some(CaptureTask)
              && db.tasks[old(db.nextTaskId)].status == StatusName(Pending)
    ensures r.Ok? ==> !VideoMeetsNotNull(db.videos[r.value]) && !TaskMeetsNotNull(db.tasks[old(db.nextTaskId)])
  {
    var guard := RequireUser(ctx);
    if guard.Err? {
      return Err(Denied(guard.error));
    }
    var user := guard.value.user;
    var errors := SubmitInputErrors(url, targetLanguage, isUrl);
    if errors != {} {
      return Err(InvalidInput(errors));
    }
    var video := db.CreateVideo(user.id, SubmittedVideo(url), now);
    if video.Err? {
      return Err(Failed(video.error));
    }
    var task := db.CreateTask(user.id, CaptureTaskFor(url), now);
    assert task.Ok?;
    r := Ok(video.value);
  }

  /** The patch videos.update hands to the store: the title and the status, nothing else. */
  function RequestedVideoPatch(title: Supplied<string>, status: Supplied<Status>): (p: VideoPatch)
    ensures p.title.Given? <==> title.Given?
    ensures title.Given? ==> p.title.value == Some(title.value)
    ensures p.status == status
    ensures p.(title := Omitted, status := Omitted) == NoVideoChange
  {
    NoVideoChange.(title := if title.Given? then Given(Some(title.value)) else Omitted, status := status)
  }

  method VideosUpdate<R>(db: Database, ctx: Ctx<R>, id: int, title: Supplied<string>,
                         status: Supplied<Status>, now: int)
    returns (r: Outcome<ApiError>)
    requires db.Valid()
    modifies db
    ensures db.Valid()
    ensures ctx.user.None? ==> r == Fail(NotSignedIn)
    ensures ctx.user.Some? ==> r == (if !old(db.available) then Fail(Failed(Unavailable))
                                     else if !old(OwnsVideo(db, ctx.user.value.id, id)) then Fail(OwnerMismatchVideo)
                                     else Pass)
    ensures r.Fail? ==> db.State() == old(db.State())
    ensures r.Pass? ==>
              db.State() == old(db.State()).(videos := old(db.videos)[id :=
                PatchedVideo(old(db.videos)[id], RequestedVideoPatch(title, status),
                             db.Refreshed(old(db.videos)[id].updatedAt, now))])
    ensures r.Pass? ==>
              var (v, w) := (old(db.videos)[id], db.videos[id]);
              && w.url == v.url && w.filePath == v.filePath && w.sourcePlatform == v.sourcePlatform
              && w.createdAt == v.createdAt
              && (title.Given? ==> w.title == Some(title.value)) && (title.Omitted? ==> w.title == v.title)
              && (status.Given? ==> w.status == status.value) && (status.Omitted? ==> w.status == v.status)
  {
    var guard := RequireUser(ctx);
    if guard.Err? {
      return Fail(Denied(guard.error));
    }
    var outcome := db.UpdateVideo(id, guard.value.user.id, RequestedVideoPatch(title, status), now);
    r := if outcome.Fail? then Fail(Failed(outcome.error)) else Pass;
  }

  method VideosDelete<R>(db: Database, ctx: Ctx<R>, id: int) returns (r: Outcome<ApiError>)
    requires db.Valid()
    modifies db
    ensures db.Valid()
    ensures ctx.user.None? ==> r == Fail(NotSignedIn)
    ensures ctx.user.Some? ==> r == (if !old(db.available) then Fail(Failed(Unavailable))
                                     else if !old(OwnsVideo(db, ctx.user.value.id, id)) then Fail(OwnerMismatchVideo)
                                     else Pass)
    ensures r.Fail? ==> db.State() == old(db.State())
    ensures r.Pass? ==> db.State() == old(db.State()).(videos := old(db.videos) - {id})
  {
    var guard := RequireUser(ctx);
    if guard.Err? {
      return Fail(Denied(guard.error));
    }
    var outcome := db.DeleteVideo(id, guard.value.user.id);
    r := if outcome.Fail? then Fail(Failed(outcome.error)) else Pass;
  }

  // ---------------------------------------------------------------------------
  // transcription, dubbing, renderedVideos
  // ---------------------------------------------------------------------------

  function TranscriptionGet<R>(db: Database, ctx: Ctx<R>, videoId: int): (r: Result<Option<Transcript>, ApiError>)
    reads db
    requires db.Valid()
    ensures ctx.user.None? ==> r == Err(NotSignedIn)
    ensures ctx.user.Some? ==> (r.Ok? <==> OwnsVideo(db, ctx.user.value.id, videoId))
    ensures ctx.user.Some? && r.Err? ==> r.error == OwnerMismatchVideo
    ensures r.Ok? ==> r.value == db.TranscriptByVideoId(videoId)
  {
    match RequireUser(ctx)
    case Err(e) => Err(Denied(e))
    case Ok(authed) =>
      match VideoGuard(db, authed.user.id, videoId)
      case Err(e) => Err(e)
      case Ok(_) => Ok(db.TranscriptByVideoId(videoId))
  }

  method TranscriptionCreate<R>(db: Database, ctx: Ctx<R>, videoId: int, language: string, now: int)
    returns (r: Result<int, ApiError>)
    requires db.Valid()
    modifies db
    ensures db.Valid()
    ensures ctx.user.None? ==> r == Err(NotSignedIn)
    ensures ctx.user.Some? && !LanguageCode.MatchesPattern(language) ==> r == Err(InvalidInput({"language"}))
    ensures ctx.user.Some? && LanguageCode.MatchesPattern(language) && !old(OwnsVideo(db, ctx.user.value.id, videoId)) ==>
              r == Err(OwnerMismatchVideo)
    ensures r.Err? ==> db.State() == old(db.State())
    ensures r.Ok? <==> ctx.user.Some? && LanguageCode.MatchesPattern(language) && old(OwnsVideo(db, ctx.user.value.id, videoId))
    ensures r.Ok? ==> r.value == old(db.nextTranscriptId) && db.State() == old(db.State()).(
              transcripts := old(db.transcripts)[r.value :=
                InsertedTranscript(r.value, NewTranscript(videoId, language, None, Some(Pending)), now)],
              nextTranscriptId := r.value + 1)
    ensures r.Ok? ==> db.transcripts[r.value].status == Pending && TranscriptFitsMysql(db.transcripts[r.value])
    ensures r.Ok? ==> db.transcripts[r.value].language == language && !TranscriptMeetsNotNull(db.transcripts[r.value])
  {
    var guard := RequireUser(ctx);
    if guard.Err? {
      return Err(Denied(guard.error));
    }
    if !LanguageCode.MatchesPattern(language) {
      return Err(InvalidInput({"language"}));
    }
    var video := VideoGuard(db, guard.value.user.id, videoId);
    if video.Err? {
      return Err(video.error);
    }
    var created := db.CreateTranscript(NewTranscript(videoId, language, None, Some(Pending)), now);
    assert created.Ok?;
    LanguageCode.AcceptedCodeFitsColumn(language);
    r := Ok(created.value);
  }

  function DubbingGet<R>(db: Database, ctx: Ctx<R>, videoId: int): (r: Result<Option<Dubbing>, ApiError>)
    reads db
    requires db.Valid()
    ensures ctx.user.None? ==> r == Err(NotSignedIn)
    ensures ctx.user.Some? ==> (r.Ok? <==> OwnsVideo(db, ctx.user.value.id, videoId))
    ensures ctx.user.Some? && r.Err? ==> r.error == OwnerMismatchVideo
    ensures r.Ok? ==> r.value == db.DubbingByVideoId(videoId)
  {
    match RequireUser(ctx)
    case Err(e) => Err(Denied(e))
    case Ok(authed) =>
      match VideoGuard(db, authed.user.id, videoId)
      case Err(e) => Err(e)
      case Ok(_) => Ok(db.DubbingByVideoId(videoId))
  }

  /** The transcript every dubbing created through the router points at. */
  const PlaceholderTranscriptId: int := 1

  method DubbingCreate<R>(db: Database, ctx: Ctx<R>, videoId: int, targetLanguage: string,
                          voiceProfile: string, now: int)
    returns (r: Result<int, ApiError>)
    requires db.Valid()
    modifies db
    ensures db.Valid()
    ensures ctx.user.None? ==> r == Err(NotSignedIn)
    ensures ctx.user.Some? && !LanguageCode.MatchesPattern(targetLanguage) ==> r == Err(InvalidInput({"targetLanguage"}))
    ensures ctx.user.Some? && LanguageCode.MatchesPattern(targetLanguage) && !old(OwnsVideo(db, ctx.user.value.id, videoId)) ==>
              r == Err(OwnerMismatchVideo)
    ensures r.Err? ==> db.State() == old(db.State())
    ensures r.Ok? <==> ctx.user.Some? && LanguageCode.MatchesPattern(targetLanguage) && old(OwnsVideo(db, ctx.user.value.id, videoId))
    ensures r.Ok? ==> r.value == old(db.nextDubbingId) && db.State() == old(db.State()).(
              dubbings := old(db.dubbings)[r.value := InsertedDubbing(r.value,
                NewDubbing(videoId, PlaceholderTranscriptId, targetLanguage, Some(voiceProfile), Some(Pending)), now)],
              nextDubbingId := r.value + 1)
    ensures r.Ok? ==> db.dubbings[r.value].transcriptId == 1 && db.dubbings[r.value].status == Pending
  {
    var guard := RequireUser(ctx);
    if guard.Err? {
      return Err(Denied(guard.error));
    }
    if !LanguageCode.MatchesPattern(targetLanguage) {
      return Err(InvalidInput({"targetLanguage"}));
    }
    var video := VideoGuard(db, guard.value.user.id, videoId);
    if video.Err? {
      return Err(video.error);
    }
    var created := db.CreateDubbing(
      NewDubbing(videoId, PlaceholderTranscriptId, targetLanguage, Some(voiceProfile), Some(Pending)), now);
    assert created.Ok?;
    r := Ok(created.value);
  }

  function RenderedVideosGet<R>(db: Database, ctx: Ctx<R>, videoId: int): (r: Result<Option<RenderedVideo>, ApiError>)
    reads db
    requires db.Valid()
    ensures ctx.user.None? ==> r == Err(NotSignedIn)
    ensures ctx.user.Some? ==> (r.Ok? <==> OwnsVideo(db, ctx.user.value.id, videoId))
    ensures ctx.user.Some? && r.Err? ==> r.error == OwnerMismatchVideo
    ensures r.Ok? ==> r.value == db.RenderedVideoByVideoId(videoId)
  {
    match RequireUser(ctx)
    case Err(e) => Err(Denied(e))
    case Ok(authed) =>
      match VideoGuard(db, authed.user.id, videoId)
      case Err(e) => Err(e)
      case Ok(_) => Ok(db.RenderedVideoByVideoId(videoId))
  }

  // ---------------------------------------------------------------------------
  // tasks
  // ---------------------------------------------------------------------------

  function TasksList<R>(db: Database, ctx: Ctx<R>): (r: Result<set<Task>, ApiError>)
    reads db
    ensures r.Err? <==> ctx.user.None?
    ensures r.Err? ==> r.error == NotSignedIn
    ensures r.Ok? ==> forall t :: t in r.value <==>
              db.available && t in db.tasks.Values && t.userId == ctx.user.value.id
  {
    match RequireUser(ctx)
    case Err(e) => Err(Denied(e))
    case Ok(authed) => Ok(db.UserTasks(authed.user.id))
  }

  function TasksGet<R>(db: Database, ctx: Ctx<R>, id: int): (r: Result<Task, ApiError>)
    reads db
    requires db.Valid()
    ensures ctx.user.None? ==> r == Err(NotSignedIn)
    ensures ctx.user.Some? ==> (r.Ok? <==> db.available && id in db.tasks && db.tasks[id].userId == ctx.user.value.id)
    ensures ctx.user.Some? && r.Err? ==> r.error == OwnerMismatchTask
    ensures r.Ok? ==> r.value == db.tasks[id]
  {
    match RequireUser(ctx)
    case Err(e) => Err(Denied(e))
    case Ok(authed) =>
      var task := db.TaskById(id);
      if task.None? || task.value.userId != authed.user.id then Err(OwnerMismatchTask) else Ok(task.value)
  }

  /** The task tasks.create asks for: status defaults to `todo`, priority to medium; no video, no type. */
  function RequestedTask(title: string, description: Option<string>, status: Option<LegacyStatus>,
                         priority: Option<Priority>): (data: NewTask)
    ensures data.title == title && data.description == description
    ensures data.status == Some(LegacyStatusName(OrElse(status, Todo)))
    ensures data.priority == Some(OrElse(priority, Medium))
    ensures data.videoId.None? && data.taskType.None? && data.progress.None?
  {
    NewTask(None, None, title, description, Some(LegacyStatusName(OrElse(status, Todo))),
            Some(OrElse(priority, Medium)), None)
  }

  /**
    * tasks.create. The due date is validated and then dropped, as is the
    * `completed` flag: neither is a column of the task table.
    */
  method TasksCreate<R>(db: Database, ctx: Ctx<R>, title: string, description: Option<string>,
                        status: Option<LegacyStatus>, priority: Option<Priority>, dueDate: Option<int>, now: int)
    returns (r: Result<int, ApiError>)
    requires db.Valid()
    modifies db
    ensures db.Valid()
    ensures ctx.user.None? ==> r == Err(NotSignedIn)
    ensures ctx.user.Some? && !NonEmpty(title) ==> r == Err(InvalidInput({"title"}))
    ensures ctx.user.Some? && NonEmpty(title) && !old(db.available) ==> r == Err(Failed(Unavailable))
    ensures r.Err? ==> db.State() == old(db.State())
    ensures r.Ok? <==> ctx.user.Some? && NonEmpty(title) && old(db.available)
    ensures r.Ok? ==> r.value == old(db.nextTaskId) && db.State() == old(db.State()).(
              tasks := old(db.tasks)[r.value := InsertedTask(r.value, ctx.user.value.id,
                                                  RequestedTask(title, description, status, priority), now)],
              nextTaskId := r.value + 1)
    ensures r.Ok? ==> (TaskFitsMysql(db.tasks[r.value]) <==> |title| <= TaskTitleMaxLength)
    ensures r.Ok? && priority.None? ==> db.tasks[r.value].priority == Medium
    ensures r.Ok? && status.None? ==> db.tasks[r.value].status == "todo"
    ensures r.Ok? ==>
              var t := db.tasks[r.value];
              && t.userId == ctx.user.value.id && t.title == title && t.description == description
              && (priority.Some? ==> t.priority == priority.value)
              && (status.Some? ==> t.status == LegacyStatusName(status.value))
              && t.progress == DefaultProgress
              && t.videoId.None? && t.taskType.None? && !TaskMeetsNotNull(t)
  {
    var guard := RequireUser(ctx);
    if guard.Err? {
      return Err(Denied(guard.error));
    }
    if !NonEmpty(title) {
      return Err(InvalidInput({"title"}));
    }
    var created := db.CreateTask(guard.value.user.id, RequestedTask(title, description, status, priority), now);
    r := if created.Err? then Err(Failed(created.error)) else Ok(created.value);
  }

  /** The patch tasks.update hands to the store; `completed` and the due date are not columns. */
  function RequestedTaskPatch(title: Supplied<string>, description: Supplied<string>,
                              status: Supplied<LegacyStatus>, priority: Supplied<Priority>): (p: TaskPatch)
    ensures p.title == title && p.priority == priority
    ensures p.description.Given? <==> description.Given?
    ensures description.Given? ==> p.description.value == Some(description.value)
    ensures p.status.Given? <==> status.Given?
    ensures status.Given? ==> p.status.value == LegacyStatusName(status.value)
    ensures p.(title := Omitted, description := Omitted, status := Omitted, priority := Omitted) == NoTaskChange
  {
    NoTaskChange.(title := title,
                  description := if description.Given? then Given(Some(description.value)) else Omitted,
                  status := if status.Given? then Given(LegacyStatusName(status.value)) else Omitted,
                  priority := priority)
  }

  method TasksUpdate<R>(db: Database, ctx: Ctx<R>, id: int, title: Supplied<string>,
                        description: Supplied<string>, status: Supplied<LegacyStatus>,
                        priority: Supplied<Priority>, completed: Supplied<bool>, dueDate: Supplied<int>, now: int)
    returns (r: Outcome<ApiError>)
    requires db.Valid()
    modifies db
    ensures db.Valid()
    ensures ctx.user.None? ==> r == Fail(NotSignedIn)
    ensures ctx.user.Some? ==> r == (if !old(db.available) then Fail(Failed(Unavailable))
                                     else if id !in old(db.tasks) || old(db.tasks)[id].userId != ctx.user.value.id
                                     then Fail(OwnerMismatchTask)
                                     else Pass)
    ensures r.Fail? ==> db.State() == old(db.State())
    ensures r.Pass? ==> db.State() == old(db.State()).(tasks := old(db.tasks)[id :=
              PatchedTask(old(db.tasks)[id], RequestedTaskPatch(title, description, status, priority),
                          db.Refreshed(old(db.tasks)[id].updatedAt, now))])
    ensures r.Pass? ==>
              var (t, w) := (old(db.tasks)[id], db.tasks[id]);
              && w.videoId == t.videoId && w.taskType == t.taskType && w.progress == t.progress
              && w.createdAt == t.createdAt
              && (status.Given? ==> w.status == LegacyStatusName(status.value))
              && (status.Omitted? ==> w.status == t.status)
  {
    var guard := RequireUser(ctx);
    if guard.Err? {
      return Fail(Denied(guard.error));
    }
    var outcome := db.UpdateTask(id, guard.value.user.id, RequestedTaskPatch(title, description, status, priority), now);
    r := if outcome.Fail? then Fail(Failed(outcome.error)) else Pass;
  }

  method TasksDelete<R>(db: Database, ctx: Ctx<R>, id: int) returns (r: Outcome<ApiError>)
    requires db.Valid()
    modifies db
    ensures db.Valid()
    ensures ctx.user.None? ==> r == Fail(NotSignedIn)
    ensures ctx.user.Some? ==> r == (if !old(db.available) then Fail(Failed(Unavailable))
                                     else if id !in old(db.tasks) || old(db.tasks)[id].userId != ctx.user.value.id
                                     then Fail(OwnerMismatchTask)
                                     else Pass)
    ensures r.Fail? ==> db.State() == old(db.State())
    ensures r.Pass? ==> db.State() == old(db.State()).(tasks := old(db.tasks) - {id})
  {
    var guard := RequireUser(ctx);
    if guard.Err? {
      return Fail(Denied(guard.error));
    }
    var outcome := db.DeleteTask(id, guard.value.user.id);
    r := if outcome.Fail? then Fail(Failed(outcome.error)) else Pass;
  }

  // ---------------------------------------------------------------------------
  // comments
  // ---------------------------------------------------------------------------

  /** comments.list: any signed-in user sees the comments of any task. */
  function CommentsList<R>(db: Database, ctx: Ctx<R>, taskId: int): (r: Result<set<Comment>, ApiError>)
    reads db
    ensures r.Err? <==> ctx.user.None?
    ensures r.Err? ==> r.error == NotSignedIn
    ensures r.Ok? ==> forall c :: c in r.value <==> db.available && c in db.comments.Values && c.taskId == taskId
  {
    match RequireUser(ctx)
    case Err(e) => Err(Denied(e))
    case Ok(_) => Ok(db.TaskComments(taskId))
  }

  /** comments.create: non-empty content; the task is neither loaded nor checked. */
  method CommentsCreate<R>(db: Database, ctx: Ctx<R>, taskId: int, content: string, now: int)
    returns (r: Result<int, ApiError>)
    requires db.Valid()
    modifies db
    ensures db.Valid()
    ensures ctx.user.None? ==> r == Err(NotSignedIn)
    ensures ctx.user.Some? && !NonEmpty(content) ==> r == Err(InvalidInput({"content"}))
    ensures ctx.user.Some? && NonEmpty(content) && !old(db.available) ==> r == Err(Failed(Unavailable))
    ensures r.Err? ==> db.State() == old(db.State())
    ensures r.Ok? <==> ctx.user.Some? && NonEmpty(content) && old(db.available)
    ensures r.Ok? ==> r.value == old(db.nextCommentId) && db.State() == old(db.State()).(
              comments := old(db.comments)[r.value := InsertedComment(r.value, taskId, ctx.user.value.id, content, now)],
              nextCommentId := r.value + 1)
  {
    var guard := RequireUser(ctx);
    if guard.Err? {
      return Err(Denied(guard.error));
    }
    if !NonEmpty(content) {
      return Err(InvalidInput({"content"}));
    }
    var created := db.CreateComment(taskId, guard.value.user.id, content, now);
    r := if created.Err? then Err(Failed(created.error)) else Ok(created.value);
  }

  /** comments.delete: only the store's author check stands between a caller and a comment. */
  method CommentsDelete<R>(db: Database, ctx: Ctx<R>, id: int) returns (r: Outcome<ApiError>)
    requires db.Valid()
    modifies db
    ensures db.Valid()
    ensures ctx.user.None? ==> r == Fail(NotSignedIn)
    ensures ctx.user.Some? ==> r == (if !old(db.available) then Fail(Failed(Unavailable))
                                     else if id !in old(db.comments) || old(db.comments)[id].userId != ctx.user.value.id
                                     then Fail(Failed(NotFoundOrUnauthorized(CommentEntity)))
                                     else Pass)
    ensures r.Fail? ==> db.State() == old(db.State())
    ensures r.Pass? ==> db.State() == old(db.State()).(comments := old(db.comments) - {id})
  {
    var guard := RequireUser(ctx);
    if guard.Err? {
      return Fail(Denied(guard.error));
    }
    var outcome := db.DeleteComment(id, guard.value.user.id);
    r := if outcome.Fail? then Fail(Failed(outcome.error)) else Pass;
  }

  // ---------------------------------------------------------------------------
  // Properties across the layers
  // ---------------------------------------------------------------------------

  /** The video row submit asks for fits the MySQL columns whenever the URL itself fits. */
  lemma SubmittedVideoFitsMysql(id: int, userId: int, url: string, now: int)
    requires |url| <= UrlMaxLength
    ensures VideoFitsMysql(InsertedVideo(id, userId, SubmittedVideo(url), now))
  {
  }

  /** A dubbing created through the router fits the language column; the voice profile is not capped. */
  lemma RouterDubbingFitsMysql(id: int, videoId: int, targetLanguage: string, voiceProfile: string, now: int)
    requires LanguageCode.MatchesPattern(targetLanguage)
    ensures |InsertedDubbing(id, NewDubbing(videoId, PlaceholderTranscriptId, targetLanguage, Some(voiceProfile),
                                            Some(Pending)), now).targetLanguage| <= LanguageMaxLength
    ensures var d := InsertedDubbing(id, NewDubbing(videoId, PlaceholderTranscriptId, targetLanguage,
                                     Some(voiceProfile), Some(Pending)), now);
            DubbingFitsMysql(d) <==> |voiceProfile| <= VoiceProfileMaxLength
  {
    LanguageCode.AcceptedCodeFitsColumn(targetLanguage);
  }

  // ---------------------------------------------------------------------------
  // Scenarios from the procedure tests
  // ---------------------------------------------------------------------------

  /** Another user can neither read nor delete a task, and the task survives the attempt. */
  method ForeignTaskIsProtected(owner: Principal, intruder: Principal, now: int)
    returns (readByIntruder: Result<Task, ApiError>, deleteByIntruder: Outcome<ApiError>, stillThere: bool)
    requires owner.id != intruder.id
    ensures readByIntruder == Err(OwnerMismatchTask)
    ensures deleteByIntruder == Fail(OwnerMismatchTask)
    ensures stillThere
  {
    var db := new Database(Sqlite, true);
    var created := TasksCreate(db, Ctx(Some(owner), ()), "Test Task", None, None, None, None, now);
    var id := created.value;
    readByIntruder := TasksGet(db, Ctx(Some(intruder), ()), id);
    deleteByIntruder := TasksDelete(db, Ctx(Some(intruder), ()), id);
    stillThere := TasksGet(db, Ctx(Some(owner), ()), id).Ok?;
  }

  /**
    * The title validator and the MySQL column disagree: a 256-character title
    * is accepted and stored as a row that does not fit the column.
    */
  method TaskTitleCapNotValidated(user: Principal, now: int)
    returns (r: Result<int, ApiError>, fits: bool)
    ensures r.Ok?
    ensures !fits
  {
    var db := new Database(Mysql, true);
    var title := seq(TaskTitleMaxLength + 1, _ => 'a');
    r := TasksCreate(db, Ctx(Some(user), ()), title, None, None, None, None, now);
    fits := TaskFitsMysql(db.tasks[r.value]);
  }

  /** An empty comment is rejected and nothing is stored. */
  method EmptyCommentIsRejected(user: Principal, taskId: int, now: int)
    returns (r: Result<int, ApiError>, stored: nat)
    ensures r == Err(InvalidInput({"content"}))
    ensures stored == 0
  {
    var db := new Database(Sqlite, true);
    r := CommentsCreate(db, Ctx(Some(user), ()), taskId, "", now);
    stored := |db.comments|;
  }

  /** Submitting a YouTube URL files a pending video classified as youtube and an unlinked capture task. */
  method SubmitYoutubeVideo(user: Principal, isUrl: string -> bool, now: int)
    returns (video: Video, task: Task)
    requires isUrl("https://youtube.com/watch?v=test123")
    ensures video.userId == user.id && video.status == Pending && video.sourcePlatform == Some("youtube")
    ensures task.videoId.None? && task.taskType == Some(CaptureTask)
    ensures task.title == "Video Capture" && task.userId == user.id
  {
    var db := new Database(Sqlite, true);
    var url := "https://youtube.com/watch?v=test123";
    Platform.YoutubeUrlIsYoutube(url);
    LanguageCode.PatternExamples();
    var r := VideosSubmit(db, Ctx(Some(user), ()), url, "en-US", None, isUrl, now);
    video := db.videos[r.value];
    task := db.tasks[1];
  }
}
