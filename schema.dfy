/**
  * The relational schema: closed enumerations, defaults, row records and the
  * MySQL column caps. Both dialects declare the same tables with the same enum
  * lists and defaults, so one set of datatypes serves both; the caps come from
  * the MySQL twin only (the SQLite tables use uncapped `text`).
  */
module Schema {
  import opened Wrappers

  // ---------------------------------------------------------------------------
  // Closed enumerations (text columns declared with an `enum` list)
  // ---------------------------------------------------------------------------

  datatype Role = UserRole | AdminRole

  /** Lifecycle name of videos, dubbing, rendered videos and tasks. */
  datatype Status = Pending | Processing | Completed | Error | Cancelled

  /** Transcripts use the same labels except `cancelled`. */
  type TranscriptStatus = s: Status | s != Cancelled witness Pending

  datatype Priority = Low | Medium | High

  datatype TaskType = CaptureTask | TranscriptionTask | DubbingTask | RenderingTask | ExportTask

  datatype RenderType = RenderDubbing | RenderSubtitles | RenderBoth

  /** The enum lists as the schema spells them, in declaration order. */
  const RoleLabels: seq<string> := ["user", "admin"]
  const StatusLabels: seq<string> := ["pending", "processing", "completed", "error", "cancelled"]
  const TranscriptStatusLabels: seq<string> := ["pending", "processing", "completed", "error"]
  const PriorityLabels: seq<string> := ["low", "medium", "high"]
  const TaskTypeLabels: seq<string> := ["capture", "transcription", "dubbing", "rendering", "export"]
  const RenderTypeLabels: seq<string> := ["dubbing", "subtitles", "both"]

  /** Column defaults (`.default(...)`). */
  const DefaultRole: Role := UserRole
  const DefaultStatus: Status := Pending
  const DefaultPriority: Priority := Medium
  const DefaultProgress: int := 0

  // ---------------------------------------------------------------------------
  // Labels and their parsers: each text column holds exactly the labels of its list
  // ---------------------------------------------------------------------------

  function ParseRole(name: string): (r: Option<Role>)
    ensures r.Some? <==> name in RoleLabels
  {
    if name == "user" then Some(UserRole)
    else if name == "admin" then Some(AdminRole)
    else None
  }

  function RoleName(role: Role): (name: string)
    ensures name in RoleLabels && ParseRole(name) == Some(role)
  {
    match role
    case UserRole => "user"
    case AdminRole => "admin"
  }

  function ParseStatus(name: string): (r: Option<Status>)
    ensures r.Some? <==> name in StatusLabels
  {
    if name == "pending" then Some(Pending)
    else if name == "processing" then Some(Processing)
    else if name == "completed" then Some(Completed)
    else if name == "error" then Some(Error)
    else if name == "cancelled" then Some(Cancelled)
    else None
  }

  function StatusName(status: Status): (name: string)
    ensures name in StatusLabels && ParseStatus(name) == Some(status)
  {
    match status
    case Pending => "pending"
    case Processing => "processing"
    case Completed => "completed"
    case Error => "error"
    case Cancelled => "cancelled"
  }

  /** The transcript column accepts the shared labels minus `cancelled`. */
  function ParseTranscriptStatus(name: string): (r: Option<TranscriptStatus>)
    ensures r.Some? <==> name in TranscriptStatusLabels
    ensures r.Some? ==> ParseStatus(name) == Some(r.value)
  {
    match ParseStatus(name)
    case Some(s) => if s == Cancelled then None else Some(s)
    case None => None
  }

  function ParsePriority(name: string): (r: Option<Priority>)
    ensures r.Some? <==> name in PriorityLabels
  {
    if name == "low" then Some(Low)
    else if name == "medium" then Some(Medium)
    else if name == "high" then Some(High)
    else None
  }

  function PriorityName(priority: Priority): (name: string)
    ensures name in PriorityLabels && ParsePriority(name) == Some(priority)
  {
    match priority
    case Low => "low"
    case Medium => "medium"
    case High => "high"
  }

  function ParseTaskType(name: string): (r: Option<TaskType>)
    ensures r.Some? <==> name in TaskTypeLabels
  {
    if name == "capture" then Some(CaptureTask)
    else if name == "transcription" then Some(TranscriptionTask)
    else if name == "dubbing" then Some(DubbingTask)
    else if name == "rendering" then Some(RenderingTask)
    else if name == "export" then Some(ExportTask)
    else None
  }

  function TaskTypeName(t: TaskType): (name: string)
    ensures name in TaskTypeLabels && ParseTaskType(name) == Some(t)
  {
    match t
    case CaptureTask => "capture"
    case TranscriptionTask => "transcription"
    case DubbingTask => "dubbing"
    case RenderingTask => "rendering"
    case ExportTask => "export"
  }

  function ParseRenderType(name: string): (r: Option<RenderType>)
    ensures r.Some? <==> name in RenderTypeLabels
  {
    if name == "dubbing" then Some(RenderDubbing)
    else if name == "subtitles" then Some(RenderSubtitles)
    else if name == "both" then Some(RenderBoth)
    else None
  }

  function RenderTypeName(t: RenderType): (name: string)
    ensures name in RenderTypeLabels && ParseRenderType(name) == Some(t)
  {
    match t
    case RenderDubbing => "dubbing"
    case RenderSubtitles => "subtitles"
    case RenderBoth => "both"
  }

  /** A transcript can never be stored as `cancelled`, which every other lifecycle column accepts. */
  lemma TranscriptStatusExcludesCancelled()
    ensures ParseTranscriptStatus(StatusName(Cancelled)) == None
    ensures ParseStatus(StatusName(Cancelled)) == Some(Cancelled)
  {
    assert StatusName(Cancelled) !in TranscriptStatusLabels;
  }

  // ---------------------------------------------------------------------------
  // Rows. Timestamps are milliseconds. Columns no modelled operation writes
  // (durations, file sizes, JSON blobs, processing times, task progress
  // messages, error details and start/finish times) are not represented.
  // ---------------------------------------------------------------------------

  datatype User = User(
    id: int, openId: string, name: Option<string>, email: Option<string>,
    loginMethod: Option<string>, role: Role,
    createdAt: int, updatedAt: int, lastSignedIn: int)

  /** `filePath` is declared NOT NULL but `videos.submit` leaves it out, so the model keeps it optional. */
  datatype Video = Video(
    id: int, userId: int, url: string, title: Option<string>, filePath: Option<string>,
    status: Status, sourcePlatform: Option<string>, language: Option<string>,
    thumbnailUrl: Option<string>, createdAt: int, updatedAt: int)

  /** `content` is declared NOT NULL but `transcription.create` leaves it out. */
  datatype Transcript = Transcript(
    id: int, videoId: int, language: string, content: Option<string>,
    status: TranscriptStatus, createdAt: int, updatedAt: int)

  datatype Dubbing = Dubbing(
    id: int, videoId: int, transcriptId: int, targetLanguage: string,
    voiceProfile: Option<string>, outputUrl: Option<string>, status: Status,
    createdAt: int, updatedAt: int)

  datatype RenderedVideo = RenderedVideo(
    id: int, videoId: int, dubbingId: Option<int>, targetLanguage: Option<string>,
    outputUrl: Option<string>, renderType: RenderType, status: Status,
    createdAt: int, updatedAt: int)

  /**
    * `videoId` and `taskType` are declared NOT NULL but `tasks.create` leaves
    * them out; `status` is the raw text written, since `tasks.create` writes
    * labels (`todo`, ...) that are not in the column's enum list.
    */
  datatype Task = Task(
    id: int, userId: int, videoId: Option<int>, taskType: Option<TaskType>,
    title: string, description: Option<string>, status: string,
    priority: Priority, progress: int, createdAt: int, updatedAt: int)

  datatype Comment = Comment(
    id: int, taskId: int, userId: int, content: string, createdAt: int, updatedAt: int)

  // ---------------------------------------------------------------------------
  // Insert payloads: None stands for a key left out, which takes the column default
  // ---------------------------------------------------------------------------

  datatype NewVideo = NewVideo(
    url: string, title: Option<string>, filePath: Option<string>, status: Option<Status>,
    sourcePlatform: Option<string>, language: Option<string>, thumbnailUrl: Option<string>)

  datatype NewTranscript = NewTranscript(
    videoId: int, language: string, content: Option<string>, status: Option<TranscriptStatus>)

  datatype NewDubbing = NewDubbing(
    videoId: int, transcriptId: int, targetLanguage: string, voiceProfile: Option<string>,
    status: Option<Status>)

  datatype NewRenderedVideo = NewRenderedVideo(
    videoId: int, dubbingId: Option<int>, targetLanguage: Option<string>,
    renderType: RenderType, status: Option<Status>)

  datatype NewTask = NewTask(
    videoId: Option<int>, taskType: Option<TaskType>, title: string,
    description: Option<string>, status: Option<string>, priority: Option<Priority>,
    progress: Option<int>)

  /**
    * Update payloads: every column but the key and the owner may be given, and
    * only the keys a caller gives are written.
    */
  datatype VideoPatch = VideoPatch(
    url: Supplied<string>, title: Supplied<Option<string>>, filePath: Supplied<Option<string>>,
    status: Supplied<Status>, sourcePlatform: Supplied<Option<string>>, language: Supplied<Option<string>>,
    thumbnailUrl: Supplied<Option<string>>, createdAt: Supplied<int>, updatedAt: Supplied<int>)

  const NoVideoChange: VideoPatch :=
    VideoPatch(Omitted, Omitted, Omitted, Omitted, Omitted, Omitted, Omitted, Omitted, Omitted)

  datatype TaskPatch = TaskPatch(
    videoId: Supplied<Option<int>>, taskType: Supplied<Option<TaskType>>, title: Supplied<string>,
    description: Supplied<Option<string>>, status: Supplied<string>, priority: Supplied<Priority>,
    progress: Supplied<int>, createdAt: Supplied<int>, updatedAt: Supplied<int>)

  const NoTaskChange: TaskPatch :=
    TaskPatch(Omitted, Omitted, Omitted, Omitted, Omitted, Omitted, Omitted, Omitted, Omitted)

  function Patched<T>(current: T, s: Supplied<T>): T
  {
    if s.Given? then s.value else current
  }

  // ---------------------------------------------------------------------------
  // Row construction: defaults, owner stamp and creation time
  // ---------------------------------------------------------------------------

  function InsertedVideo(id: int, userId: int, data: NewVideo, now: int): (v: Video)
    ensures v.id == id && v.userId == userId && v.url == data.url
    ensures v.title == data.title && v.filePath == data.filePath && v.sourcePlatform == data.sourcePlatform
    ensures v.language == data.language && v.thumbnailUrl == data.thumbnailUrl
    ensures data.status.Some? ==> v.status == data.status.value
    ensures data.status.None? ==> v.status == DefaultStatus
    ensures v.createdAt == now && v.updatedAt == now
  {
    Video(id, userId, data.url, data.title, data.filePath, OrElse(data.status, DefaultStatus),
          data.sourcePlatform, data.language, data.thumbnailUrl, now, now)
  }

  function InsertedTranscript(id: int, data: NewTranscript, now: int): (t: Transcript)
    ensures t.id == id && t.videoId == data.videoId && t.language == data.language
    ensures t.content == data.content
    ensures data.status.Some? ==> t.status == data.status.value
    ensures data.status.None? ==> t.status == DefaultStatus
    ensures t.createdAt == now && t.updatedAt == now
  {
    Transcript(id, data.videoId, data.language, data.content,
               if data.status.Some? then data.status.value else DefaultStatus, now, now)
  }

  function InsertedDubbing(id: int, data: NewDubbing, now: int): (d: Dubbing)
    ensures d.id == id && d.videoId == data.videoId && d.transcriptId == data.transcriptId
    ensures d.targetLanguage == data.targetLanguage && d.voiceProfile == data.voiceProfile
    ensures d.outputUrl.None?
    ensures data.status.Some? ==> d.status == data.status.value
    ensures data.status.None? ==> d.status == DefaultStatus
    ensures d.createdAt == now && d.updatedAt == now
  {
    Dubbing(id, data.videoId, data.transcriptId, data.targetLanguage, data.voiceProfile, None,
            OrElse(data.status, DefaultStatus), now, now)
  }

  function InsertedRenderedVideo(id: int, data: NewRenderedVideo, now: int): (r: RenderedVideo)
    ensures r.id == id && r.videoId == data.videoId && r.renderType == data.renderType
    ensures r.dubbingId == data.dubbingId && r.targetLanguage == data.targetLanguage
    ensures r.outputUrl.None?
    ensures data.status.Some? ==> r.status == data.status.value
    ensures data.status.None? ==> r.status == DefaultStatus
    ensures r.createdAt == now && r.updatedAt == now
  {
    RenderedVideo(id, data.videoId, data.dubbingId, data.targetLanguage, None, data.renderType,
                  OrElse(data.status, DefaultStatus), now, now)
  }

  function InsertedTask(id: int, userId: int, data: NewTask, now: int): (t: Task)
    ensures t.id == id && t.userId == userId && t.title == data.title
    ensures t.videoId == data.videoId && t.taskType == data.taskType && t.description == data.description
    ensures data.status.Some? ==> t.status == data.status.value
    ensures data.status.None? ==> t.status == StatusName(DefaultStatus)
    ensures data.priority.Some? ==> t.priority == data.priority.value
    ensures data.priority.None? ==> t.priority == DefaultPriority
    ensures data.progress.Some? ==> t.progress == data.progress.value
    ensures data.progress.None? ==> t.progress == DefaultProgress
    ensures t.createdAt == now && t.updatedAt == now
  {
    Task(id, userId, data.videoId, data.taskType, data.title, data.description,
         OrElse(data.status, StatusName(DefaultStatus)), OrElse(data.priority, DefaultPriority),
         OrElse(data.progress, DefaultProgress), now, now)
  }

  function InsertedComment(id: int, taskId: int, userId: int, content: string, now: int): (c: Comment)
    ensures c.id == id && c.taskId == taskId && c.userId == userId && c.content == content
    ensures c.createdAt == now && c.updatedAt == now
  {
    Comment(id, taskId, userId, content, now, now)
  }

  /**
    * An update rewrites the given columns only; the key and the owner are not
    * in the payload and stay. `refreshed` is what `updatedAt` becomes when the
    * payload does not give it (the old value, or the time of the update on MySQL).
    */
  function PatchedVideo(v: Video, p: VideoPatch, refreshed: int): (w: Video)
    ensures w.id == v.id && w.userId == v.userId
    ensures p.url.Omitted? ==> w.url == v.url
    ensures p.title.Omitted? ==> w.title == v.title
    ensures p.filePath.Omitted? ==> w.filePath == v.filePath
    ensures p.status.Omitted? ==> w.status == v.status
    ensures p.sourcePlatform.Omitted? ==> w.sourcePlatform == v.sourcePlatform
    ensures p.language.Omitted? ==> w.language == v.language
    ensures p.thumbnailUrl.Omitted? ==> w.thumbnailUrl == v.thumbnailUrl
    ensures p.createdAt.Omitted? ==> w.createdAt == v.createdAt
    ensures p.updatedAt.Omitted? ==> w.updatedAt == refreshed
    ensures p == NoVideoChange ==> w == v.(updatedAt := refreshed)
    ensures p.url.Given? ==> w.url == p.url.value
    ensures p.title.Given? ==> w.title == p.title.value
    ensures p.filePath.Given? ==> w.filePath == p.filePath.value
    ensures p.status.Given? ==> w.status == p.status.value
    ensures p.sourcePlatform.Given? ==> w.sourcePlatform == p.sourcePlatform.value
    ensures p.language.Given? ==> w.language == p.language.value
    ensures p.thumbnailUrl.Given? ==> w.thumbnailUrl == p.thumbnailUrl.value
    ensures p.createdAt.Given? ==> w.createdAt == p.createdAt.value
    ensures p.updatedAt.Given? ==> w.updatedAt == p.updatedAt.value
  {
    v.(url := Patched(v.url, p.url), title := Patched(v.title, p.title),
       filePath := Patched(v.filePath, p.filePath), status := Patched(v.status, p.status),
       sourcePlatform := Patched(v.sourcePlatform, p.sourcePlatform),
       language := Patched(v.language, p.language), thumbnailUrl := Patched(v.thumbnailUrl, p.thumbnailUrl),
       createdAt := Patched(v.createdAt, p.createdAt), updatedAt := Patched(refreshed, p.updatedAt))
  }

  function PatchedTask(t: Task, p: TaskPatch, refreshed: int): (w: Task)
    ensures w.id == t.id && w.userId == t.userId
    ensures p.videoId.Omitted? ==> w.videoId == t.videoId
    ensures p.taskType.Omitted? ==> w.taskType == t.taskType
    ensures p.title.Omitted? ==> w.title == t.title
    ensures p.description.Omitted? ==> w.description == t.description
    ensures p.status.Omitted? ==> w.status == t.status
    ensures p.priority.Omitted? ==> w.priority == t.priority
    ensures p.progress.Omitted? ==> w.progress == t.progress
    ensures p.createdAt.Omitted? ==> w.createdAt == t.createdAt
    ensures p.updatedAt.Omitted? ==> w.updatedAt == refreshed
    ensures p == NoTaskChange ==> w == t.(updatedAt := refreshed)
    ensures p.videoId.Given? ==> w.videoId == p.videoId.value
    ensures p.taskType.Given? ==> w.taskType == p.taskType.value
    ensures p.title.Given? ==> w.title == p.title.value
    ensures p.description.Given? ==> w.description == p.description.value
    ensures p.status.Given? ==> w.status == p.status.value
    ensures p.priority.Given? ==> w.priority == p.priority.value
    ensures p.progress.Given? ==> w.progress == p.progress.value
    ensures p.createdAt.Given? ==> w.createdAt == p.createdAt.value
    ensures p.updatedAt.Given? ==> w.updatedAt == p.updatedAt.value
  {
    t.(videoId := Patched(t.videoId, p.videoId), taskType := Patched(t.taskType, p.taskType),
       title := Patched(t.title, p.title), description := Patched(t.description, p.description),
       status := Patched(t.status, p.status), priority := Patched(t.priority, p.priority),
       progress := Patched(t.progress, p.progress), createdAt := Patched(t.createdAt, p.createdAt),
       updatedAt := Patched(refreshed, p.updatedAt))
  }

  // ---------------------------------------------------------------------------
  // MySQL column caps (varchar lengths)
  // ---------------------------------------------------------------------------

  const OpenIdMaxLength: nat := 64
  /** url, title, filePath, thumbnailUrl, outputUrl and outputFilePath. */
  const UrlMaxLength: nat := 500
  const SourcePlatformMaxLength: nat := 50
  const LanguageMaxLength: nat := 10
  const VoiceProfileMaxLength: nat := 100
  const TaskTitleMaxLength: nat := 255

  predicate FitsOpt(s: Option<string>, cap: nat)
  {
    s.None? || |s.value| <= cap
  }

  predicate VideoFitsMysql(v: Video)
  {
    |v.url| <= UrlMaxLength && FitsOpt(v.title, UrlMaxLength) && FitsOpt(v.filePath, UrlMaxLength)
    && FitsOpt(v.sourcePlatform, SourcePlatformMaxLength) && FitsOpt(v.language, LanguageMaxLength)
    && FitsOpt(v.thumbnailUrl, UrlMaxLength)
  }

  predicate TranscriptFitsMysql(t: Transcript)
  {
    |t.language| <= LanguageMaxLength
  }

  predicate DubbingFitsMysql(d: Dubbing)
  {
    |d.targetLanguage| <= LanguageMaxLength && FitsOpt(d.voiceProfile, VoiceProfileMaxLength)
    && FitsOpt(d.outputUrl, UrlMaxLength)
  }

  predicate TaskFitsMysql(t: Task)
  {
    |t.title| <= TaskTitleMaxLength
  }

  // ---------------------------------------------------------------------------
  // NOT NULL columns the row types keep optional. SQLite checks NOT NULL on
  // every insert and refuses a row that leaves one of these columns null.
  // ---------------------------------------------------------------------------

  predicate VideoMeetsNotNull(v: Video)
  {
    v.filePath.Some?
  }

  predicate TranscriptMeetsNotNull(t: Transcript)
  {
    t.content.Some?
  }

  predicate TaskMeetsNotNull(t: Task)
  {
    t.videoId.Some? && t.taskType.Some?
  }
}
