/**
  * The entity store: one table per entity, keyed by autoincrement id, with the
  * owner-checked update and delete operations. The SQL engine is abstracted
  * into maps; whether the database handle could be opened is the flag
  * `available`. Times (`now`) and the configured owner openId are parameters.
  */
module Store {
  import opened Wrappers
  import opened Schema
  import Tables

  /** Which schema twin the store runs on; only MySQL refreshes `updatedAt` on update. */
  datatype Dialect = Sqlite | Mysql

  datatype Entity = VideoEntity | TaskEntity | CommentEntity

  /** The errors the store throws. */
  datatype DbError =
    | Unavailable                              // "Database not available"
    | OpenIdRequired                           // "User openId is required for upsert"
    | NotFoundOrUnauthorized(entity: Entity)   // "<Entity> not found or unauthorized"

  // ---------------------------------------------------------------------------
  // upsertUser: the `values` and `updateSet` dictionaries
  // ---------------------------------------------------------------------------

  /** The partial user a caller passes in; text keys may be left out or given as null. */
  datatype InsertUser = InsertUser(
    openId: string, name: Supplied<Option<string>>, email: Supplied<Option<string>>,
    loginMethod: Supplied<Option<string>>, role: Supplied<Role>, lastSignedIn: Supplied<int>)

  /** A dictionary with the keys upsertUser may set; Omitted means the key is absent. */
  datatype UserAssignment = UserAssignment(
    name: Supplied<Option<string>>, email: Supplied<Option<string>>,
    loginMethod: Supplied<Option<string>>, lastSignedIn: Supplied<int>, role: Supplied<Role>)

  const NoAssignment: UserAssignment := UserAssignment(Omitted, Omitted, Omitted, Omitted, Omitted)

  datatype TextField = NameField | EmailField | LoginMethodField

  /** The nullable text keys, in the order the source visits them. */
  const TextFields: seq<TextField> := [NameField, EmailField, LoginMethodField]

  function SuppliedText(user: InsertUser, f: TextField): Supplied<Option<string>>
  {
    match f
    case NameField => user.name
    case EmailField => user.email
    case LoginMethodField => user.loginMethod
  }

  function AssignedText(a: UserAssignment, f: TextField): Supplied<Option<string>>
  {
    match f
    case NameField => a.name
    case EmailField => a.email
    case LoginMethodField => a.loginMethod
  }

  function AssignText(a: UserAssignment, f: TextField, v: Supplied<Option<string>>): UserAssignment
  {
    match f
    case NameField => a.(name := v)
    case EmailField => a.(email := v)
    case LoginMethodField => a.(loginMethod := v)
  }

  /** An explicit role wins; otherwise the configured owner is made admin; otherwise no role key. */
  function RoleAssignment(user: InsertUser, ownerOpenId: string): Supplied<Role>
  {
    if user.role.Given? then user.role
    else if user.openId == ownerOpenId then Given(AdminRole)
    else Omitted
  }

  /** The values inserted when the openId is new. */
  function UpsertValues(user: InsertUser, ownerOpenId: string, now: int): (values: UserAssignment)
    ensures forall f :: AssignedText(values, f) == SuppliedText(user, f)
    ensures values.lastSignedIn == (if user.lastSignedIn.Given? then user.lastSignedIn else Given(now))
    ensures user.role.Given? ==> values.role == user.role
    ensures user.role.Omitted? ==> (values.role.Given? <==> user.openId == ownerOpenId)
    ensures user.role.Omitted? && values.role.Given? ==> values.role.value == AdminRole
  {
    UserAssignment(user.name, user.email, user.loginMethod,
                   if user.lastSignedIn.Given? then user.lastSignedIn else Given(now),
                   RoleAssignment(user, ownerOpenId))
  }

  /** The columns rewritten when the openId already exists; never an empty set. */
  function UpsertUpdateSet(user: InsertUser, ownerOpenId: string, now: int): (updateSet: UserAssignment)
    ensures updateSet != NoAssignment
    ensures forall f :: AssignedText(updateSet, f) == SuppliedText(user, f)
    ensures updateSet.role == RoleAssignment(user, ownerOpenId)
    ensures user.lastSignedIn.Given? ==> updateSet.lastSignedIn == user.lastSignedIn
    ensures updateSet.lastSignedIn == Given(now) <==>
              (user.lastSignedIn == Given(now) ||
               (user.lastSignedIn.Omitted? && UserAssignment(user.name, user.email, user.loginMethod, Omitted,
                                                            RoleAssignment(user, ownerOpenId)) == NoAssignment))
  {
    var s := UserAssignment(user.name, user.email, user.loginMethod, user.lastSignedIn,
                            RoleAssignment(user, ownerOpenId));
    if s == NoAssignment then s.(lastSignedIn := Given(now)) else s
  }

  /**
    * Builds both dictionaries step by step: the text keys one at a time, then
    * lastSignedIn, the role, the insert-time default and the never-empty fallback.
    */
  method BuildUpsertSets(user: InsertUser, ownerOpenId: string, now: int)
    returns (values: UserAssignment, updateSet: UserAssignment)
    ensures values == UpsertValues(user, ownerOpenId, now)
    ensures updateSet == UpsertUpdateSet(user, ownerOpenId, now)
  {
    values := NoAssignment;
    updateSet := NoAssignment;
    for i := 0 to |TextFields|
      invariant forall j :: 0 <= j < i ==> AssignedText(values, TextFields[j]) == SuppliedText(user, TextFields[j])
      invariant forall j :: 0 <= j < i ==> AssignedText(updateSet, TextFields[j]) == SuppliedText(user, TextFields[j])
      invariant forall j :: i <= j < |TextFields| ==> AssignedText(values, TextFields[j]).Omitted?
      invariant forall j :: i <= j < |TextFields| ==> AssignedText(updateSet, TextFields[j]).Omitted?
      invariant values.lastSignedIn.Omitted? && values.role.Omitted?
      invariant updateSet.lastSignedIn.Omitted? && updateSet.role.Omitted?
    {
      var field := TextFields[i];
      var value := SuppliedText(user, field);
      if value.Given? {
        values := AssignText(values, field, value);
        updateSet := AssignText(updateSet, field, value);
      }
    }
    assert AssignedText(values, TextFields[0]) == user.name;
    assert AssignedText(values, TextFields[1]) == user.email;
    assert AssignedText(values, TextFields[2]) == user.loginMethod;
    assert AssignedText(updateSet, TextFields[0]) == user.name;
    assert AssignedText(updateSet, TextFields[1]) == user.email;
    assert AssignedText(updateSet, TextFields[2]) == user.loginMethod;

    if user.lastSignedIn.Given? {
      values := values.(lastSignedIn := user.lastSignedIn);
      updateSet := updateSet.(lastSignedIn := user.lastSignedIn);
    }
    if user.role.Given? {
      values := values.(role := user.role);
      updateSet := updateSet.(role := user.role);
    } else if user.openId == ownerOpenId {
      values := values.(role := Given(AdminRole));
      updateSet := updateSet.(role := Given(AdminRole));
    }
    if values.lastSignedIn.Omitted? {
      values := values.(lastSignedIn := Given(now));
    }
    if updateSet == NoAssignment {
      updateSet := updateSet.(lastSignedIn := Given(now));
    }
  }

  /** An existing user after the conflict update: only the keys in the set change. */
  function UpdatedUser(u: User, updateSet: UserAssignment, updatedAt: int): (w: User)
    ensures w.id == u.id && w.openId == u.openId && w.createdAt == u.createdAt && w.updatedAt == updatedAt
    ensures updateSet.name.Given? ==> w.name == updateSet.name.value
    ensures updateSet.name.Omitted? ==> w.name == u.name
    ensures updateSet.email.Given? ==> w.email == updateSet.email.value
    ensures updateSet.email.Omitted? ==> w.email == u.email
    ensures updateSet.loginMethod.Given? ==> w.loginMethod == updateSet.loginMethod.value
    ensures updateSet.loginMethod.Omitted? ==> w.loginMethod == u.loginMethod
    ensures updateSet.lastSignedIn.Given? ==> w.lastSignedIn == updateSet.lastSignedIn.value
    ensures updateSet.lastSignedIn.Omitted? ==> w.lastSignedIn == u.lastSignedIn
    ensures updateSet.role.Given? ==> w.role == updateSet.role.value
    ensures updateSet.role.Omitted? ==> w.role == u.role
  {
    u.(name := Patched(u.name, updateSet.name), email := Patched(u.email, updateSet.email),
       loginMethod := Patched(u.loginMethod, updateSet.loginMethod),
       lastSignedIn := Patched(u.lastSignedIn, updateSet.lastSignedIn),
       role := Patched(u.role, updateSet.role), updatedAt := updatedAt)
  }

  /** A new user row: absent text keys are null, an absent role takes the column default. */
  function InsertedUser(id: int, openId: string, values: UserAssignment, now: int): (u: User)
    ensures u.id == id && u.openId == openId && u.createdAt == now && u.updatedAt == now
    ensures values.name.Given? ==> u.name == values.name.value
    ensures values.name.Omitted? ==> u.name.None?
    ensures values.email.Given? ==> u.email == values.email.value
    ensures values.email.Omitted? ==> u.email.None?
    ensures values.loginMethod.Given? ==> u.loginMethod == values.loginMethod.value
    ensures values.loginMethod.Omitted? ==> u.loginMethod.None?
    ensures values.lastSignedIn.Given? ==> u.lastSignedIn == values.lastSignedIn.value
    ensures values.lastSignedIn.Omitted? ==> u.lastSignedIn == now
    ensures values.role.Given? ==> u.role == values.role.value
    ensures values.role.Omitted? ==> u.role == DefaultRole
  {
    User(id, openId, Patched(None, values.name), Patched(None, values.email),
         Patched(None, values.loginMethod), Patched(DefaultRole, values.role), now, now,
         Patched(now, values.lastSignedIn))
  }

  // ---------------------------------------------------------------------------
  // The database
  // ---------------------------------------------------------------------------

  /** The whole abstract state of a Database, for stating what a method leaves unchanged. */
  datatype Snapshot = Snapshot(
    available: bool,
    users: map<int, User>, videos: map<int, Video>, transcripts: map<int, Transcript>,
    dubbings: map<int, Dubbing>, renderedVideos: map<int, RenderedVideo>,
    tasks: map<int, Task>, comments: map<int, Comment>,
    nextUserId: int, nextVideoId: int, nextTranscriptId: int, nextDubbingId: int,
    nextRenderedVideoId: int, nextTaskId: int, nextCommentId: int)

  class Database {
    const dialect: Dialect
    var available: bool

    var users: map<int, User>
    var videos: map<int, Video>
    var transcripts: map<int, Transcript>
    var dubbings: map<int, Dubbing>
    var renderedVideos: map<int, RenderedVideo>
    var tasks: map<int, Task>
    var comments: map<int, Comment>

    var nextUserId: int
    var nextVideoId: int
    var nextTranscriptId: int
    var nextDubbingId: int
    var nextRenderedVideoId: int
    var nextTaskId: int
    var nextCommentId: int

    ghost function State(): Snapshot
      reads this
    {
      Snapshot(available, users, videos, transcripts, dubbings, renderedVideos, tasks, comments,
               nextUserId, nextVideoId, nextTranscriptId, nextDubbingId, nextRenderedVideoId,
               nextTaskId, nextCommentId)
    }

    /** Keys are handed-out ids, every row carries its own key, and openIds are non-empty and unique. */
    ghost predicate Valid()
      reads this
    {
      && Tables.KeysBelow(users, nextUserId)
      && (forall k :: k in users ==> users[k].id == k && users[k].openId != "")
      && (forall j, k :: j in users && k in users && users[j].openId == users[k].openId ==> j == k)
      && Tables.KeysBelow(videos, nextVideoId) && (forall k :: k in videos ==> videos[k].id == k)
      && Tables.KeysBelow(transcripts, nextTranscriptId)
      && (forall k :: k in transcripts ==> transcripts[k].id == k)
      && Tables.KeysBelow(dubbings, nextDubbingId) && (forall k :: k in dubbings ==> dubbings[k].id == k)
      && Tables.KeysBelow(renderedVideos, nextRenderedVideoId)
      && (forall k :: k in renderedVideos ==> renderedVideos[k].id == k)
      && Tables.KeysBelow(tasks, nextTaskId) && (forall k :: k in tasks ==> tasks[k].id == k)
      && Tables.KeysBelow(comments, nextCommentId) && (forall k :: k in comments ==> comments[k].id == k)
    }

    constructor (dialect: Dialect, available: bool)
      ensures Valid() && this.dialect == dialect
      ensures State() == Snapshot(available, map[], map[], map[], map[], map[], map[], map[],
                                  1, 1, 1, 1, 1, 1, 1)
    {
      this.dialect := dialect;
      this.available := available;
      users, videos, transcripts, dubbings := map[], map[], map[], map[];
      renderedVideos, tasks, comments := map[], map[], map[];
      nextUserId, nextVideoId, nextTranscriptId, nextDubbingId := 1, 1, 1, 1;
      nextRenderedVideoId, nextTaskId, nextCommentId := 1, 1, 1;
    }

    /** `updatedAt` after an update: MySQL's `onUpdateNow` refreshes it, SQLite keeps it. */
    function Refreshed(updatedAt: int, now: int): int
    {
      if dialect == Mysql then now else updatedAt
    }

    // ---- users ----

    function UserIdByOpenId(openId: string): (r: Option<int>)
      reads this
      requires Valid()
      ensures r.Some? ==> r.value in users && users[r.value].openId == openId
      ensures r.None? ==> forall k :: k in users ==> users[k].openId != openId
    {
      Tables.FirstKeyWhere(users, (u: User) => u.openId == openId, 1, nextUserId)
    }

    /** getUserByOpenId: the one user with that openId, none when the store is unavailable. */
    function UserByOpenId(openId: string): (r: Option<User>)
      reads this
      requires Valid()
      ensures r.Some? ==> available && r.value in users.Values && r.value.openId == openId
      ensures r.None? ==> !available || forall u :: u in users.Values ==> u.openId != openId
    {
      if !available then None
      else match UserIdByOpenId(openId)
        case Some(k) => Some(users[k])
        case None => None
    }

    /** Since openIds are unique, looking one up finds exactly the row that holds it. */
    lemma UserFoundByOpenId(k: int)
      requires Valid() && available && k in users
      ensures UserByOpenId(users[k].openId) == Some(users[k])
    {
      var found := UserIdByOpenId(users[k].openId);
      assert found.Some?;
    }

    method UpsertUser(user: InsertUser, ownerOpenId: string, now: int) returns (r: Outcome<DbError>)
      requires Valid()
      modifies this
      ensures Valid()
      ensures user.openId == "" ==> r == Fail(OpenIdRequired) && State() == old(State())
      ensures user.openId != "" ==> r == Pass
      ensures user.openId != "" && !old(available) ==> State() == old(State())
      ensures user.openId != "" && old(available) && old(UserIdByOpenId(user.openId)).Some? ==>
                var k := old(UserIdByOpenId(user.openId)).value;
                State() == old(State()).(users := old(users)[k := UpdatedUser(old(users)[k],
                  UpsertUpdateSet(user, ownerOpenId, now), Refreshed(old(users)[k].updatedAt, now))])
      ensures user.openId != "" && old(available) && old(UserIdByOpenId(user.openId)).None? ==>
                State() == old(State()).(
                  users := old(users)[old(nextUserId) := InsertedUser(old(nextUserId), user.openId,
                                                           UpsertValues(user, ownerOpenId, now), now)],
                  nextUserId := old(nextUserId) + 1)
      ensures user.openId != "" && old(available) ==>
                && UserByOpenId(user.openId).Some?
                && (user.role.Given? ==> UserByOpenId(user.openId).value.role == user.role.value)
                && (user.role.Omitted? && user.openId == ownerOpenId ==>
                      UserByOpenId(user.openId).value.role == AdminRole)
      ensures user.openId != "" && old(available) ==>
                var u := UserByOpenId(user.openId).value;
                && (user.name.Given? ==> u.name == user.name.value)
                && (user.email.Given? ==> u.email == user.email.value)
                && (user.loginMethod.Given? ==> u.loginMethod == user.loginMethod.value)
                && (user.lastSignedIn.Given? ==> u.lastSignedIn == user.lastSignedIn.value)
    {
      if user.openId == "" {
        return Fail(OpenIdRequired);
      }
      if !available {
        return Pass;
      }
      var values, updateSet := BuildUpsertSets(user, ownerOpenId, now);
      var existing := UserIdByOpenId(user.openId);
      match existing {
        case Some(k) =>
          users := users[k := UpdatedUser(users[k], updateSet, Refreshed(users[k].updatedAt, now))];
          UserFoundByOpenId(k);
        case None =>
          users := users[nextUserId := InsertedUser(nextUserId, user.openId, values, now)];
          nextUserId := nextUserId + 1;
          UserFoundByOpenId(nextUserId - 1);
      }
      r := Pass;
    }

    // ---- videos ----

    /** getUserVideos */
    function UserVideos(userId: int): (rows: set<Video>)
      reads this
      ensures forall v :: v in rows <==> available && v in videos.Values && v.userId == userId
    {
      if available then Tables.RowsWhere(videos, (v: Video) => v.userId == userId) else {}
    }

    /** getVideoById */
    function VideoById(id: int): (r: Option<Video>)
      reads this
      requires Valid()
      ensures r.Some? <==> available && id in videos
      ensures r.Some? ==> r.value == videos[id] && r.value.id == id
    {
      if available && id in videos then Some(videos[id]) else None
    }

    method CreateVideo(userId: int, data: NewVideo, now: int) returns (r: Result<int, DbError>)
      requires Valid()
      modifies this
      ensures Valid()
      ensures !old(available) ==> r == Err(Unavailable) && State() == old(State())
      ensures old(available) ==> r == Ok(old(nextVideoId)) && State() == old(State()).(
                videos := old(videos)[old(nextVideoId) := InsertedVideo(old(nextVideoId), userId, data, now)],
                nextVideoId := old(nextVideoId) + 1)
    {
      if !available {
        return Err(Unavailable);
      }
      r := Ok(nextVideoId);
      videos := videos[nextVideoId := InsertedVideo(nextVideoId, userId, data, now)];
      nextVideoId := nextVideoId + 1;
    }

    method UpdateVideo(id: int, userId: int, patch: VideoPatch, now: int) returns (r: Outcome<DbError>)
      requires Valid()
      modifies this
      ensures Valid()
      ensures r == (if !old(available) then Fail(Unavailable)
                    else if id !in old(videos) || old(videos)[id].userId != userId
                    then Fail(NotFoundOrUnauthorized(VideoEntity))
                    else Pass)
      ensures r.Fail? ==> State() == old(State())
      ensures r.Pass? ==> State() == old(State()).(videos := old(videos)[id := PatchedVideo(old(videos)[id],
                                                     patch, Refreshed(old(videos)[id].updatedAt, now))])
    {
      if !available {
        return Fail(Unavailable);
      }
      var video := VideoById(id);
      if video.None? || video.value.userId != userId {
        return Fail(NotFoundOrUnauthorized(VideoEntity));
      }
      videos := videos[id := PatchedVideo(video.value, patch, Refreshed(video.value.updatedAt, now))];
      r := Pass;
    }

    /** deleteVideo removes that row alone: transcripts, dubbing, renders and tasks of the video stay. */
    method DeleteVideo(id: int, userId: int) returns (r: Outcome<DbError>)
      requires Valid()
      modifies this
      ensures Valid()
      ensures r == (if !old(available) then Fail(Unavailable)
                    else if id !in old(videos) || old(videos)[id].userId != userId
                    then Fail(NotFoundOrUnauthorized(VideoEntity))
                    else Pass)
      ensures r.Fail? ==> State() == old(State())
      ensures r.Pass? ==> State() == old(State()).(videos := old(videos) - {id})
    {
      if !available {
        return Fail(Unavailable);
      }
      var video := VideoById(id);
      if video.None? || video.value.userId != userId {
        return Fail(NotFoundOrUnauthorized(VideoEntity));
      }
      videos := videos - {id};
      r := Pass;
    }

    // ---- transcripts, dubbing and rendered videos ----

    /** getTranscriptByVideoId: the lowest-id transcript of the video. */
    function TranscriptByVideoId(videoId: int): (r: Option<Transcript>)
      reads this
      requires Valid()
      ensures r.Some? ==> available && r.value in transcripts.Values && r.value.videoId == videoId
      ensures r.Some? ==> forall t :: t in transcripts.Values && t.videoId == videoId ==> r.value.id <= t.id
      ensures r.None? ==> !available || forall t :: t in transcripts.Values ==> t.videoId != videoId
    {
      if !available then None
      else match Tables.FirstKeyWhere(transcripts, (t: Transcript) => t.videoId == videoId, 1, nextTranscriptId)
        case Some(k) => Some(transcripts[k])
        case None => None
    }

    /** createTranscript inserts without checking that the video exists. */
    method CreateTranscript(data: NewTranscript, now: int) returns (r: Result<int, DbError>)
      requires Valid()
      modifies this
      ensures Valid()
      ensures !old(available) ==> r == Err(Unavailable) && State() == old(State())
      ensures old(available) ==> r == Ok(old(nextTranscriptId)) && State() == old(State()).(
                transcripts := old(transcripts)[old(nextTranscriptId) := InsertedTranscript(old(nextTranscriptId), data, now)],
                nextTranscriptId := old(nextTranscriptId) + 1)
    {
      if !available {
        return Err(Unavailable);
      }
      r := Ok(nextTranscriptId);
      transcripts := transcripts[nextTranscriptId := InsertedTranscript(nextTranscriptId, data, now)];
      nextTranscriptId := nextTranscriptId + 1;
    }

    /** getDubbingByVideoId: the lowest-id dubbing of the video. */
    function DubbingByVideoId(videoId: int): (r: Option<Dubbing>)
      reads this
      requires Valid()
      ensures r.Some? ==> available && r.value in dubbings.Values && r.value.videoId == videoId
      ensures r.Some? ==> forall d :: d in dubbings.Values && d.videoId == videoId ==> r.value.id <= d.id
      ensures r.None? ==> !available || forall d :: d in dubbings.Values ==> d.videoId != videoId
    {
      if !available then None
      else match Tables.FirstKeyWhere(dubbings, (d: Dubbing) => d.videoId == videoId, 1, nextDubbingId)
        case Some(k) => Some(dubbings[k])
        case None => None
    }

    /** createDubbing inserts without checking that the video or the transcript exists. */
    method CreateDubbing(data: NewDubbing, now: int) returns (r: Result<int, DbError>)
      requires Valid()
      modifies this
      ensures Valid()
      ensures !old(available) ==> r == Err(Unavailable) && State() == old(State())
      ensures old(available) ==> r == Ok(old(nextDubbingId)) && State() == old(State()).(
                dubbings := old(dubbings)[old(nextDubbingId) := InsertedDubbing(old(nextDubbingId), data, now)],
                nextDubbingId := old(nextDubbingId) + 1)
    {
      if !available {
        return Err(Unavailable);
      }
      r := Ok(nextDubbingId);
      dubbings := dubbings[nextDubbingId := InsertedDubbing(nextDubbingId, data, now)];
      nextDubbingId := nextDubbingId + 1;
    }

    /** getRenderedVideoByVideoId: the lowest-id render of the video. */
    function RenderedVideoByVideoId(videoId: int): (r: Option<RenderedVideo>)
      reads this
      requires Valid()
      ensures r.Some? ==> available && r.value in renderedVideos.Values && r.value.videoId == videoId
      ensures r.Some? ==> forall v :: v in renderedVideos.Values && v.videoId == videoId ==> r.value.id <= v.id
      ensures r.None? ==> !available || forall v :: v in renderedVideos.Values ==> v.videoId != videoId
    {
      if !available then None
      else match Tables.FirstKeyWhere(renderedVideos, (v: RenderedVideo) => v.videoId == videoId, 1, nextRenderedVideoId)
        case Some(k) => Some(renderedVideos[k])
        case None => None
    }

    method CreateRenderedVideo(data: NewRenderedVideo, now: int) returns (r: Result<int, DbError>)
      requires Valid()
      modifies this
      ensures Valid()
      ensures !old(available) ==> r == Err(Unavailable) && State() == old(State())
      ensures old(available) ==> r == Ok(old(nextRenderedVideoId)) && State() == old(State()).(
                renderedVideos := old(renderedVideos)[old(nextRenderedVideoId) :=
                                    InsertedRenderedVideo(old(nextRenderedVideoId), data, now)],
                nextRenderedVideoId := old(nextRenderedVideoId) + 1)
    {
      if !available {
        return Err(Unavailable);
      }
      r := Ok(nextRenderedVideoId);
      renderedVideos := renderedVideos[nextRenderedVideoId := InsertedRenderedVideo(nextRenderedVideoId, data, now)];
      nextRenderedVideoId := nextRenderedVideoId + 1;
    }

    // ---- tasks ----

    /** getUserTasks */
    function UserTasks(userId: int): (rows: set<Task>)
      reads this
      ensures forall t :: t in rows <==> available && t in tasks.Values && t.userId == userId
    {
      if available then Tables.RowsWhere(tasks, (t: Task) => t.userId == userId) else {}
    }

    /** getTaskById */
    function TaskById(id: int): (r: Option<Task>)
      reads this
      requires Valid()
      ensures r.Some? <==> available && id in tasks
      ensures r.Some? ==> r.value == tasks[id] && r.value.id == id
    {
      if available && id in tasks then Some(tasks[id]) else None
    }

    method CreateTask(userId: int, data: NewTask, now: int) returns (r: Result<int, DbError>)
      requires Valid()
      modifies this
      ensures Valid()
      ensures !old(available) ==> r == Err(Unavailable) && State() == old(State())
      ensures old(available) ==> r == Ok(old(nextTaskId)) && State() == old(State()).(
                tasks := old(tasks)[old(nextTaskId) := InsertedTask(old(nextTaskId), userId, data, now)],
                nextTaskId := old(nextTaskId) + 1)
    {
      if !available {
        return Err(Unavailable);
      }
      r := Ok(nextTaskId);
      tasks := tasks[nextTaskId := InsertedTask(nextTaskId, userId, data, now)];
      nextTaskId := nextTaskId + 1;
    }

    method UpdateTask(id: int, userId: int, patch: TaskPatch, now: int) returns (r: Outcome<DbError>)
      requires Valid()
      modifies this
      ensures Valid()
      ensures r == (if !old(available) then Fail(Unavailable)
                    else if id !in old(tasks) || old(tasks)[id].userId != userId
                    then Fail(NotFoundOrUnauthorized(TaskEntity))
                    else Pass)
      ensures r.Fail? ==> State() == old(State())
      ensures r.Pass? ==> State() == old(State()).(tasks := old(tasks)[id := PatchedTask(old(tasks)[id],
                                                     patch, Refreshed(old(tasks)[id].updatedAt, now))])
    {
      if !available {
        return Fail(Unavailable);
      }
      var task := TaskById(id);
      if task.None? || task.value.userId != userId {
        return Fail(NotFoundOrUnauthorized(TaskEntity));
      }
      tasks := tasks[id := PatchedTask(task.value, patch, Refreshed(task.value.updatedAt, now))];
      r := Pass;
    }

    /** deleteTask removes that row alone: the task's comments stay. */
    method DeleteTask(id: int, userId: int) returns (r: Outcome<DbError>)
      requires Valid()
      modifies this
      ensures Valid()
      ensures r == (if !old(available) then Fail(Unavailable)
                    else if id !in old(tasks) || old(tasks)[id].userId != userId
                    then Fail(NotFoundOrUnauthorized(TaskEntity))
                    else Pass)
      ensures r.Fail? ==> State() == old(State())
      ensures r.Pass? ==> State() == old(State()).(tasks := old(tasks) - {id})
    {
      if !available {
        return Fail(Unavailable);
      }
      var task := TaskById(id);
      if task.None? || task.value.userId != userId {
        return Fail(NotFoundOrUnauthorized(TaskEntity));
      }
      tasks := tasks - {id};
      r := Pass;
    }

    // ---- comments ----

    /** getTaskComments */
    function TaskComments(taskId: int): (rows: set<Comment>)
      reads this
      ensures forall c :: c in rows <==> available && c in comments.Values && c.taskId == taskId
    {
      if available then Tables.RowsWhere(comments, (c: Comment) => c.taskId == taskId) else {}
    }

    /** createComment inserts without checking that the task exists. */
    method CreateComment(taskId: int, userId: int, content: string, now: int) returns (r: Result<int, DbError>)
      requires Valid()
      modifies this
      ensures Valid()
      ensures !old(available) ==> r == Err(Unavailable) && State() == old(State())
      ensures old(available) ==> r == Ok(old(nextCommentId)) && State() == old(State()).(
                comments := old(comments)[old(nextCommentId) :=
                              InsertedComment(old(nextCommentId), taskId, userId, content, now)],
                nextCommentId := old(nextCommentId) + 1)
    {
      if !available {
        return Err(Unavailable);
      }
      r := Ok(nextCommentId);
      comments := comments[nextCommentId := InsertedComment(nextCommentId, taskId, userId, content, now)];
      nextCommentId := nextCommentId + 1;
    }

    /** deleteComment: only the comment's author may delete it; the task's owner has no say. */
    method DeleteComment(id: int, userId: int) returns (r: Outcome<DbError>)
      requires Valid()
      modifies this
      ensures Valid()
      ensures r == (if !old(available) then Fail(Unavailable)
                    else if id !in old(comments) || old(comments)[id].userId != userId
                    then Fail(NotFoundOrUnauthorized(CommentEntity))
                    else Pass)
      ensures r.Fail? ==> State() == old(State())
      ensures r.Pass? ==> State() == old(State()).(comments := old(comments) - {id})
    {
      if !available {
        return Fail(Unavailable);
      }
      if id !in comments || comments[id].userId != userId {
        return Fail(NotFoundOrUnauthorized(CommentEntity));
      }
      comments := comments - {id};
      r := Pass;
    }
  }
}
