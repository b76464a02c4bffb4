# DV-7 Nexus core, modelled in Dafny

DV-7 Nexus is a video-localisation platform. A signed-in user submits a video URL. The backend records the video and a capture task, and the user then asks for transcripts, dubbings and renders of the video and keeps a task list with comments. This project models the platform's core:

- the relational schema: its enumerations, defaults and MySQL column caps (`schema.dfy`);
- the entity store, with its owner-checked updates and deletes and the user upsert (`store.dfy`, over the map helpers in `tables.dfy`);
- token decoding and the role predicate (`auth.dfy`);
- the two request guards (`trpc.dfy`);
- the platform classifier (`platform.dfy`);
- the language-code pattern (`language.dfy`);
- the router procedures that tie these together (`routers.dfy`);
- on the client: the progress card's step statuses and remaining time (`progress_tracker.dfy`), and the shallow-merge video store (`video_store.dfy`).

The store is a class, `Store.Database`. Each table is a map from autoincrement id to row, held in a field, and each table has a next-id counter. Whether the database handle could be opened is the field `available`. Every state-changing method states its whole new state as an update of the ghost snapshot `State()`. Each method also keeps `Valid()`:

- keys are ids already handed out;
- every row carries its own key;
- user openIds are non-empty and unique.

The client's video store is the class `VideoStore.Store`. Each setter is specified as zustand's shallow merge (`Merge`) of the partial it passes to `set`. Lemmas about `Merge` give the store's properties: each setter changes one field, and a reset restores the initial state and is idempotent.

The router procedures run the signed-in guard first, then the input validators, then the handler. Their results use `ApiError`, which has three cases:

- `Denied` for the guard;
- `InvalidInput` with the failing field names;
- `Failed` with the store's error.

The current time, the configured owner openId, the SQL dialect and the URL validator are parameters.

## Model

| member | source | states |
|---|---|---|
| Schema.ParseRole | backend/drizzle/schema-sqlite.ts:19 | a text is accepted as a role exactly when it is one of the labels `user`, `admin` |
| Schema.RoleName | backend/drizzle/schema-sqlite.ts:19 | every role's label is in the list and parses back to the same role |
| Schema.ParseStatus | backend/drizzle/schema-sqlite.ts:39 | a text is a lifecycle status exactly when it is one of the five labels |
| Schema.StatusName | backend/drizzle/schema-sqlite.ts:39 | every status's label is in the list and parses back to the same status |
| Schema.ParseTranscriptStatus | backend/drizzle/schema-sqlite.ts:60 | the transcript column accepts exactly its four labels, and each one means the same status as in the shared list |
| Schema.TranscriptStatusExcludesCancelled | backend/drizzle/schema-sqlite.ts:60 | `cancelled` is a valid video status but is refused by the transcript column |
| Schema.ParsePriority | backend/drizzle/schema-sqlite.ts:123 | a text is a priority exactly when it is `low`, `medium` or `high` |
| Schema.PriorityName | backend/drizzle/schema-sqlite.ts:123 | every priority's label parses back to the same priority |
| Schema.ParseTaskType | backend/drizzle/schema-sqlite.ts:119 | a text is a task type exactly when it is one of the five type labels |
| Schema.TaskTypeName | backend/drizzle/schema-sqlite.ts:119 | every task type's label parses back to the same type |
| Schema.ParseRenderType | backend/drizzle/schema-sqlite.ts:100 | a text is a render type exactly when it is `dubbing`, `subtitles` or `both` |
| Schema.RenderTypeName | backend/drizzle/schema-sqlite.ts:100 | every render type's label parses back to the same type |
| Schema.InsertedVideo | backend/drizzle/schema-sqlite.ts:32-46 | a new video row carries its id, owner, URL, title, file path, platform, language and thumbnail as given; a given status is stored, an absent one defaults to pending; both timestamps are the insert time |
| Schema.InsertedTranscript | backend/drizzle/schema-sqlite.ts:54-64 | a new transcript keeps its video, language and content; a given status is stored, an absent one defaults to pending |
| Schema.InsertedDubbing | backend/drizzle/schema-sqlite.ts:72-85 | a new dubbing keeps its video, transcript, target language and voice profile and has no output URL; a given status is stored, an absent one defaults to pending |
| Schema.InsertedRenderedVideo | backend/drizzle/schema-sqlite.ts:93-107 | a new render keeps its video, dubbing, target language and render type and has no output URL; a given status is stored, an absent one defaults to pending |
| Schema.InsertedTask | backend/drizzle/schema-sqlite.ts:115-131 | a new task keeps its owner, title, video, type and description; a given status, priority or progress is stored, and absent ones default to pending, medium and 0 |
| Schema.InsertedComment | backend/drizzle/schema-sqlite.ts:139-146 | a new comment keeps its task, author and content, stamped with the insert time |
| Schema.PatchedVideo | backend/src/db-sqlite.ts:172-180 | the key and owner never change; every column the payload gives takes the given value and every column it omits keeps its value; `updatedAt` is the given one, else the dialect's refresh; an empty payload changes only `updatedAt` |
| Schema.PatchedTask | backend/src/db-sqlite.ts:263-271 | the key and owner never change; every column the payload gives takes the given value and every column it omits keeps its value; `updatedAt` is the given one, else the dialect's refresh; an empty payload changes only `updatedAt` |
| Tables.FirstKeyWhere | backend/src/db-sqlite.ts:195-200 | the `limit 1` lookup returns the lowest matching id in range, and reports none only when no row in range matches |
| Store.UpsertValues | backend/src/db-sqlite.ts:87-119 | the insert values copy every text key the caller gave (nulls included); lastSignedIn defaults to now; an explicit role wins; otherwise the configured owner becomes admin, and nobody else gets a role key |
| Store.UpsertUpdateSet | backend/src/db-sqlite.ts:87-123 | the conflict update set is never empty; it has the same text keys and role as the values; lastSignedIn is set to now only when given so or when nothing else would be updated |
| Store.BuildUpsertSets | backend/src/db-sqlite.ts:87-123 | the key-by-key loop over name, email and loginMethod, followed by the lastSignedIn, role, default and fallback steps, builds exactly `UpsertValues` and `UpsertUpdateSet` |
| Store.UpdatedUser | backend/src/db-sqlite.ts:125-128 | a conflict update keeps the user's id, openId and creation time; each of name, email, login method, last sign-in and role takes the set's value when the set has that key and stays otherwise; `updatedAt` is the given time |
| Store.InsertedUser | backend/src/db-sqlite.ts:125-128 | a new user row has the given id and openId and is stamped now; name, email and login method are the given values or null; last sign-in is the given one or now; the role is the given one or the default `user` |
| Store.Database.UserIdByOpenId | backend/src/db-sqlite.ts:135-145 | finds a user row holding the openId, or reports that no row holds it |
| Store.Database.UserByOpenId | backend/src/db-sqlite.ts:135-145 | getUserByOpenId returns a stored user with that openId; it returns none only when the store is unavailable or no user has that openId |
| Store.Database.UserFoundByOpenId | backend/src/db-sqlite.ts:135-145 | because openIds are unique, looking up a stored user's openId returns exactly that user |
| Store.Database.UpsertUser | backend/src/db-sqlite.ts:75-133 | an empty openId throws before anything else; an unavailable store silently does nothing; otherwise an existing openId's row gets the update set and a new openId gets a fresh row, and the user is then found with the requested role, or as admin when it is the owner, and with the given name, email, login method and last sign-in |
| Store.Database.UserVideos | backend/src/db-sqlite.ts:150-157 | exactly the caller's videos; none when the store is unavailable |
| Store.Database.VideoById | backend/src/db-sqlite.ts:159-164 | the row with that id when it exists and the store is available, otherwise none |
| Store.Database.CreateVideo | backend/src/db-sqlite.ts:166-170 | inserts one row under the next id owned by the caller and changes nothing else; throws unavailable with no change |
| Store.Database.UpdateVideo | backend/src/db-sqlite.ts:172-180 | throws unavailable, or not-found-or-unauthorized when the row is missing or belongs to someone else, in both cases with no change; otherwise patches that row only |
| Store.Database.DeleteVideo | backend/src/db-sqlite.ts:182-190 | the same two errors; otherwise removes that one row and cascades to nothing |
| Store.Database.TranscriptByVideoId | backend/src/db-sqlite.ts:195-200 | the lowest-id transcript of the video, or none when the video has none or the store is unavailable |
| Store.Database.CreateTranscript | backend/src/db-sqlite.ts:202-206 | inserts one transcript under the next id without checking the video |
| Store.Database.DubbingByVideoId | backend/src/db-sqlite.ts:211-216 | the lowest-id dubbing of the video, or none |
| Store.Database.CreateDubbing | backend/src/db-sqlite.ts:218-222 | inserts one dubbing under the next id without checking the video or transcript |
| Store.Database.RenderedVideoByVideoId | backend/src/db-sqlite.ts:227-232 | the lowest-id render of the video, or none |
| Store.Database.CreateRenderedVideo | backend/src/db-sqlite.ts:234-238 | inserts one render under the next id |
| Store.Database.UserTasks | backend/src/db-sqlite.ts:243-248 | exactly the caller's tasks; none when unavailable |
| Store.Database.TaskById | backend/src/db-sqlite.ts:250-255 | the task with that id when it exists and the store is available |
| Store.Database.CreateTask | backend/src/db-sqlite.ts:257-261 | inserts one task under the next id owned by the caller |
| Store.Database.UpdateTask | backend/src/db-sqlite.ts:263-271 | unavailable or not-found-or-unauthorized with no change; otherwise patches the caller's task only |
| Store.Database.DeleteTask | backend/src/db-sqlite.ts:273-281 | the same errors; otherwise removes that task and leaves its comments |
| Store.Database.TaskComments | backend/src/db-sqlite.ts:286-291 | exactly the comments of the task, whoever wrote them |
| Store.Database.CreateComment | backend/src/db-sqlite.ts:293-297 | inserts one comment under the next id without checking the task |
| Store.Database.DeleteComment | backend/src/db-sqlite.ts:299-307 | only the comment's author can delete it; otherwise not-found-or-unauthorized with no change |
| Auth.HasPermission | backend/src/utils/auth.ts:58-67 | no user has no permission; `admin` requires the admin role; any other role name admits every signed-in user |
| Auth.AdminPermissionImpliesAll | backend/src/utils/auth.ts:58-67 | passing the admin check implies passing every check |
| Auth.ParseAllDigits | backend/src/utils/auth.ts:19 | `parseInt(s, 36)` of a string made only of base-36 digits is the value of those digits |
| Auth.ParseSkipsWhitespace | backend/src/utils/auth.ts:19 | leading whitespace never changes what `parseInt` reads |
| Auth.JsRem | backend/src/utils/auth.ts:19 | JavaScript's `%` by a positive modulus: the remainder's magnitude is the dividend's magnitude modulo m, and it takes the dividend's sign |
| Auth.NumRem | backend/src/utils/auth.ts:19 | `NaN % m` is NaN and only NaN gives NaN; otherwise the result lies strictly between -m and m, its magnitude is the number's magnitude modulo m, and it keeps the number's sign |
| Auth.DecimalRoundTrip | backend/src/utils/auth.ts:22-30 | the decimal text of a number reads back as that number |
| Auth.NumberTextInjective | backend/src/utils/auth.ts:22-30 | distinct ids render as distinct texts, NaN included |
| Auth.GetUserFromToken | backend/src/utils/auth.ts:9-31 | a token shorter than ten characters is refused, and any longer one decodes; the user's id is the first ten characters read in base 36 modulo 1000; the role is `user` and both timestamps are now; the openId, name and email are `user_`, `User ` and `user` followed by the id's text, the email ending in `@example.com` |
| Auth.TokenIdInRange | backend/src/utils/auth.ts:9-31 | a token whose first ten characters are base-36 digits gives an id between 0 and 999 |
| Auth.TokenOpenIdShape | backend/src/utils/auth.ts:22-30 | the openId is `user_` followed by the id's text, and is at most 9 characters, within the 64-character column |
| Auth.TokenOpenIdIdentifiesUser | backend/src/utils/auth.ts:22-30 | two tokens give the same openId exactly when they decode to the same id |
| Trpc.RequireUser | backend/src/_core/trpc.ts:15-28 | refuses exactly a context without a user, with UNAUTHORIZED and its message; otherwise passes the same context on |
| Trpc.RequireAdmin | backend/src/_core/trpc.ts:32-47 | admits exactly a user whose role is admin; anything else gets FORBIDDEN with its message |
| Trpc.AdminAdmittedByProtected | backend/src/_core/trpc.ts:15-47 | whoever passes the admin guard passes the protected guard with the same context |
| Trpc.GuardsMatchPermission | backend/src/_core/trpc.ts:15-47 | the two guards admit exactly the users that the role predicate admits for `user` and for `admin` |
| Platform.ContainsIffOccurs | backend/src/routers.ts:274-283 | `includes` holds exactly when the needle occurs at some position of the URL |
| Platform.FirstMatch | backend/src/routers.ts:274-283 | finds the earliest rule of the table that matches, or none when no rule matches |
| Platform.ExtractPlatform | backend/src/routers.ts:274-283 | the tag is always one of the eight platform names and fits the 50-character column |
| Platform.ExtractPlatformIsFirstMatch | backend/src/routers.ts:274-283 | the if-chain equals the rule table read first-match-wins: the earliest matching rule's tag, otherwise `unknown` |
| Platform.XComWithoutEarlierNeedlesIsTwitter | backend/src/routers.ts:274-278 | a URL that contains `x.com` and none of the YouTube, TikTok, Instagram and Facebook needles is classified as twitter |
| Platform.NetflixUrlIsTwitter | backend/src/routers.ts:279 | the test is a substring test and not a host test, so `https://netflix.com/x` is classified as twitter |
| Platform.UnknownIffNoNeedle | backend/src/routers.ts:274-283 | a URL is classified unknown exactly when it contains none of the needles |
| Platform.UpperCaseUrlIsUnknown | backend/src/routers.ts:274-283 | the match is case-sensitive, so an upper-case YouTube host is unknown |
| Platform.YoutubeUrlIsYoutube | backend/server/video.test.ts:80-81 | a youtube.com watch URL is classified as youtube |
| LanguageCode.Format | backend/src/routers.ts:66 | a well-formed tag renders as a code that matches the pattern, with 2 or 5 characters |
| LanguageCode.Parse | backend/src/routers.ts:66 | a code is accepted exactly when it matches the pattern, and then it renders back to the same text |
| LanguageCode.ParseFormat | backend/src/routers.ts:66 | parsing a rendered tag gives back the tag |
| LanguageCode.AcceptedCodeFitsColumn | backend/src/routers.ts:66 | every accepted code fits the 10-character language column |
| LanguageCode.PatternExamples | backend/src/routers.ts:66 | `en-US` and `pt` are accepted; `invalid-lang`, `EN-us` and `en-` are refused |
| Routers.LegacyStatusOutsideSchema | backend/src/routers.ts:211 | none of the statuses the task procedures write is a label of the schema's status enum |
| Routers.VideoGuard | backend/src/routers.ts:51-59 | the owner check succeeds exactly when the video exists, the store is available and the caller owns the video, and the error names the video |
| Routers.VideosList | backend/src/routers.ts:48 | refuses an anonymous caller; otherwise returns exactly the caller's videos |
| Routers.VideosGet | backend/src/routers.ts:51-59 | returns the video exactly when the caller owns it, and refuses a foreign or missing video with the same error |
| Routers.SubmittedVideo | backend/src/routers.ts:72-76 | the submitted row is pending, has the URL and is classified by it, with no title or file path |
| Routers.CaptureTaskFor | backend/src/routers.ts:79-85 | the capture task has the capture type, its title, a description naming the URL, and pending status; it is filed with no video, because the insert result it reads `id` from has no such field |
| Routers.SubmitInputErrors | backend/src/routers.ts:62-69 | the URL field fails exactly when it is not a URL, and the language field fails exactly when it does not match the pattern |
| Routers.VideosSubmit | backend/src/routers.ts:62-88 | signed-in guard, then the input check, then two inserts: a pending video owned by the caller and classified by its URL, and a pending capture task that is linked to no video; the result is the new video's id; on any error the store is unchanged; the video has no file path and the task no video or type, so both rows break a NOT NULL column |
| Routers.RequestedVideoPatch | backend/src/routers.ts:91-102 | the patch carries the given title and status and no other column |
| Routers.VideosUpdate | backend/src/routers.ts:91-102 | the caller's video gets the given title and status, an omitted title or status stays, and its URL, file path, platform and creation time stay; otherwise unavailable or the owner error, with no change |
| Routers.VideosDelete | backend/src/routers.ts:105-107 | only the caller's own video is removed |
| Routers.TranscriptionGet | backend/src/routers.ts:112-120 | the transcript of a video the caller owns, and the owner error for any other video |
| Routers.TranscriptionCreate | backend/src/routers.ts:122-140 | the language is checked before the owner; on success a pending transcript in the requested language is stored that fits the MySQL column and has no content, which breaks a NOT NULL column; on error the store is unchanged |
| Routers.DubbingGet | backend/src/routers.ts:145-153 | the dubbing of a video the caller owns, and the owner error otherwise |
| Routers.DubbingCreate | backend/src/routers.ts:155-176 | the language is checked, then the owner; the new pending dubbing always points at transcript 1 |
| Routers.RenderedVideosGet | backend/src/routers.ts:181-189 | the render of a video the caller owns, and the owner error otherwise |
| Routers.TasksList | backend/src/routers.ts:194 | exactly the caller's tasks |
| Routers.TasksGet | backend/src/routers.ts:196-204 | the task exactly when it exists and the caller owns it, and one error for a missing or foreign task |
| Routers.RequestedTask | backend/src/routers.ts:220-221 | status defaults to `todo` and priority to medium; no video and no type are set |
| Routers.TasksCreate | backend/src/routers.ts:206-225 | an empty title is refused with no change; otherwise one task owned by the caller is inserted with the given title, description, priority and status label, or their defaults, with progress 0 and no video or type, so the row breaks a NOT NULL column; on MySQL the row fits its columns exactly when the title has at most 255 characters |
| Routers.RequestedTaskPatch | backend/src/routers.ts:227-242 | the patch carries exactly the given title, description, status and priority, with the status written as its legacy label |
| Routers.TasksUpdate | backend/src/routers.ts:227-242 | only the caller's own task is patched; its video, type, progress and creation time stay, and a given status is stored as its legacy label; otherwise an error and no change |
| Routers.TasksDelete | backend/src/routers.ts:244-246 | only the caller's own task is removed |
| Routers.CommentsList | backend/src/routers.ts:250-252 | any signed-in user gets every comment of any task |
| Routers.CommentsCreate | backend/src/routers.ts:254-263 | empty content is refused with no change; otherwise one comment by the caller is stored on the task without checking the task |
| Routers.CommentsDelete | backend/src/routers.ts:265-267 | only the comment's author can remove it |
| Routers.TaskTitleCapNotValidated | backend/src/routers.ts:206-225 | on MySQL, tasks.create accepts a 256-character title and stores a row that does not fit the 255-character title column |
| Routers.SubmittedVideoFitsMysql | backend/src/routers.ts:72-76 | the submitted video fits every MySQL column whenever its URL fits its column |
| Routers.RouterDubbingFitsMysql | backend/src/routers.ts:155-176 | a routed dubbing's language always fits its column; the row fits exactly when the voice profile is at most 100 characters, which is not validated |
| Routers.ForeignTaskIsProtected | backend/src/tasks.test.ts:95-125 | another user cannot read or delete a task, and the owner still finds it afterwards |
| Routers.EmptyCommentIsRejected | backend/src/comments.test.ts:62-77 | an empty comment is refused and nothing is stored |
| Routers.SubmitYoutubeVideo | backend/server/video.test.ts:80-81 | submitting a YouTube URL stores a pending youtube video of the caller and a capture task linked to no video |
| ProgressTracker.StepId | dv7-frontend/src/store/useVideoStore.ts:13 | every processing step is in the order list, and only `complete` is the final step |
| ProgressTracker.IndexOf | frontend/src/app/components/ProgressTracker.tsx:114-116 | `indexOf` is the first position of the element, or -1 exactly when the element is absent |
| ProgressTracker.GetStepStatus | frontend/src/app/components/ProgressTracker.tsx:110-122 | never an error status; pending whenever there is no current step or the current step is unknown |
| ProgressTracker.StepStatusFollowsOrder | frontend/src/app/components/ProgressTracker.tsx:114-121 | for known steps: completed before the current step, processing at it, pending after it |
| ProgressTracker.UnknownStepShowsCompleted | frontend/src/app/components/ProgressTracker.tsx:116-119 | an unknown step id counts as position -1 and shows as completed against any known current step |
| ProgressTracker.StepStatuses | frontend/src/app/components/ProgressTracker.tsx:22-43 | the card shows four statuses, none of them an error |
| ProgressTracker.NoCurrentStepAllPending | frontend/src/app/components/ProgressTracker.tsx:22-43 | with no current step, or an unknown one, all four steps are pending |
| ProgressTracker.CompleteAllCompleted | frontend/src/app/components/ProgressTracker.tsx:22-43 | at `complete`, all four steps are completed |
| ProgressTracker.KthStepShape | frontend/src/app/components/ProgressTracker.tsx:22-43 | at the k-th displayed step: k completed, exactly one processing, the rest pending |
| ProgressTracker.StoreStepStatuses | frontend/src/app/components/ProgressTracker.tsx:22-43 | for a step the video store can hold, some displayed step is processing exactly when the step is not `complete`, and all four are completed exactly when it is |
| ProgressTracker.Ceil | frontend/src/app/components/ProgressTracker.tsx:94 | `Math.ceil(x)` is the least integer not below x |
| ProgressTracker.RemainingMinutes | frontend/src/app/components/ProgressTracker.tsx:91-94 | the line shows exactly for a non-empty current step other than `complete`, with the minutes rounded up from (100 - progress) / 10 |
| ProgressTracker.RemainingMinutesEnds | frontend/src/app/components/ProgressTracker.tsx:94 | 10 minutes at progress 0, 0 at progress 100 |
| ProgressTracker.RemainingMinutesMonotone | frontend/src/app/components/ProgressTracker.tsx:94 | more progress never shows more minutes |
| VideoStore.Merge | dv7-frontend/src/store/useVideoStore.ts:36-52 | `set` replaces every key the partial gives with the given value and keeps every key it does not give |
| VideoStore.MergeCombine | dv7-frontend/src/store/useVideoStore.ts:36-52 | two successive `set` calls equal one call in which the later keys win |
| VideoStore.SettersChangeOneField | dv7-frontend/src/store/useVideoStore.ts:36-42 | each setter changes its own field and no other |
| VideoStore.ResetRestoresInitial | dv7-frontend/src/store/useVideoStore.ts:28-52 | resetStore returns any state to the initial state, and a second reset changes nothing |
| VideoStore.ProgressNotClamped | dv7-frontend/src/store/useVideoStore.ts:41 | setProgress stores values outside 0 to 100 unchanged |
| VideoStore.Store.constructor | dv7-frontend/src/store/useVideoStore.ts:28-34 | the store starts with no records, not processing, no step and progress 0 |
| VideoStore.Store.SetCurrentVideo | dv7-frontend/src/store/useVideoStore.ts:36 | the new state is the old one merged with `{currentVideo}` |
| VideoStore.Store.SetCurrentTranscript | dv7-frontend/src/store/useVideoStore.ts:37 | the new state is the old one merged with `{currentTranscript}` |
| VideoStore.Store.SetCurrentDubbing | dv7-frontend/src/store/useVideoStore.ts:38 | the new state is the old one merged with `{currentDubbing}` |
| VideoStore.Store.SetCurrentRendered | dv7-frontend/src/store/useVideoStore.ts:39 | the new state is the old one merged with `{currentRendered}` |
| VideoStore.Store.SetProcessingStep | dv7-frontend/src/store/useVideoStore.ts:40 | the new state is the old one merged with `{processingStep}` |
| VideoStore.Store.SetProgress | dv7-frontend/src/store/useVideoStore.ts:41 | the new state is the old one merged with `{progress}` |
| VideoStore.Store.SetIsProcessing | dv7-frontend/src/store/useVideoStore.ts:42 | the new state is the old one merged with `{isProcessing}` |
| VideoStore.Store.ResetStore | dv7-frontend/src/store/useVideoStore.ts:44-52 | the new state is the merge with every key at its initial value, which is the initial state |

## Left out

- Connection plumbing is not modelled: opening the database handle, the mock database, and the test-environment shortcuts that return empty lists. A handle that could not be opened is the `available` flag.
- The server entry point, the request-context builder, token generation, the `auth.me` and `auth.logout` procedures, and the second copy of the tRPC setup under `core/` are not part of this model.
- The pages and components other than the progress card, including the processing page, are not modelled. Neither is the card's markup.
- URL validity (`z.string().url()`) is the parameter `isUrl`; the WHATWG URL parser is not modelled.
- The SQL engine's NOT NULL checks are not modelled: rows are stored as given, which is why `Video.filePath`, `Transcript.content` and `Task.videoId`/`type` are optional. SQLite checks NOT NULL on every insert, and so does MySQL in strict mode, so three procedures fail on every call on a real engine. videos.submit omits `videos.filePath` (backend/drizzle/schema-sqlite.ts:38). tasks.create, and the capture task of videos.submit, omit `tasks.videoId` and `tasks.type` (backend/drizzle/schema-sqlite.ts:118-119). transcription.create omits `transcripts.content` (backend/drizzle/schema-sqlite.ts:58). The success paths of Routers.VideosSubmit, Routers.TasksCreate, Routers.TranscriptionCreate, Routers.SubmitYoutubeVideo and Routers.TaskTitleCapNotValidated therefore describe an engine without these checks. Their contracts state that each such row breaks the constraint (`VideoMeetsNotNull`, `TaskMeetsNotNull`, `TranscriptMeetsNotNull`).
- The enum checks are not modelled either. tasks.create writes `todo`, `in_progress` and `done`, which are outside the status enum (`Routers.LegacyStatusOutsideSchema`). MySQL in strict mode refuses such a value. The SQLite schema declares the enum on a text column only.
- Routers.VideosSubmit: returns the new video's id (the insert result's last inserted row id) rather than the driver's raw insert result object.
- Routers.VideosSubmit: the two inserts are modelled as atomic. No failure between them is modelled, although the source runs them without a transaction.
- Store.Database.UpdateVideo: an update with no given keys is modelled as a successful update. It changes nothing on SQLite, and only `updatedAt` on MySQL. The query builder rejects an empty `SET`. An explicitly given `updatedAt` wins over MySQL's refresh.
- Store.Database.UpdateTask: the same holds for a task update with no given keys.
- Store.Database.UpsertUser: engine failures and the catch-and-rethrow around the insert are not modelled. The model's only errors are the ones the function throws itself.
- Store.Database.UpsertUser: models a missing openId as the empty string.
- Dialect: MySQL refreshes `updatedAt` on every update (`Refreshed`). The detail that MySQL skips the refresh when no value actually changes is not modelled.
- Concurrency, request interleaving and autoincrement gaps after failed inserts are not modelled.
- Times are the integer parameter `now`.
- Auth.GetUserFromToken: JavaScript numbers are unbounded integers. Ten base-36 digits stay below 2^53, where `parseInt` is exact, so nothing is lost for the ids a token can produce.
- ProgressTracker.RemainingMinutes: progress is a real number, so floating-point rounding is not modelled.
- Trpc.RequireUser: context user ids are integers. A NaN id from a malformed token is not carried into the context.
- String lengths are counted in characters (Unicode scalar values), not UTF-16 code units. MySQL's varchar caps are stated on that count.
- VideoStore.Store: the record types it stores are type parameters, because the store never looks inside them.
- ProgressTracker.GetStepStatus: the current step is a string option. An empty string is treated like null, as JavaScript's truthiness test does.
