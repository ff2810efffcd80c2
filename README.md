# A verified model of the follow service, the social app's data and checks, and the player rules

This project models in Dafny the core of the `daniel-hernandez` projects of the
`isdi-parttime-202403` repository, and proves what that code promises:

- **The music API's user services.** `followUser` validates two ids, looks
  both users up, refuses self-follows, and computes one discriminant: is the
  caller among the target's `followers`? It then pulls or pushes on the
  caller's `following` and the target's `followers`, and logs
  `FOLLOWED_USER` or `UNFOLLOWED_USER`. `getUserInfo` validates, looks up,
  logs `VIEWED_USER_PROFILE` and returns the projected target. The store is a
  `Db` class holding the users, keyed by id, and the append-only log. Each
  service is a method. It is proved equal to a specification function, and
  the properties are proved about that function. Storage failures are a
  `Fault` parameter that names the step that fails and its message. A
  service call settles in one of three ways: it throws synchronously
  (validation), it rejects, or it resolves.
- **The social app.** The browser data layer keeps users under the key
  "user_" + username in lower case, and all posts as one list. It can filter
  the posts, append one with a generated id, and delete the first match. The
  browser-side checks of `registerUser`, `loginUser` and `createPost` run in
  a fixed order, and the login flag lives in the session. The server's
  `createPost` validates, looks the author up, builds the post record and
  inserts it.
- **The music app's shell.** The authentication reducer and its initial
  state. `notify` lets only one toast be active at a time. The startup
  effect restores a stored session.
- **The player.** The track store. The skip rules. The artist label. The
  steps of `setup`, and of `play` with its three stale-request checkpoints.
  The loop toggle, the play/pause branching, and `handlePlay`, which swallows
  an aborted request.
- **The playlist schema**, read as a validated constructor: trimming,
  defaults, and constraints.
- **The `forEach` re-implementation**, and the demo that builds one record
  per element with `data[data.length] = o`.

The modules follow the program. `Common` holds the shared error kinds and
outcomes. `Identity` holds the id checks. `Database` holds the user store, the
log, `$push` and `$pull`. Then come `FollowUser`, `GetUserInfo`, `SocialData`,
`SocialLogic`, `CreatePost`, `Auth`, `TrackStore`, `Player`, `PlayerHandlers`,
`Playlist` and `ForEachDemo`.

Where the documentation and the code differ, the model follows the code.

1. `handlePlay` uses a play request that the track store does not hold. The
   model keeps that as written and also models the corrected store; see
   Findings.
2. The documented behaviour of a missing post id is a no-op. The code only
   writes the list back when a match is found, and the model does the same.

## Model

| member | source | states |
|---|---|---|
| Identity.ValidateIds | staff/daniel-hernandez/project/api/services/user/followUser.js:8-10 | passes exactly when both ids are 24-digit object ids; otherwise an InvalidArgumentError, "All inputs are required" when an id is empty and "Invalid ObjectId" otherwise |
| Database.Push | staff/daniel-hernandez/project/api/services/user/followUser.js:42 | `$push` appends: the old list is kept as a prefix and the id is present afterwards |
| Database.Pull | staff/daniel-hernandez/project/api/services/user/followUser.js:42 | `$pull` removes every occurrence of the id and keeps every other id present |
| Database.PullAbsent | staff/daniel-hernandez/project/api/services/user/followUser.js:42 | pulling an id that is absent leaves the list as it was |
| Database.PullUndoesPush | staff/daniel-hernandez/project/api/services/user/followUser.js:39-42 | a push followed by a pull of the same id restores a list that did not hold it |
| FollowUser.Follow | staff/daniel-hernandez/project/api/services/user/followUser.js:7-52 | the specification of one `followUser` call: how it settles and the users and log it leaves; its properties are the lemmas below |
| FollowUser.FollowUser | staff/daniel-hernandez/project/api/services/user/followUser.js:7-52 | the service on the database: it settles, and leaves users and log, exactly as the specification `Follow` does |
| FollowUser.InvalidIdsThrow | staff/daniel-hernandez/project/api/services/user/followUser.js:8-10 | empty or malformed ids throw InvalidArgumentError synchronously, with the message for the case, and touch nothing |
| FollowUser.MissingCallerFirst | staff/daniel-hernandez/project/api/services/user/followUser.js:21-23 | a missing caller rejects with CredentialError "User doesn't exist", whatever the target |
| FollowUser.MissingTargetSecond | staff/daniel-hernandez/project/api/services/user/followUser.js:31-33 | once the caller is found, a missing target rejects with NotFoundError "Target user doesn't exist" |
| FollowUser.SelfFollowRefused | staff/daniel-hernandez/project/api/services/user/followUser.js:35-37 | following oneself always fails without writes or log entries; the failure is the self-follow InvalidArgumentError exactly when the user exists and neither lookup fails |
| FollowUser.FailureKeepsLog | staff/daniel-hernandez/project/api/services/user/followUser.js:13-51 | a failed call never logs, and a failure before the writes leaves every user as it was |
| FollowUser.FollowStages | staff/daniel-hernandez/project/api/services/user/followUser.js:41-45 | the store after a call is untouched, or holds the caller's write, or holds both writes |
| FollowUser.OnlyGraphFieldsWritten | staff/daniel-hernandez/project/api/services/user/followUser.js:41-45 | no user is added or removed; only the caller's `following` and the target's `followers` can change |
| FollowUser.SuccessfulToggle | staff/daniel-hernandez/project/api/services/user/followUser.js:39-48 | with the discriminant taken from the target's followers alone, success pulls both sides when it held and pushes both sides otherwise, and logs one entry of the matching type |
| FollowUser.EdgeAfterSuccess | staff/daniel-hernandez/project/api/services/user/followUser.js:39-48 | after success exactly one entry is appended, and both sides hold the edge exactly when it was a follow |
| FollowUser.ToggleKeepsGraph | staff/daniel-hernandez/project/api/services/user/followUser.js:42 | the two writes together keep a symmetric follow graph without self-edges symmetric and without self-edges |
| FollowUser.SuccessPreservesGraph | staff/daniel-hernandez/project/api/services/user/followUser.js:39-48 | a successful call keeps the follow graph symmetric and free of self-edges |
| FollowUser.PartialFailureBreaksSymmetry | staff/daniel-hernandez/project/api/services/user/followUser.js:41-45 | when only the caller's write lands, the call rejects with "Failed to follow user: " and the edge is visible from one end only |
| FollowUser.ToggleTwiceRestores | staff/daniel-hernandez/project/api/services/user/followUser.js:39-48 | from a state where neither list holds the other id, two toggles restore both users and log a follow then an unfollow |
| GetUserInfo.Select | staff/daniel-hernandez/project/api/services/user/getUserInfo.js:27 | the projection keeps the target's id, username, followers and following as stored |
| GetUserInfo.View | staff/daniel-hernandez/project/api/services/user/getUserInfo.js:8-43 | the specification of one `getUserInfo` call: how it settles and the log it leaves; its properties are the lemmas below |
| GetUserInfo.GetUserInfo | staff/daniel-hernandez/project/api/services/user/getUserInfo.js:8-43 | the service on the database: no user is written, and the call settles and leaves the log exactly as the specification `View` does |
| GetUserInfo.InvalidIdsThrow | staff/daniel-hernandez/project/api/services/user/getUserInfo.js:9-11 | empty or malformed ids throw InvalidArgumentError before any lookup and log nothing |
| GetUserInfo.FailureClassified | staff/daniel-hernandez/project/api/services/user/getUserInfo.js:16-40 | a lookup or log-write failure rejects with "Fetching user info failed: " and its cause, a missing caller with CredentialError, a missing target with NotFoundError; no failure logs |
| GetUserInfo.SuccessLogsOneView | staff/daniel-hernandez/project/api/services/user/getUserInfo.js:36-42 | success exactly when both users exist and no step fails; it then appends one VIEWED_USER_PROFILE entry and returns the transformed projection |
| GetUserInfo.ResultDependsOnlyOnProjection | staff/daniel-hernandez/project/api/services/user/getUserInfo.js:27-42 | two stores that agree on the selected fields of the target give the same result and log |
| SocialData.Lower | staff/daniel-hernandez/socialcode/app/data.js:4 | lower-casing keeps the length and maps each character by itself: an ASCII capital to a small letter, anything else unchanged |
| SocialData.UserKeyCaseInsensitive | staff/daniel-hernandez/socialcode/app/data.js:4 | two usernames share a key exactly when they are equal up to case |
| SocialData.FoundUnderAnyCasing | staff/daniel-hernandez/socialcode/app/data.js:3-18 | a stored user is found under every casing of its name, and other lookups are unaffected |
| SocialData.FilterMembers | staff/daniel-hernandez/socialcode/app/data.js:29 | a post is in the result exactly when it is stored and satisfies the predicate |
| SocialData.FilterKeepsAll | staff/daniel-hernandez/socialcode/app/data.js:29 | a predicate every post satisfies keeps the list, in order |
| SocialData.FirstIndex | staff/daniel-hernandez/socialcode/app/data.js:59 | the index found is the least one whose post matches; none is found only when no post matches |
| SocialData.DeleteFirst | staff/daniel-hernandez/socialcode/app/data.js:57-62 | `deletePost`'s list: the first match spliced out, or the list as it was; stated by the three lemmas below |
| SocialData.DeleteFirstDropsFirstMatch | staff/daniel-hernandez/socialcode/app/data.js:59-62 | deleting removes one post, and the matching posts lose exactly their first, the one found |
| SocialData.DeleteFirstKeepsOthers | staff/daniel-hernandez/socialcode/app/data.js:59-62 | every post that does not match is kept, in order |
| SocialData.DeleteWithoutMatch | staff/daniel-hernandez/socialcode/app/data.js:59-66 | with no match the list is unchanged |
| SocialData.DataStore.FindUser | staff/daniel-hernandez/socialcode/app/data.js:3-10 | returns the record stored under the lower-cased key, if any |
| SocialData.DataStore.InsertUser | staff/daniel-hernandez/socialcode/app/data.js:12-18 | stores the record under its lower-cased key and touches no post |
| SocialData.DataStore.FindPosts | staff/daniel-hernandez/socialcode/app/data.js:20-32 | returns exactly the stored posts satisfying the predicate, in stored order, a missing list reading as empty |
| SocialData.DataStore.InsertPost | staff/daniel-hernandez/socialcode/app/data.js:34-49 | the stored list becomes the old one (empty if missing) plus the post with its generated id at the end |
| SocialData.DataStore.DeletePost | staff/daniel-hernandez/socialcode/app/data.js:51-67 | with a match the first one is spliced out and written back; without one the store is untouched |
| SocialLogic.FirstFailure | staff/daniel-hernandez/socialcode/api/public/app/logic.js:21-70 | a chain of checks passes exactly when all hold, and otherwise reports the error of the first that does not |
| SocialLogic.RegisterUser | staff/daniel-hernandez/socialcode/api/public/app/logic.js:9-70 | the checks `registerUser` runs before its request, in source order; stated by the three lemmas below |
| SocialLogic.RegisterReportsFirstFailure | staff/daniel-hernandez/socialcode/api/public/app/logic.js:21-70 | registration reports the first failing check of the fixed order, and the separate length check never fires |
| SocialLogic.RegisterEmptyFieldFirst | staff/daniel-hernandez/socialcode/api/public/app/logic.js:21-30 | an empty field is reported as "All fields are required" before any format check |
| SocialLogic.RegisterRefusesTakenName | staff/daniel-hernandez/socialcode/api/public/app/logic.js:67-70 | a name taken under any casing is a DuplicityError once the format checks pass |
| SocialLogic.CreatePostChecks | staff/daniel-hernandez/socialcode/api/public/app/logic.js:191-204 | passes exactly for a title of 1 to 50 characters, an image starting with "http" and a description of 1 to 200 |
| SocialLogic.CreatePostTitleFirst | staff/daniel-hernandez/socialcode/api/public/app/logic.js:192-194 | a bad title is reported before the image and description are looked at |
| SocialLogic.LoginChecks | staff/daniel-hernandez/socialcode/api/public/app/logic.js:97-106 | passes exactly for a valid username and password; a failure is a ContentError with no message |
| SocialLogic.Session.IsUserLoggedIn | staff/daniel-hernandez/socialcode/api/public/app/logic.js:144-146 | true exactly when a non-empty session username is stored |
| SocialLogic.Session.LogoutUser | staff/daniel-hernandez/socialcode/api/public/app/logic.js:148-150 | removes the session username, after which the user is not logged in |
| SocialLogic.Session.GetUsername | staff/daniel-hernandez/socialcode/api/public/app/logic.js:152-154 | returns the stored session username, if any |
| SocialLogic.Session.LoginUser | staff/daniel-hernandez/socialcode/api/public/app/logic.js:97-142 | bad fields throw and change nothing; an accepted login stores the name and logs in; a refusal reaches the callback and changes nothing |
| CreatePost.Validate | staff/daniel-hernandez/socialcode/api/logic/createPost.js:6-9 | passes exactly when the id, title (50), image and description (200) checks all pass; otherwise the failure of the first check that fails, in that order |
| CreatePost.Create | staff/daniel-hernandez/socialcode/api/logic/createPost.js:5-38 | the specification of one server `createPost` call: how it settles and the posts it leaves; its properties are the lemmas below |
| CreatePost.CreatePost | staff/daniel-hernandez/socialcode/api/logic/createPost.js:5-38 | the service on the store: users are never written, and the call settles and leaves the posts exactly as the specification `Create` does |
| CreatePost.InvalidFieldsThrow | staff/daniel-hernandez/socialcode/api/logic/createPost.js:6-9 | a failing field check throws synchronously and stores nothing |
| CreatePost.FailuresClassified | staff/daniel-hernandez/socialcode/api/logic/createPost.js:14-37 | lookup and insert failures reject with "failed to create post: " and the cause, a missing user with MatchError "user not found"; no failure stores a post |
| CreatePost.SuccessAddsOnePost | staff/daniel-hernandez/socialcode/api/logic/createPost.js:24-37 | success exactly when the checks pass, the user exists and no step fails; one post is appended, authored by the caller, with the given fields and no likes |
| Auth.Reduce | staff/daniel-hernandez/project/app/src/App.jsx:50-64 | the reducer passed to `useReducer`; stated action by action in ReduceFields and over traces in the lemmas below |
| Auth.ReduceFields | staff/daniel-hernandez/project/app/src/App.jsx:50-64 | RESTORE_TOKEN sets the token and ends loading, SIGN_IN clears the sign-out flag and sets the token, SIGN_OUT sets it and drops the token, each keeping the rest; other actions change nothing |
| Auth.SignOutIdempotent | staff/daniel-hernandez/project/app/src/App.jsx:57-58 | signing out twice is signing out once |
| Auth.LoadingStaysCleared | staff/daniel-hernandez/project/app/src/App.jsx:50-64 | once loading has ended no action restarts it |
| Auth.LoadingUntilRestored | staff/daniel-hernandez/project/app/src/App.jsx:53-63 | from the initial state the app is loading exactly until a token is restored |
| Auth.SignoutFollowsLastSession | staff/daniel-hernandez/project/app/src/App.jsx:55-63 | from the initial state the sign-out flag says whether the latest sign-in or sign-out was a sign-out |
| Auth.TokenFollowsLastWrite | staff/daniel-hernandez/project/app/src/App.jsx:53-63 | from the initial state the token is the one the latest restore or sign-in carried, or none after a later sign-out or before any |
| Auth.NotifyStep | staff/daniel-hernandez/project/app/src/App.jsx:33-43 | one `notify` call on the toast state; stated by the three lemmas below and the `Notifier.Notify` method |
| Auth.NotifyWhileActiveIgnored | staff/daniel-hernandez/project/app/src/App.jsx:34 | while a toast is active `notify` changes nothing and does not throw |
| Auth.NotifyInvalidTypeThrows | staff/daniel-hernandez/project/app/src/App.jsx:35-38 | an invalid type throws InvalidArgumentError after clearing the message, leaving the gate free |
| Auth.NotifyValidShows | staff/daniel-hernandez/project/app/src/App.jsx:37-43 | a valid call on a free gate shows the message with its type and makes the toast active |
| Auth.ActiveToastKept | staff/daniel-hernandez/project/app/src/App.jsx:33-48 | no series of calls replaces an active toast |
| Auth.FirstValidCallShown | staff/daniel-hernandez/project/app/src/App.jsx:33-48 | from a free gate the first call with a valid type is shown and every later call is ignored |
| Auth.Notifier.constructor | staff/daniel-hernandez/project/app/src/App.jsx:26-30 | starts with no message, type "wrong" and the gate free |
| Auth.Notifier.Notify | staff/daniel-hernandez/project/app/src/App.jsx:33-43 | the toast and the outcome are those of the specification `NotifyStep` |
| Auth.Notifier.Expire | staff/daniel-hernandez/project/app/src/App.jsx:44-47 | the timer hides the message and frees the gate |
| Auth.RestoreSession | staff/daniel-hernandez/project/app/src/App.jsx:66-106 | the startup effect's notifications and dispatch; stated by the three lemmas below |
| Auth.RestoreOutcomes | staff/daniel-hernandez/project/app/src/App.jsx:66-106 | SIGN_OUT exactly for a truthy stored token that fails validation once the storage is cleared; RESTORE_TOKEN, with the stored token, exactly when reading and setup succeed and the token is falsy or valid |
| Auth.RestoreNotesValid | staff/daniel-hernandez/project/app/src/App.jsx:66-106 | the effect notifies at most once, always with a valid type, and always when it dispatches nothing |
| Auth.RestoreEffectOnInitial | staff/daniel-hernandez/project/app/src/App.jsx:85-104 | a restore ends loading with the stored token; a sign-out leaves the state loading |
| TrackStore.Store.constructor | staff/daniel-hernandez/project/app/src/store/track.jsx:4 | the current track id starts as null |
| TrackStore.Store.SetCurrentTrackId | staff/daniel-hernandez/project/app/src/store/track.jsx:7 | afterwards the current id is the given one; the same id changes nothing; no other field changes |
| TrackStore.Store.SetPlayRequest | staff/daniel-hernandez/project/app/src/hooks/usePlayerHandlers.jsx:89-90 | records the latest request id and leaves the current track alone |
| Player.SkipsToNext | staff/daniel-hernandez/project/app/src/hooks/usePlayer.jsx:194 | the condition under which `skipToNext` moves; stated by the skip lemmas below |
| Player.PreviousMoveFor | staff/daniel-hernandez/project/app/src/hooks/usePlayer.jsx:207-211 | the branch `skipToPrevious` takes; stated by the skip lemmas below |
| Player.SkipNextStaysInQueue | staff/daniel-hernandez/project/app/src/hooks/usePlayer.jsx:189-200 | skipping forward stays inside the queue, and on the last track nothing moves |
| Player.SkipPreviousStaysInQueue | staff/daniel-hernandez/project/app/src/hooks/usePlayer.jsx:202-215 | skipping back stays inside the queue; past three seconds it rewinds whatever the index; at index 0 within three seconds nothing happens |
| Player.NextThenPreviousReturns | staff/daniel-hernandez/project/app/src/hooks/usePlayer.jsx:189-215 | a skip forward followed within three seconds by a skip back returns to the starting track |
| Player.ArtistLabel | staff/daniel-hernandez/project/app/src/hooks/usePlayer.jsx:101-107 | more than two artists: the first two joined by ", " and "..."; otherwise all of them joined by ", " |
| Player.LabelIgnoresLaterArtists | staff/daniel-hernandez/project/app/src/hooks/usePlayer.jsx:101-107 | artists after the second do not change the label |
| Player.Setup | staff/daniel-hernandez/project/app/src/hooks/usePlayer.jsx:19-79 | the calls one `setup` makes and how it settles; stated by the three setup lemmas below |
| Player.SetupRejectsOnlyThroughOuterCatch | staff/daniel-hernandez/project/app/src/hooks/usePlayer.jsx:19-79 | `setup` rejects exactly when setting the player up, setting its options, reading the storage, or recording the reached saved track fails, with "Failed to setup player: " and the first such cause; parse, info and load failures never reject |
| Player.SetupUnparsedLoadsNothing | staff/daniel-hernandez/project/app/src/hooks/usePlayer.jsx:31-38 | a saved track that does not parse loads nothing and sets no track |
| Player.SetupSeeksOnlyToSavedProgress | staff/daniel-hernandez/project/app/src/hooks/usePlayer.jsx:47-74 | a seek happens only to a saved non-zero progress, after fetching, setting and loading the saved track |
| Player.Play | staff/daniel-hernandez/project/app/src/hooks/usePlayer.jsx:81-119 | the calls one `play` makes and how it settles; stated by the four play lemmas below |
| Player.StaleRequestDoesNothing | staff/daniel-hernandez/project/app/src/hooks/usePlayer.jsx:83 | a request that is not the latest at the first checkpoint makes no call |
| Player.PlayGuardedByCheckpoints | staff/daniel-hernandez/project/app/src/hooks/usePlayer.jsx:81-114 | the track is loaded exactly when the request was the latest at the first two checkpoints and the info arrived; playback starts exactly when it was the latest at all three and nothing failed before |
| Player.PlayFailureMapped | staff/daniel-hernandez/project/app/src/hooks/usePlayer.jsx:115-117 | a failure is rethrown as Error('AbortError') when aborted, and otherwise as a SystemError starting "Player failed: " |
| Player.UndisturbedPlayStarts | staff/daniel-hernandez/project/app/src/hooks/usePlayer.jsx:81-114 | an undisturbed request sets the track, renews the controller, fetches, loads with the artist label, starts, and resolves |
| PlayerHandlers.NextLoopMode | staff/daniel-hernandez/project/app/src/hooks/usePlayerHandlers.jsx:69 | the new mode always differs from the old, and is Off or Track |
| PlayerHandlers.ToggleTwiceRestores | staff/daniel-hernandez/project/app/src/hooks/usePlayerHandlers.jsx:69 | from Off or Track, two toggles restore the mode |
| PlayerHandlers.ToggleLoop | staff/daniel-hernandez/project/app/src/hooks/usePlayerHandlers.jsx:58-77 | `handleToggleLoop`'s requested mode and notifications; stated by ToggleLoopSteps |
| PlayerHandlers.ToggleLoopSteps | staff/daniel-hernandez/project/app/src/hooks/usePlayerHandlers.jsx:58-77 | a failed read sets no mode; otherwise the toggled mode is set; a notification follows exactly when a step fails |
| PlayerHandlers.Trunc | staff/daniel-hernandez/project/app/src/hooks/usePlayerHandlers.jsx:24 | the integer part, rounded toward zero |
| PlayerHandlers.PlayPause | staff/daniel-hernandez/project/app/src/hooks/usePlayerHandlers.jsx:14-38 | `handlePlayPause`'s calls and notifications; stated by the four lemmas below |
| PlayerHandlers.RestartTestReducesToPosition | staff/daniel-hernandez/project/app/src/hooks/usePlayerHandlers.jsx:23-24 | in the paused-or-ready branch the restart test holds exactly when the truncated position has reached the truncated duration: the ended and ratio tests add nothing |
| PlayerHandlers.PlayingOnlyPauses | staff/daniel-hernandez/project/app/src/hooks/usePlayerHandlers.jsx:17-22 | while playing the handler only pauses, and a failed pause notifies "wow... pausing the track failed." |
| PlayerHandlers.PausedResumes | staff/daniel-hernandez/project/app/src/hooks/usePlayerHandlers.jsx:23-37 | paused or ready: a restart first exactly when the position reached the end, then always a resume; the notes are exactly the failed wanted restart, then the failed resume |
| PlayerHandlers.OtherStatesIgnored | staff/daniel-hernandez/project/app/src/hooks/usePlayerHandlers.jsx:14-38 | in any other playback state the handler does nothing |
| PlayerHandlers.HandlePlayRun | staff/daniel-hernandez/project/app/src/hooks/usePlayerHandlers.jsx:87-98 | `handlePlay` against the corrected store; stated by the method and the three lemmas below |
| PlayerHandlers.HandlePlay | staff/daniel-hernandez/project/app/src/hooks/usePlayerHandlers.jsx:87-98 | records the request and the track in the store, and makes the calls and notifications of the specification `HandlePlayRun` |
| PlayerHandlers.RecordedRequestPassesFirstCheckpoint | staff/daniel-hernandez/project/app/src/hooks/usePlayerHandlers.jsx:89-92 | with the request recorded, `play` always passes its first checkpoint |
| PlayerHandlers.AbortSwallowed | staff/daniel-hernandez/project/app/src/hooks/usePlayerHandlers.jsx:93-97 | an aborted failure is silent, any other failure is notified once, and a run that does not fail notifies nothing |
| PlayerHandlers.UndisturbedHandlePlayStarts | staff/daniel-hernandez/project/app/src/hooks/usePlayerHandlers.jsx:87-98 | an undisturbed request starts playback and notifies nothing |
| PlayerHandlers.HandlePlayAsWritten | staff/daniel-hernandez/project/app/src/hooks/usePlayerHandlers.jsx:12 | `handlePlay` against the store as written; stated by AsWrittenNeverPlays |
| PlayerHandlers.AsWrittenNeverPlays | staff/daniel-hernandez/project/app/src/hooks/usePlayerHandlers.jsx:12 | as written, choosing a track makes no player call and always notifies "oopsie-daisy! something went wrong.." |
| PlayerHandlers.AsWrittenPlayStopsAtFirstCheckpoint | staff/daniel-hernandez/project/app/src/hooks/usePlayer.jsx:83 | as written, `play` stops at its first checkpoint, since the store never holds a request |
| Playlist.Trim | staff/daniel-hernandez/project/api/data/models/Playlist.js:9 | the result is no longer than the input and neither starts nor ends with white space |
| Playlist.TrimCutsOnlySpace | staff/daniel-hernandez/project/api/data/models/Playlist.js:9 | the trimmed string is a slice of the input, and everything cut off either end is white space |
| Playlist.TrimIdempotent | staff/daniel-hernandez/project/api/data/models/Playlist.js:9 | trimming a trimmed string changes nothing |
| Playlist.TrimAllSpace | staff/daniel-hernandez/project/api/data/models/Playlist.js:9 | white space alone trims to the empty string |
| Playlist.Create | staff/daniel-hernandez/project/api/data/models/Playlist.js:4-44 | a new playlist through the schema: a document with the defaults, or the failing fields; stated by the four lemmas below |
| Playlist.FailingFields | staff/daniel-hernandez/project/api/data/models/Playlist.js:4-44 | a field is reported exactly when its constraint fails: a name missing or blank once trimmed, a trimmed description over 300, an owner missing or not an object id, a track that is not an object id |
| Playlist.CreateReportsEachField | staff/daniel-hernandez/project/api/data/models/Playlist.js:4-44 | a document comes out exactly when the trimmed name is non-empty, the trimmed description is at most 300, the owner and the tracks are object ids; each failing field is reported |
| Playlist.CreatedDocumentValid | staff/daniel-hernandez/project/api/data/models/Playlist.js:6-34 | a document holds a non-empty trimmed name, a trimmed description within 300, an object-id owner and object-id tracks |
| Playlist.CreateDefaults | staff/daniel-hernandez/project/api/data/models/Playlist.js:13-41 | given only a name and an owner, the description is empty, the playlist public, the track list empty and the follower total 0 |
| Playlist.BlankNameRefused | staff/daniel-hernandez/project/api/data/models/Playlist.js:6-12 | a name of white space alone is refused as missing |
| ForEachDemo.ForEach | staff/daniel-hernandez/playground/arrays/native-method-remade/Array.prototype.forEach.demo.js:3-7 | one callback call per index, in ascending order, each with the element, its index and the same array, which is not modified |
| ForEachDemo.AssignAt | staff/daniel-hernandez/playground/arrays/native-method-remade/Array.prototype.forEach.demo.js:23 | assigning at the list's length appends; assigning inside replaces one element; the others are kept |
| ForEachDemo.CollectRecords | staff/daniel-hernandez/playground/arrays/native-method-remade/Array.prototype.forEach.demo.js:18-37 | one record per car, in order, holding the car, its index and the array |

## Left out

- The parallelism of `Promise.all` in `followUser`. The two writes run one after the other, caller first, and one fault stops the run. Two things are not modelled: a target write that lands while the caller's write fails, and concurrent toggles interleaving.
- Object ids: an id is the canonical 24 lower-case hex digits. The id validator's own source is not part of this model. Upper-case hex and 12-byte ids, which the storage engine also accepts, are not modelled.
- GetUserInfo.GetUserInfo: `transformDocument` is a function parameter, since its source is not part of this model. The richer profile content that its tests expect (popular tracks, counts as strings) is therefore not stated.
- CreatePost.Validate: the id, text and url validators are function parameters, since their source is not part of this model. Only their order and the first-failure rule are stated.
- SocialLogic.RegisterUser: `EMAIL_REGEX` is a predicate parameter.
- The network halves of `registerUser`, `loginUser`, `createPost`, `getAllPosts` and `deletePost` in the social app's browser logic. The server's answer to a login is a parameter.
- JavaScript truthiness and typing: every falsy field is modelled as the empty string, and values that are not strings are not modelled.
- Lengths are counted in Unicode scalar values, not UTF-16 code units. This differs only for characters outside the Basic Multilingual Plane.
- `toLowerCase` is modelled on ASCII letters only.
- The JSON encoding of keys and values, and the browser storage itself. Each is a field of `DataStore` or `Session`.
- SocialData.DataStore.InsertPost: the id generator is a parameter. The caller's own post object, which the code also modifies, is not modelled.
- The creation date of a post is the clock's reading, passed as a parameter.
- The `signIn`, `signOut`, `signUp` and `checkEmail` callbacks of the auth context. They are network and storage wiring around the reducer's SIGN_IN and SIGN_OUT.
- TrackStore.Store.SetCurrentTrackId: setting the same id hands the store the value `false`. The model reads that as no change; how the store library merges a non-object value depends on its version.
- The TrackPlayer library, the network, the secure store and the key-value storage. Each call's failure and result is a parameter of a run; the two storage reads of `setup` share one failure.
- Player.PlayFailureMapped: whether a request was aborted is a parameter. The hook's callbacks capture the abort controller of their first render, and that capture is not modelled.
- The skip functions' error wrapping ("Failed to skip to next track: " and similar) is not modelled; each is a single try around one player call.
- PlayerHandlers.Trunc: `parseInt` of a number is its integer part, on reals. Floating-point rounding, exponent notation of very small or very large numbers, and NaN are not modelled.
- The percentage test is modelled on exact reals.
- The haptic feedback calls and the console output of the hooks and the demo.
- The `forEach` callbacks are not modelled as changing the array while it is iterated. The demo's callbacks do not change it.
- Playlist.CreateReportsEachField: `timestamps`, the indexes, and references to other collections are not modelled. A `null` given for a field is not distinguished from a field left out.

## Findings

| source | as written | input that shows it | evidently intended | confidence | as-written member | corrected member |
|---|---|---|---|---|---|---|
| staff/daniel-hernandez/project/app/src/hooks/usePlayerHandlers.jsx:12 | the handler takes `setPlayRequest` from the track store. That store defines only `currentTrackId` and `setCurrentTrackId`, so the call throws a TypeError before `play` runs. `play` itself compares the store's `playRequest`, which is never set, with the request id. | any call `handlePlay(track)` | the store holds `playRequest` and `setPlayRequest`. The handler records its request, and `play` passes its first checkpoint and plays the track. | medium, not executed | PlayerHandlers.AsWrittenNeverPlays | PlayerHandlers.HandlePlay |
