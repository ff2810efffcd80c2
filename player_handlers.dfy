/** The player's UI handlers: the loop toggle, play/pause, and play of a
    chosen track, which records a fresh play request before calling the
    player's `play`. Each handler catches the player's errors and turns them
    into notifications. */
module PlayerHandlers {
  import opened Common
  import opened Player
  import TrackStore

  // ---------------------------------------------------------------------
  // Loop toggle
  // ---------------------------------------------------------------------

  datatype RepeatMode = Off | Track | Queue

  /** Looping off turns to looping the track; any other mode turns it off. */
  function NextLoopMode(m: RepeatMode): (next: RepeatMode)
    ensures next != m
    ensures next == Off || next == Track
  {
    if m == Off then Track else Off
  }

  /** Toggling twice from either mode the toggle produces restores it. */
  lemma ToggleTwiceRestores(m: RepeatMode)
    requires m != Queue
    ensures NextLoopMode(NextLoopMode(m)) == m
  {
  }

  const LoopReadFailed := "failed to get loop mode !"
  const LoopSetFailed := "failed to toggle loop mode sorry.."

  /** The mode the handler asks the player for, if any, and its notifications. */
  datatype ToggleRun = ToggleRun(requested: Option<RepeatMode>, notes: seq<string>)

  /** `handleToggleLoop`: `current` is the mode read from the player (`None`
      when reading fails); `setFails` says whether setting the new mode fails. */
  function ToggleLoop(current: Option<RepeatMode>, setFails: bool): ToggleRun {
    match current
    case None => ToggleRun(None, [LoopReadFailed])
    case Some(m) => ToggleRun(Some(NextLoopMode(m)), if setFails then [LoopSetFailed] else [])
  }

  /** A failed read asks for no mode; otherwise the toggled mode is asked for,
      and a notification follows exactly when either step fails. */
  lemma ToggleLoopSteps(current: Option<RepeatMode>, setFails: bool)
    ensures ToggleLoop(current, setFails).requested.None? <==> current.None?
    ensures current.Some? ==> ToggleLoop(current, setFails).requested == Some(NextLoopMode(current.value))
    ensures ToggleLoop(current, setFails).notes == [] <==> current.Some? && !setFails
  {
  }

  // ---------------------------------------------------------------------
  // Play/pause
  // ---------------------------------------------------------------------

  datatype PlaybackState = Playing | Paused | Ready | Ended | OtherState(name: string)

  /** `parseInt` of a number: its integer part, rounded toward zero. */
  function Trunc(x: real): (n: int)
    ensures x >= 0.0 ==> n as real <= x < n as real + 1.0
    ensures x < 0.0 ==> n as real - 1.0 < x <= n as real
  {
    if x >= 0.0 then x.Floor else -((-x).Floor)
  }

  /** The restart test as written: ended, or the truncated position reached the
      truncated duration, or their ratio is exactly one hundred percent (a zero
      duration makes that ratio infinite or undefined, never 100). */
  predicate RestartWanted(state: PlaybackState, position: real, duration: real) {
    var p, d := Trunc(position), Trunc(duration);
    state == Ended || p >= d || (d != 0 && (p as real / d as real) * 100.0 == 100.0)
  }

  datatype HandlerCall = Pause | Restart | Resume

  const PauseFailed := "wow... pausing the track failed."
  const RestartFailed := "couldn't restart the track.. 😅"
  const ResumeFailed := "oof, couldn't resume the track.."

  /** The player calls a handler makes, in order, and its notifications. */
  datatype Handled = Handled(calls: seq<HandlerCall>, notes: seq<string>)

  /** `handlePlayPause`, given the playback state, the progress, and which
      player calls fail. A failed restart is notified and resuming goes on. */
  function PlayPause(state: PlaybackState, position: real, duration: real,
                     pauseFails: bool, restartFails: bool, resumeFails: bool): Handled
  {
    if state == Playing then Handled([Pause], if pauseFails then [PauseFailed] else [])
    else if state == Paused || state == Ready then
      var resume := Handled([Resume], if resumeFails then [ResumeFailed] else []);
      if RestartWanted(state, position, duration) then
        Handled([Restart] + resume.calls, (if restartFails then [RestartFailed] else []) + resume.notes)
      else resume
    else Handled([], [])
  }

  /** Inside the paused-or-ready branch the ended test never holds and the
      ratio test adds nothing: a restart is wanted exactly when the truncated
      position has reached the truncated duration. */
  lemma RestartTestReducesToPosition(state: PlaybackState, position: real, duration: real)
    requires state == Paused || state == Ready
    ensures RestartWanted(state, position, duration) <==> Trunc(position) >= Trunc(duration)
  {
    var p, d := Trunc(position), Trunc(duration);
    if d != 0 && (p as real / d as real) * 100.0 == 100.0 {
      assert p as real / d as real == 1.0;
      assert p as real == d as real;
    }
  }

  /** Playing: the handler only pauses, and a failed pause is notified. */
  lemma PlayingOnlyPauses(position: real, duration: real, pauseFails: bool, restartFails: bool, resumeFails: bool)
    ensures PlayPause(Playing, position, duration, pauseFails, restartFails, resumeFails)
            == Handled([Pause], if pauseFails then [PauseFailed] else [])
  {
  }

  /** Paused or ready: the handler restarts first exactly when the position has
      reached the end, and always resumes last; a wanted restart that fails is
      notified before a failed resume, and resuming goes on after it. */
  lemma PausedResumes(state: PlaybackState, position: real, duration: real,
                      pauseFails: bool, restartFails: bool, resumeFails: bool)
    requires state == Paused || state == Ready
    ensures var h := PlayPause(state, position, duration, pauseFails, restartFails, resumeFails);
            h.calls == if Trunc(position) >= Trunc(duration) then [Restart, Resume] else [Resume]
    ensures var h := PlayPause(state, position, duration, pauseFails, restartFails, resumeFails);
            h.notes == (if Trunc(position) >= Trunc(duration) && restartFails then [RestartFailed] else [])
                       + (if resumeFails then [ResumeFailed] else [])
  {
    RestartTestReducesToPosition(state, position, duration);
  }

  /** In any other state the handler does nothing. */
  lemma OtherStatesIgnored(state: PlaybackState, position: real, duration: real,
                           pauseFails: bool, restartFails: bool, resumeFails: bool)
    requires state != Playing && state != Paused && state != Ready
    ensures PlayPause(state, position, duration, pauseFails, restartFails, resumeFails) == Handled([], [])
  {
  }

  // ---------------------------------------------------------------------
  // Playing a chosen track
  // ---------------------------------------------------------------------

  const PlayFailed := "oopsie-daisy! something went wrong.."

  /** What `play` meets after its first checkpoint: the store's `playRequest`
      at the two later checkpoints and the step failures. */
  datatype Later = Later(
    request2: Option<int>,
    request3: Option<int>,
    infoFailure: Option<string>,
    loadFailure: Option<string>,
    startFailure: Option<string>,
    aborted: bool)

  /** The handler's catch: an error whose message is 'AbortError' is dropped,
      any other error is notified. */
  function Caught(outcome: Outcome<Error>): seq<string> {
    if outcome.Fail? && outcome.error.message != AbortMessage then [PlayFailed] else []
  }

  /** The player calls a play handler causes, in order, and its notifications. */
  datatype PlayHandled = PlayHandled(calls: seq<Call>, notes: seq<string>)

  /** `handlePlay(track)` against a store that holds `playRequest`: the
      request id `now` is recorded, so `play` sees it at its first checkpoint. */
  function HandlePlayRun(item: Item, now: int, later: Later): PlayHandled {
    var run := Play(item, now, PlayEnv(Some(now), later.request2, later.request3,
                                       later.infoFailure, later.loadFailure, later.startFailure, later.aborted));
    PlayHandled(run.calls, Caught(run.outcome))
  }

  /** `handlePlay` on the corrected store: record the request, set the track,
      and run `play` for it. */
  method HandlePlay(store: TrackStore.Store, item: Item, now: int, later: Later) returns (calls: seq<Call>, notes: seq<string>)
    modifies store
    ensures store.playRequest == Some(now)
    ensures store.currentTrackId == Some(item.id)
    ensures PlayHandled(calls, notes) == HandlePlayRun(item, now, later)
  {
    store.SetPlayRequest(now);
    var env := PlayEnv(store.playRequest, later.request2, later.request3,
                       later.infoFailure, later.loadFailure, later.startFailure, later.aborted);
    if env.request1 == Some(now) {
      store.SetCurrentTrackId(item.id);
    }
    var run := Play(item, now, env);
    calls := run.calls;
    notes := Caught(run.outcome);
  }

  /** With the request recorded, `play` always passes its first checkpoint:
      the track is set and its info fetched. */
  lemma RecordedRequestPassesFirstCheckpoint(item: Item, now: int, later: Later)
    ensures var calls := HandlePlayRun(item, now, later).calls;
            |calls| >= 3 && calls[..3] == [SetCurrentTrack(item.id), RenewController, FetchInfo(item.id)]
  {
  }

  /** An aborted request fails silently; any other failure is notified once;
      a run that does not fail notifies nothing. */
  lemma AbortSwallowed(item: Item, now: int, later: Later)
    ensures var run := Play(item, now, PlayEnv(Some(now), later.request2, later.request3,
                                               later.infoFailure, later.loadFailure, later.startFailure, later.aborted));
            HandlePlayRun(item, now, later).notes == if run.outcome.Fail? && !later.aborted then [PlayFailed] else []
  {
    var run := Play(item, now, PlayEnv(Some(now), later.request2, later.request3,
                                       later.infoFailure, later.loadFailure, later.startFailure, later.aborted));
    if run.outcome.Fail? {
      PlayFailureMapped(item, now, PlayEnv(Some(now), later.request2, later.request3,
                                           later.infoFailure, later.loadFailure, later.startFailure, later.aborted));
      if !later.aborted {
        assert run.outcome.error.message != AbortMessage by {
          assert PlayPrefix <= run.outcome.error.message;
          assert run.outcome.error.message[..|PlayPrefix|] == PlayPrefix;
        }
      }
    }
  }

  /** An undisturbed request plays the track and notifies nothing. */
  lemma UndisturbedHandlePlayStarts(item: Item, now: int, later: Later)
    requires later.request2 == later.request3 == Some(now)
    requires later.infoFailure.None? && later.loadFailure.None? && later.startFailure.None?
    ensures StartPlayback in HandlePlayRun(item, now, later).calls
    ensures HandlePlayRun(item, now, later).notes == []
  {
    UndisturbedPlayStarts(item, now, PlayEnv(Some(now), later.request2, later.request3,
                                             later.infoFailure, later.loadFailure, later.startFailure, later.aborted));
  }

  // ---------------------------------------------------------------------
  // Playing a chosen track, against the store as written
  // ---------------------------------------------------------------------

  const NotAFunction := "setPlayRequest is not a function"

  /** The store as written holds only `currentTrackId` and its setter: the
      handler's `setPlayRequest` is undefined, and `playRequest` reads as
      undefined. Calling the undefined setter throws a TypeError before `play`
      is reached; the handler's catch sees a message other than 'AbortError'. */
  function HandlePlayAsWritten(item: Item, now: int, later: Later): PlayHandled {
    PlayHandled([], Caught(Fail(TypeError(NotAFunction))))
  }

  /** As written, choosing a track never plays it: nothing reaches the player
      and the user is told something went wrong, whatever the player would do. */
  lemma AsWrittenNeverPlays(item: Item, now: int, later: Later)
    ensures HandlePlayAsWritten(item, now, later) == PlayHandled([], [PlayFailed])
  {
    assert NotAFunction != AbortMessage by {
      assert NotAFunction[0] != AbortMessage[0];
    }
  }

  /** As written, even a direct call of `play` stops at its first checkpoint,
      since the store never holds a request id. */
  lemma AsWrittenPlayStopsAtFirstCheckpoint(item: Item, requestId: int, later: Later)
    ensures Play(item, requestId, PlayEnv(None, later.request2, later.request3, later.infoFailure,
                                          later.loadFailure, later.startFailure, later.aborted))
            == Run([], Pass)
  {
  }
}
