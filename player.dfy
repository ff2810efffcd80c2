/** The decision rules of the player hook: when skipping moves, how the
    artist label is written, and the steps of `setup` and `play`, with the
    player library's calls and the network left abstract. A run of `setup` or
    `play` is described by the calls it makes on the player, in order, and
    how it settles. */
module Player {
  import opened Common

  // ---------------------------------------------------------------------
  // Skipping
  // ---------------------------------------------------------------------

  /** `skipToNext` moves on only when a track is active and is not the last
      of the queue; an unknown active index compares false and stays. */
  predicate SkipsToNext(queueLength: nat, activeIndex: Option<int>) {
    activeIndex.Some? && activeIndex.value < queueLength - 1
  }

  datatype PreviousMove = SeekToStart | StepBack | Stay

  /** `skipToPrevious`: past the first three seconds it rewinds the track,
      otherwise it steps back unless the first track is active. */
  function PreviousMoveFor(activeIndex: Option<int>, position: real): PreviousMove {
    if position > 3.0 then SeekToStart
    else if activeIndex.Some? && activeIndex.value > 0 then StepBack
    else Stay
  }

  /** The active index after a skip to the next track. */
  function IndexAfterNext(queueLength: nat, activeIndex: Option<int>): Option<int> {
    if SkipsToNext(queueLength, activeIndex) then Some(activeIndex.value + 1) else activeIndex
  }

  /** The active index after a skip to the previous track. */
  function IndexAfterPrevious(activeIndex: Option<int>, position: real): Option<int> {
    if PreviousMoveFor(activeIndex, position) == StepBack then Some(activeIndex.value - 1) else activeIndex
  }

  /** Skipping forward never leaves the queue, and stays on the last track. */
  lemma SkipNextStaysInQueue(queueLength: nat, i: int)
    requires 0 <= i < queueLength
    ensures var j := IndexAfterNext(queueLength, Some(i));
            j.Some? && 0 <= j.value < queueLength
    ensures i == queueLength - 1 ==> IndexAfterNext(queueLength, Some(i)) == Some(i)
  {
  }

  /** Skipping backwards never leaves the queue; it rewinds past three seconds
      whatever the index, and stays on the first track otherwise. */
  lemma SkipPreviousStaysInQueue(queueLength: nat, i: int, position: real)
    requires 0 <= i < queueLength
    ensures var j := IndexAfterPrevious(Some(i), position);
            j.Some? && 0 <= j.value < queueLength
    ensures position > 3.0 ==> PreviousMoveFor(Some(i), position) == SeekToStart
    ensures position <= 3.0 && i == 0 ==> PreviousMoveFor(Some(i), position) == Stay
  {
  }

  /** A skip forward followed, within three seconds, by a skip back returns to
      the track the listener started from. */
  lemma NextThenPreviousReturns(queueLength: nat, i: int, position: real)
    requires 0 <= i < queueLength - 1 && position <= 3.0
    ensures IndexAfterPrevious(IndexAfterNext(queueLength, Some(i)), position) == Some(i)
  {
  }

  // ---------------------------------------------------------------------
  // The artist label
  // ---------------------------------------------------------------------

  /** The names joined by ", ". */
  function Join(names: seq<string>): string {
    if names == [] then ""
    else if |names| == 1 then names[0]
    else names[0] + ", " + Join(names[1..])
  }

  /** Appending a name adds it after a ", ". */
  lemma {:induction false} JoinSnoc(names: seq<string>, last: string)
    requires names != []
    ensures Join(names + [last]) == Join(names) + ", " + last
  {
    if |names| == 1 {
      assert names + [last] == [names[0], last];
    } else {
      assert (names + [last])[1..] == names[1..] + [last];
      JoinSnoc(names[1..], last);
    }
  }

  /** The label of a track: the first two artists and "..." when there are
      more than two, otherwise every artist. */
  function ArtistLabel(usernames: seq<string>): (shown: string)
    ensures |usernames| > 2 ==> shown == usernames[0] + ", " + usernames[1] + "..."
    ensures |usernames| == 2 ==> shown == usernames[0] + ", " + usernames[1]
    ensures |usernames| == 1 ==> shown == usernames[0]
    ensures usernames == [] ==> shown == ""
  {
    if |usernames| > 2 then
      assert Join(usernames[..2]) == usernames[0] + ", " + usernames[1] by {
        JoinSnoc([usernames[0]], usernames[1]);
        assert usernames[..2] == [usernames[0]] + [usernames[1]];
      }
      Join(usernames[..2]) + "..."
    else if |usernames| == 2 then
      assert Join(usernames[1..]) == usernames[1];
      Join(usernames)
    else Join(usernames)
  }

  /** Artists after the second do not change the label. */
  lemma LabelIgnoresLaterArtists(a: seq<string>, b: seq<string>)
    requires |a| > 2 && |b| > 2 && a[..2] == b[..2]
    ensures ArtistLabel(a) == ArtistLabel(b)
  {
    assert a[0] == a[..2][0] && a[1] == a[..2][1];
    assert b[0] == b[..2][0] && b[1] == b[..2][1];
  }

  // ---------------------------------------------------------------------
  // The calls a run makes
  // ---------------------------------------------------------------------

  datatype Call =
    | SetupPlayer
    | UpdateOptions
    | FetchInfo(trackId: string)
    | SetCurrentTrack(trackId: string)
    | RenewController
    | Load(trackId: string, artist: string)
    | SeekTo(position: real)
    | StartPlayback

  /** A run: the calls made, in order, and how it settles. */
  datatype Run = Run(calls: seq<Call>, outcome: Outcome<Error>)

  // ---------------------------------------------------------------------
  // setup
  // ---------------------------------------------------------------------

  const SetupPrefix := "Failed to setup player: "

  /** A track saved by the previous session, as far as `setup` reads it. */
  datatype SavedTrack = SavedTrack(id: string, artist: string)

  /** What `setup` meets: whether the player can be set up and its options
      set, whether the key-value storage can be read, the saved track's text
      (`None` when absent) and how it parses, the saved progress (`None` when
      absent), and the later step failures, each with its message. A failed
      seek is the last step either way, so it leaves no trace in a run. */
  datatype SetupEnv = SetupEnv(
    setupFailure: Option<string>,
    optionsFailure: Option<string>,
    readFailure: Option<string>,
    stored: Option<string>,
    parse: string -> Option<SavedTrack>,
    infoFailure: Option<string>,
    setTrackFailure: Option<string>,
    loadFailure: Option<string>,
    progress: Option<real>)

  /** The error the outer catch of `setup` rethrows. */
  function SetupError(cause: string): Error {
    SystemError(SetupPrefix + cause)
  }

  /** `setup`: a failure to set the player up, to set its options, to read the
      storage or to record the current track rejects through the outer catch;
      a track that does not parse, and a failure to fetch its info or to load
      it, is logged and ends the run quietly. */
  function Setup(env: SetupEnv): Run {
    if env.setupFailure.Some? then Run([SetupPlayer], Fail(SetupError(env.setupFailure.value)))
    else if env.optionsFailure.Some? then Run([SetupPlayer, UpdateOptions], Fail(SetupError(env.optionsFailure.value)))
    else if env.readFailure.Some? then Run([SetupPlayer, UpdateOptions], Fail(SetupError(env.readFailure.value)))
    else if env.stored.None? || env.stored.value == "" then Run([SetupPlayer, UpdateOptions], Pass)
    else match env.parse(env.stored.value)
      case None => Run([SetupPlayer, UpdateOptions], Pass)
      case Some(track) =>
        var fetched := [SetupPlayer, UpdateOptions, FetchInfo(track.id)];
        if env.infoFailure.Some? then Run(fetched, Pass)
        else
          var recorded := fetched + [SetCurrentTrack(track.id)];
          if env.setTrackFailure.Some? then Run(recorded, Fail(SetupError(env.setTrackFailure.value)))
          else
            var loaded := recorded + [Load(track.id, track.artist)];
            if env.loadFailure.Some? then Run(loaded, Pass)
            else if env.progress.None? || env.progress.value == 0.0 then Run(loaded, Pass)
            else Run(loaded + [SeekTo(env.progress.value)], Pass)
  }

  /** Whether the saved track is present and parses and its info arrives, so
      that `setup` goes on to record it as the current track. */
  predicate ReachesSetTrack(env: SetupEnv) {
    env.setupFailure.None? && env.optionsFailure.None? && env.readFailure.None?
    && env.stored.Some? && env.stored.value != "" && env.parse(env.stored.value).Some?
    && env.infoFailure.None?
  }

  /** `setup` rejects exactly when a step inside the outer `try` but outside
      the inner ones fails, with the prefixed message of the first such
      failure; the inner failures never reject. */
  lemma SetupRejectsOnlyThroughOuterCatch(env: SetupEnv)
    ensures Setup(env).outcome.Fail?
            <==> env.setupFailure.Some? || env.optionsFailure.Some? || env.readFailure.Some?
                 || (ReachesSetTrack(env) && env.setTrackFailure.Some?)
    ensures env.setupFailure.Some? ==> Setup(env).outcome == Fail(SetupError(env.setupFailure.value))
    ensures env.setupFailure.None? && env.optionsFailure.Some?
            ==> Setup(env).outcome == Fail(SetupError(env.optionsFailure.value))
    ensures env.setupFailure.None? && env.optionsFailure.None? && env.readFailure.Some?
            ==> Setup(env).outcome == Fail(SetupError(env.readFailure.value))
    ensures ReachesSetTrack(env) && env.setTrackFailure.Some?
            ==> Setup(env).outcome == Fail(SetupError(env.setTrackFailure.value))
  {
  }

  /** A saved track that does not parse loads nothing and sets no track. */
  lemma SetupUnparsedLoadsNothing(env: SetupEnv)
    requires env.setupFailure.None? && env.optionsFailure.None? && env.readFailure.None?
    requires env.stored.Some? && env.parse(env.stored.value).None?
    ensures Setup(env) == Run([SetupPlayer, UpdateOptions], Pass)
  {
  }

  /** `setup` seeks only to a saved, non-zero progress, and only after loading
      the saved track. */
  lemma SetupSeeksOnlyToSavedProgress(env: SetupEnv, p: real)
    requires SeekTo(p) in Setup(env).calls
    ensures env.progress == Some(p) && p != 0.0
    ensures env.stored.Some? && env.parse(env.stored.value).Some?
    ensures var t := env.parse(env.stored.value).value;
            Setup(env).calls == [SetupPlayer, UpdateOptions, FetchInfo(t.id), SetCurrentTrack(t.id),
                                 Load(t.id, t.artist), SeekTo(p)]
  {
  }

  // ---------------------------------------------------------------------
  // play
  // ---------------------------------------------------------------------

  const PlayPrefix := "Player failed: "
  const AbortMessage := "AbortError"

  datatype Item = Item(id: string, artists: seq<string>)

  /** What `play` meets: the store's `playRequest` at each of the three
      checkpoints (`None` when the store holds none), the step failures, each
      with its message, and whether the request was aborted when one failed. */
  datatype PlayEnv = PlayEnv(
    request1: Option<int>,
    request2: Option<int>,
    request3: Option<int>,
    infoFailure: Option<string>,
    loadFailure: Option<string>,
    startFailure: Option<string>,
    aborted: bool)

  /** The error a failed step is rethrown as. */
  function PlayError(aborted: bool, message: string): Error {
    if aborted then PlainError(AbortMessage) else SystemError(PlayPrefix + message)
  }

  /** `play(item, requestId)`: before each of the three player steps it checks
      that `requestId` is still the latest request, and stops quietly if not. */
  function Play(item: Item, requestId: int, env: PlayEnv): Run {
    if env.request1 != Some(requestId) then Run([], Pass)
    else
      var fetched := [SetCurrentTrack(item.id), RenewController, FetchInfo(item.id)];
      if env.infoFailure.Some? then Run(fetched, Fail(PlayError(env.aborted, env.infoFailure.value)))
      else if env.request2 != Some(requestId) then Run(fetched, Pass)
      else
        var loaded := fetched + [Load(item.id, ArtistLabel(item.artists))];
        if env.loadFailure.Some? then Run(loaded, Fail(PlayError(env.aborted, env.loadFailure.value)))
        else if env.request3 != Some(requestId) then Run(loaded, Pass)
        else
          var started := loaded + [StartPlayback];
          if env.startFailure.Some? then Run(started, Fail(PlayError(env.aborted, env.startFailure.value)))
          else Run(started, Pass)
  }

  /** A request that is not the latest at the first checkpoint does nothing. */
  lemma StaleRequestDoesNothing(item: Item, requestId: int, env: PlayEnv)
    requires env.request1 != Some(requestId)
    ensures Play(item, requestId, env) == Run([], Pass)
  {
  }

  /** The track is loaded only if the request was the latest at the first two
      checkpoints, and playback starts only if it was at all three. */
  lemma PlayGuardedByCheckpoints(item: Item, requestId: int, env: PlayEnv)
    ensures (exists a :: Load(item.id, a) in Play(item, requestId, env).calls)
            <==> env.request1 == Some(requestId) && env.infoFailure.None? && env.request2 == Some(requestId)
    ensures StartPlayback in Play(item, requestId, env).calls
            <==> env.request1 == Some(requestId) && env.request2 == Some(requestId) && env.request3 == Some(requestId)
                 && env.infoFailure.None? && env.loadFailure.None?
  {
    var run := Play(item, requestId, env);
    if env.request1 == Some(requestId) && env.infoFailure.None? && env.request2 == Some(requestId) {
      assert Load(item.id, ArtistLabel(item.artists)) in run.calls;
    }
  }

  /** A failure is rethrown as 'AbortError' when the request was aborted, and
      as a prefixed SystemError otherwise. */
  lemma PlayFailureMapped(item: Item, requestId: int, env: PlayEnv)
    requires Play(item, requestId, env).outcome.Fail?
    ensures env.aborted ==> Play(item, requestId, env).outcome.error == PlainError(AbortMessage)
    ensures !env.aborted ==> Play(item, requestId, env).outcome.error.SystemError?
    ensures !env.aborted ==> PlayPrefix <= Play(item, requestId, env).outcome.error.message
  {
  }

  /** An undisturbed request runs every step in order and resolves. */
  lemma UndisturbedPlayStarts(item: Item, requestId: int, env: PlayEnv)
    requires env.request1 == env.request2 == env.request3 == Some(requestId)
    requires env.infoFailure.None? && env.loadFailure.None? && env.startFailure.None?
    ensures Play(item, requestId, env)
            == Run([SetCurrentTrack(item.id), RenewController, FetchInfo(item.id),
                    Load(item.id, ArtistLabel(item.artists)), StartPlayback], Pass)
  {
  }
}
