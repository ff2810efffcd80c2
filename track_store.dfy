/** The player's track store: the id of the track being played and, in the
    corrected store, the id of the latest play request. */
module TrackStore {
  import opened Common

  class Store {
    /** `currentTrackId`, `None` for `null`. */
    var currentTrackId: Option<string>
    /** `playRequest`: the id of the latest play request, `None` until one is made. */
    var playRequest: Option<int>

    constructor ()
      ensures currentTrackId == None && playRequest == None
    {
      currentTrackId := None;
      playRequest := None;
    }

    /** Sets the current track id; the same id again changes nothing. */
    method SetCurrentTrackId(id: string)
      modifies this
      ensures currentTrackId == Some(id)
      ensures playRequest == old(playRequest)
      ensures old(currentTrackId) == Some(id) ==> unchanged(this)
    {
      if currentTrackId != Some(id) {
        currentTrackId := Some(id);
      }
    }

    /** Records the id of the latest play request. */
    method SetPlayRequest(requestId: int)
      modifies this
      ensures playRequest == Some(requestId)
      ensures currentTrackId == old(currentTrackId)
    {
      playRequest := Some(requestId);
    }
  }
}
