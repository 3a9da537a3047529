/**
 * Shared vocabulary of the exporter: the shapes it receives from the Plex
 * client library (session and media metadata, play-state notifications,
 * request outcomes), the playback states, and the small pure helpers that
 * both registry variants (pkg/plex and the older cmd package) define
 * identically.
 *
 * Time is modelled as whole seconds on a monotonic clock; the instant 0
 * stands for Go's zero `time.Time`, so a real clock reading is always > 0.
 */
module Playback {

  datatype Option<+T> = None | Some(value: T)

  /** What a request to the media server can fail with. */
  datatype ClientError = NotFound | RequestFailed(reason: string)

  /** The outcome of one request: the decoded body or an error. */
  datatype Fetched<+T> = Ok(value: T) | Err(error: ClientError)

  /** Why a play-state event handler stopped before the end of its batch. */
  datatype DispatchError =
    | FetchSessionsFailed(error: ClientError)
    | SessionNotFound(sessionKey: string)
    | MetadataFailed(ratingKey: string)

  // Playback states as the server sends them. A record that was never
  // updated holds the empty string, which is none of the four.
  type SessionState = string
  const StatePlaying: SessionState := "playing"
  const StateStopped: SessionState := "stopped"
  const StatePaused: SessionState := "paused"
  const StateBuffering: SessionState := "buffering"

  const MediaTypeEpisode := "episode"

  /** How long a stopped session is kept after its last update (one minute). */
  const SessionTimeout: int := 60

  datatype User = User(id: string, title: string)

  datatype Player = Player(device: string, product: string)

  datatype Part = Part(decision: string)

  /** One entry of a metadata item's `Media` list. */
  datatype MediaInfo = MediaInfo(bitrate: nat, videoResolution: string, parts: seq<Part>)

  /** The fields of the client library's metadata record that the exporter reads. */
  datatype Metadata = Metadata(
    sessionKey: string,
    ratingKey: string,
    mediaType: string,
    title: string,
    parentTitle: string,
    grandparentTitle: string,
    librarySectionID: string,
    librarySectionTitle: string,
    user: User,
    player: Player,
    media: seq<MediaInfo>)

  /** Go's zero value of a metadata record. */
  const ZeroMetadata := Metadata("", "", "", "", "", "", "", "", User("", ""), Player("", ""), [])

  /** One play-session state notification of a websocket event. */
  datatype Notification = Notification(sessionKey: string, ratingKey: string, state: SessionState)

  /** True when the record may be evicted: it is stopped and idle for over a minute. */
  predicate Stale(state: SessionState, lastUpdate: int, now: int)
  {
    state == StateStopped && now - lastUpdate > SessionTimeout
  }

  /** The title hierarchy labels (title, season, episode title) of a media item. */
  function Labels(m: Metadata): (r: (string, string, string))
    ensures m.mediaType == MediaTypeEpisode ==> r == (m.grandparentTitle, m.parentTitle, m.title)
    ensures m.mediaType != MediaTypeEpisode ==> r == (m.title, "", "")
  {
    if m.mediaType == MediaTypeEpisode then (m.grandparentTitle, m.parentTitle, m.title)
    else (m.title, "", "")
  }

  /**
   * The play time reported for a record: the accumulated time of closed
   * intervals, plus the open interval while it is playing.
   */
  function TotalPlayTime(prevPlayedTime: int, state: SessionState, playStarted: int, now: int): (r: int)
    ensures state == StatePlaying ==> r - prevPlayedTime == now - playStarted
    ensures state != StatePlaying ==> r == prevPlayedTime
    ensures playStarted <= now ==> r >= prevPlayedTime
  {
    if state == StatePlaying then prevPlayedTime + (now - playStarted) else prevPlayedTime
  }

  /** The first session of the list whose session key is `id`, if any. */
  function SessionByID(sessions: seq<Metadata>, id: string): (r: Option<Metadata>)
    ensures r.Some? ==> r.value.sessionKey == id
    ensures r.Some? ==> exists i :: 0 <= i < |sessions| && sessions[i] == r.value &&
                          forall j :: 0 <= j < i ==> sessions[j].sessionKey != id
    ensures r.None? <==> forall i :: 0 <= i < |sessions| ==> sessions[i].sessionKey != id
  {
    if sessions == [] then None
    else if sessions[0].sessionKey == id then Some(sessions[0])
    else
      var r := SessionByID(sessions[1..], id);
      assert r.Some? ==> exists i :: 0 <= i < |sessions| && sessions[i] == r.value &&
                          forall j :: 0 <= j < i ==> sessions[j].sessionKey != id by {
        if r.Some? {
          var i :| 0 <= i < |sessions[1..]| && sessions[1..][i] == r.value &&
                   forall j :: 0 <= j < i ==> sessions[1..][j].sessionKey != id;
          assert sessions[i + 1] == r.value;
          assert forall j :: 0 <= j < i + 1 ==> sessions[j].sessionKey != id by {
            forall j | 0 <= j < i + 1 ensures sessions[j].sessionKey != id {
              if j > 0 { assert sessions[j] == sessions[1..][j - 1]; }
            }
          }
        }
      }
      assert r.None? <==> forall i :: 0 <= i < |sessions| ==> sessions[i].sessionKey != id by {
        if r.None? {
          forall i | 0 <= i < |sessions| ensures sessions[i].sessionKey != id {
            if i > 0 { assert sessions[i] == sessions[1..][i - 1]; }
          }
        }
      }
      r
  }
}
