/**
 * The earliest play tracker of cmd/handler_onplaying.go: a set of the
 * session keys currently active and a plays counter labelled by user and
 * title, fed by batches of play-state notifications.
 *
 * As in the pkg/plex listener, the current sessions (fetched once per
 * batch) and the first metadata item per rating key are inputs; a rating key
 * missing from the map is a failed metadata request. The plays counter is
 * the log of its increments.
 */
module CmdOnPlaying {
  import opened Playback

  /** One increment of the plays counter. */
  datatype Play = Play(user: string, title: string)

  /** The tracker's whole state: the active session keys and the plays recorded. */
  datatype Tracker = Tracker(active: set<string>, plays: seq<Play>)

  /** What one notification does: the tracker continues in a new state, or the batch ends with an error. */
  datatype Outcome = Continue(tracker: Tracker) | Abort(error: DispatchError)

  /** The loop body for one notification. */
  function TrackOne(sessions: seq<Metadata>, n: Notification, metadata: map<string, Metadata>, t: Tracker): (r: Outcome)
    // a stop ends the session before any lookup and records nothing
    ensures n.state == StateStopped ==> r == Continue(Tracker(t.active - {n.sessionKey}, t.plays))
    // any other notification needs its session, then its metadata
    ensures n.state != StateStopped && SessionByID(sessions, n.sessionKey).None? ==>
              r == Abort(SessionNotFound(n.sessionKey))
    ensures n.state != StateStopped && SessionByID(sessions, n.sessionKey).Some? && n.ratingKey !in metadata ==>
              r == Abort(MetadataFailed(n.ratingKey))
    // the first playing notification of an inactive key records one play
    ensures n.state == StatePlaying && SessionByID(sessions, n.sessionKey).Some? && n.ratingKey in metadata
            && n.sessionKey !in t.active ==>
              r == Continue(Tracker(t.active + {n.sessionKey},
                                    t.plays + [Play(SessionByID(sessions, n.sessionKey).value.user.title,
                                                    metadata[n.ratingKey].title)]))
    // a playing notification of an active key, a pause or a buffering changes nothing
    ensures n.state != StateStopped && SessionByID(sessions, n.sessionKey).Some? && n.ratingKey in metadata
            && (n.state != StatePlaying || n.sessionKey in t.active) ==>
              r == Continue(t)
  {
    if n.state == StateStopped then Continue(t.(active := t.active - {n.sessionKey}))
    else
      match SessionByID(sessions, n.sessionKey)
      case None => Abort(SessionNotFound(n.sessionKey))
      case Some(session) =>
        if n.ratingKey !in metadata then Abort(MetadataFailed(n.ratingKey))
        else if n.state == StatePlaying && n.sessionKey !in t.active then
          Continue(Tracker(t.active + {n.sessionKey}, t.plays + [Play(session.user.title, metadata[n.ratingKey].title)]))
        else Continue(t)
  }

  /** The tracker after a batch and the error that ended it, if any. */
  datatype Tracked = Tracked(tracker: Tracker, error: Option<DispatchError>)

  /** The number of notifications of a batch that start a session playing. */
  function PlayingCount(notes: seq<Notification>): nat
    decreases |notes|
  {
    if notes == [] then 0
    else PlayingCount(notes[..|notes| - 1]) + (if notes[|notes| - 1].state == StatePlaying then 1 else 0)
  }

  /**
   * The loop of `onPlaying`: notifications are handled in order; the first
   * failure ends the batch and keeps what the earlier ones did.
   */
  function TrackBatch(sessions: seq<Metadata>, notes: seq<Notification>, metadata: map<string, Metadata>, t: Tracker): (r: Tracked)
    // plays are only ever appended, at most one per playing notification
    ensures t.plays <= r.tracker.plays
    ensures |r.tracker.plays| <= |t.plays| + PlayingCount(notes)
    // keys only enter the set through the batch
    ensures forall k :: k in r.tracker.active && k !in t.active ==> exists i :: 0 <= i < |notes| && notes[i].sessionKey == k
    decreases |notes|
  {
    if notes == [] then Tracked(t, None)
    else
      var init, last := notes[..|notes| - 1], notes[|notes| - 1];
      var p := TrackBatch(sessions, init, metadata, t);
      assert forall i :: 0 <= i < |init| ==> init[i] == notes[i];
      if p.error.Some? then p
      else
        match TrackOne(sessions, last, metadata, p.tracker)
        case Abort(e) => Tracked(p.tracker, Some(e))
        case Continue(next) => Tracked(next, None)
  }

  /** A batch that ends with no error continued at every notification from the state its predecessors left. */
  lemma {:induction false} TrackBatchCompleted(sessions: seq<Metadata>, notes: seq<Notification>,
                                              metadata: map<string, Metadata>, t: Tracker)
    requires TrackBatch(sessions, notes, metadata, t).error.None?
    ensures forall i :: 0 <= i < |notes| ==>
              && TrackBatch(sessions, notes[..i], metadata, t).error.None?
              && TrackOne(sessions, notes[i], metadata, TrackBatch(sessions, notes[..i], metadata, t).tracker)
                 == Continue(TrackBatch(sessions, notes[..i + 1], metadata, t).tracker)
    decreases |notes|
  {
    if notes != [] {
      var n := |notes| - 1;
      var init := notes[..n];
      TrackBatchCompleted(sessions, init, metadata, t);
      forall i | 0 <= i < |notes|
        ensures TrackBatch(sessions, notes[..i], metadata, t).error.None?
        ensures TrackOne(sessions, notes[i], metadata, TrackBatch(sessions, notes[..i], metadata, t).tracker)
                == Continue(TrackBatch(sessions, notes[..i + 1], metadata, t).tracker)
      {
        if i < n {
          assert init[..i] == notes[..i] && init[..i + 1] == notes[..i + 1] && init[i] == notes[i];
        } else {
          assert notes[..i + 1] == notes;
        }
      }
    }
  }

  /**
   * The batch stopped at notification `i`: the notifications before it all
   * continued, it aborts from the state they left, and the batch ends with
   * that state and that notification's error.
   */
  predicate StoppedAt(sessions: seq<Metadata>, notes: seq<Notification>, metadata: map<string, Metadata>, t: Tracker, i: nat)
    requires i < |notes|
  {
    var p := TrackBatch(sessions, notes[..i], metadata, t);
    && p.error.None?
    && TrackOne(sessions, notes[i], metadata, p.tracker).Abort?
    && TrackBatch(sessions, notes, metadata, t) == Tracked(p.tracker, Some(TrackOne(sessions, notes[i], metadata, p.tracker).error))
  }

  /** A batch that ends with an error stopped at a notification that aborts, after all earlier ones continued. */
  lemma {:induction false} TrackBatchStopsAtFirstFailure(sessions: seq<Metadata>, notes: seq<Notification>,
                                                          metadata: map<string, Metadata>, t: Tracker)
    requires TrackBatch(sessions, notes, metadata, t).error.Some?
    ensures exists i :: 0 <= i < |notes| && StoppedAt(sessions, notes, metadata, t, i)
    decreases |notes|
  {
    var n := |notes| - 1;
    var init := notes[..n];
    if TrackBatch(sessions, init, metadata, t).error.Some? {
      TrackBatchStopsAtFirstFailure(sessions, init, metadata, t);
      var i :| 0 <= i < n && StoppedAt(sessions, init, metadata, t, i);
      assert init[..i] == notes[..i] && init[i] == notes[i];
      assert StoppedAt(sessions, notes, metadata, t, i);
    } else {
      assert StoppedAt(sessions, notes, metadata, t, n);
    }
  }

  /** One more notification after a prefix that has not failed is handled from the state that prefix left. */
  lemma TrackBatchStep(sessions: seq<Metadata>, notes: seq<Notification>, i: nat, metadata: map<string, Metadata>, t: Tracker)
    requires i < |notes| && TrackBatch(sessions, notes[..i], metadata, t).error.None?
    ensures var p := TrackBatch(sessions, notes[..i], metadata, t);
            TrackBatch(sessions, notes[..i + 1], metadata, t) ==
              match TrackOne(sessions, notes[i], metadata, p.tracker)
              case Abort(e) => Tracked(p.tracker, Some(e))
              case Continue(next) => Tracked(next, None)
  {
    assert notes[..i + 1][..i] == notes[..i] && notes[..i + 1][i] == notes[i];
  }

  /** Once a prefix of the batch has failed, the rest of the batch is not looked at. */
  lemma {:induction false} AbortSticks(sessions: seq<Metadata>, notes: seq<Notification>, n: nat,
                                      metadata: map<string, Metadata>, t: Tracker)
    requires n <= |notes|
    requires TrackBatch(sessions, notes[..n], metadata, t).error.Some?
    ensures TrackBatch(sessions, notes, metadata, t) == TrackBatch(sessions, notes[..n], metadata, t)
    decreases |notes| - n
  {
    if n < |notes| {
      var init := notes[..|notes| - 1];
      assert init[..n] == notes[..n];
      AbortSticks(sessions, init, n, metadata, t);
    } else {
      assert notes[..n] == notes;
    }
  }

  /** A failed session fetch ends the batch before any notification is looked at. */
  function Handle(fetched: Fetched<seq<Metadata>>, notes: seq<Notification>, metadata: map<string, Metadata>, t: Tracker): (r: Tracked)
    ensures fetched.Err? ==> r == Tracked(t, Some(FetchSessionsFailed(fetched.error)))
    ensures fetched.Ok? ==> r == TrackBatch(fetched.value, notes, metadata, t)
  {
    match fetched
    case Err(e) => Tracked(t, Some(FetchSessionsFailed(e)))
    case Ok(sessions) => TrackBatch(sessions, notes, metadata, t)
  }

  /** A session that stops and then plays again counts a second play. */
  lemma StopThenPlayCountsAgain(sessions: seq<Metadata>, key: string, ratingKey: string,
                                 metadata: map<string, Metadata>, t: Tracker)
    requires SessionByID(sessions, key).Some? && ratingKey in metadata
    requires key in t.active
    ensures var notes := [Notification(key, ratingKey, StateStopped), Notification(key, ratingKey, StatePlaying)];
            var r := TrackBatch(sessions, notes, metadata, t);
            r.error.None? && key in r.tracker.active
            && r.tracker.plays == t.plays + [Play(SessionByID(sessions, key).value.user.title, metadata[ratingKey].title)]
  {
    var notes := [Notification(key, ratingKey, StateStopped), Notification(key, ratingKey, StatePlaying)];
    assert notes[..1] == [notes[0]] && [notes[0]][..0] == [];
    assert TrackBatch(sessions, notes[..1], metadata, t) == Tracked(Tracker(t.active - {key}, t.plays), None);
  }

  /** Repeated playing notifications of one session count one play, not one each. */
  lemma RepeatedPlayingCountsOnce(sessions: seq<Metadata>, n: Notification, metadata: map<string, Metadata>, t: Tracker)
    requires n.state == StatePlaying && SessionByID(sessions, n.sessionKey).Some? && n.ratingKey in metadata
    requires n.sessionKey !in t.active
    ensures var r := TrackBatch(sessions, [n, n, n], metadata, t);
            r.error.None? && |r.tracker.plays| == |t.plays| + 1
  {
    var t1 := Tracker(t.active + {n.sessionKey},
                      t.plays + [Play(SessionByID(sessions, n.sessionKey).value.user.title, metadata[n.ratingKey].title)]);
    assert [n, n, n][..2] == [n, n] && [n, n][..1] == [n] && [n][..0] == [];
    assert TrackBatch(sessions, [n], metadata, t) == Tracked(t1, None);
    assert TrackBatch(sessions, [n, n], metadata, t) == Tracked(t1, None);
  }

  /** The handler's state: the package-level active set and the plays counter. */
  class PlayTracker {
    var activeSessions: set<string>
    var plays: seq<Play>

    function Model(): Tracker
      reads this
    {
      Tracker(activeSessions, plays)
    }

    constructor ()
      ensures activeSessions == {} && plays == []
    {
      activeSessions := {};
      plays := [];
    }

    /** Handles one event's batch of notifications; an error keeps the effects of the earlier ones. */
    method OnPlaying(fetched: Fetched<seq<Metadata>>, notes: seq<Notification>, metadata: map<string, Metadata>)
      returns (err: Option<DispatchError>)
      modifies this
      ensures var r := Handle(fetched, notes, metadata, old(Model()));
              Model() == r.tracker && err == r.error
    {
      if fetched.Err? {
        return Some(FetchSessionsFailed(fetched.error));
      }
      var sessions := fetched.value;
      ghost var start := old(Model());
      assert notes[..0] == [];
      var i := 0;
      while i < |notes|
        invariant 0 <= i <= |notes|
        invariant TrackBatch(sessions, notes[..i], metadata, start) == Tracked(Model(), None)
      {
        var n := notes[i];
        TrackBatchStep(sessions, notes, i, metadata, start);
        if n.state == StateStopped {
          activeSessions := activeSessions - {n.sessionKey};
          i := i + 1;
          continue;
        }
        var session := SessionByID(sessions, n.sessionKey);
        if session.None? {
          AbortSticks(sessions, notes, i + 1, metadata, start);
          return Some(SessionNotFound(n.sessionKey));
        }
        if n.ratingKey !in metadata {
          AbortSticks(sessions, notes, i + 1, metadata, start);
          return Some(MetadataFailed(n.ratingKey));
        }
        var userName := session.value.user.title;
        var title := metadata[n.ratingKey].title;
        if n.state == StatePlaying {
          if n.sessionKey !in activeSessions {
            activeSessions := activeSessions + {n.sessionKey};
            plays := plays + [Play(userName, title)];
          }
        }
        i := i + 1;
      }
      assert notes[..i] == notes;
      return None;
    }
  }
}
