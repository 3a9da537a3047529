/**
 * The notification listener of pkg/plex/listener.go: each websocket event
 * carries a batch of play-state notifications, which are turned, one by one,
 * into `Update` calls on the session registry.
 *
 * The two requests the handler makes are inputs: the current sessions
 * (`GetSessions`, fetched once per batch) and, per rating key, the first item
 * of the metadata response (`GetMetadata`); a rating key missing from that map
 * is a failed metadata request.
 */
module PlexListener {
  import opened Playback
  import opened PlexSessions

  /** The arguments of one `Update` call on the registry. */
  datatype UpdateCall = UpdateCall(sessionID: string, state: SessionState, session: Option<Metadata>, media: Option<Metadata>)

  /** The calls a batch issues, in order, and the error that ended it early, if any. */
  datatype Dispatched = Dispatched(calls: seq<UpdateCall>, error: Option<DispatchError>)

  /** A notification can be turned into a call: it is a stop, or its session and metadata are found. */
  predicate Dispatchable(sessions: seq<Metadata>, n: Notification, metadata: map<string, Metadata>)
  {
    n.state == StateStopped || (SessionByID(sessions, n.sessionKey).Some? && n.ratingKey in metadata)
  }

  /** The call for a notification: a stop carries nothing, anything else its session and media. */
  function CallFor(sessions: seq<Metadata>, n: Notification, metadata: map<string, Metadata>): UpdateCall
    requires Dispatchable(sessions, n, metadata)
  {
    if n.state == StateStopped then UpdateCall(n.sessionKey, n.state, None, None)
    else UpdateCall(n.sessionKey, n.state, SessionByID(sessions, n.sessionKey), Some(metadata[n.ratingKey]))
  }

  /** Why a notification could not be dispatched: the session lookup comes first. */
  function FailureFor(sessions: seq<Metadata>, n: Notification, metadata: map<string, Metadata>): DispatchError
    requires !Dispatchable(sessions, n, metadata)
  {
    if SessionByID(sessions, n.sessionKey).None? then SessionNotFound(n.sessionKey) else MetadataFailed(n.ratingKey)
  }

  /**
   * The loop of `onPlaying`: the calls are those of the longest dispatchable
   * prefix of the batch, in order; the first notification that cannot be
   * dispatched ends the batch with its error.
   */
  function DispatchNotifications(sessions: seq<Metadata>, notes: seq<Notification>, metadata: map<string, Metadata>): (d: Dispatched)
    ensures |d.calls| <= |notes|
    ensures d.error.None? <==> |d.calls| == |notes|
    ensures forall i :: 0 <= i < |d.calls| ==>
              Dispatchable(sessions, notes[i], metadata) && d.calls[i] == CallFor(sessions, notes[i], metadata)
    ensures d.error.Some? ==>
              && !Dispatchable(sessions, notes[|d.calls|], metadata)
              && d.error.value == FailureFor(sessions, notes[|d.calls|], metadata)
    decreases notes
  {
    if notes == [] then Dispatched([], None)
    else
      var n := notes[0];
      if !Dispatchable(sessions, n, metadata) then Dispatched([], Some(FailureFor(sessions, n, metadata)))
      else
        var rest := DispatchNotifications(sessions, notes[1..], metadata);
        var d := Dispatched([CallFor(sessions, n, metadata)] + rest.calls, rest.error);
        assert forall i :: 1 <= i < |d.calls| ==> d.calls[i] == rest.calls[i - 1] && notes[i] == notes[1..][i - 1];
        d
  }

  /** A failed session fetch ends the batch before any call; otherwise the notifications are dispatched. */
  function Dispatch(fetched: Fetched<seq<Metadata>>, notes: seq<Notification>, metadata: map<string, Metadata>): (d: Dispatched)
    ensures fetched.Err? ==> d == Dispatched([], Some(FetchSessionsFailed(fetched.error)))
    ensures fetched.Ok? ==> d == DispatchNotifications(fetched.value, notes, metadata)
  {
    match fetched
    case Err(e) => Dispatched([], Some(FetchSessionsFailed(e)))
    case Ok(sessions) => DispatchNotifications(sessions, notes, metadata)
  }

  /** Every fetched session carries the stream the registry reads its bitrate from. */
  predicate StreamsKnown(fetched: Fetched<seq<Metadata>>)
  {
    fetched.Ok? ==> forall i :: 0 <= i < |fetched.value| ==> HasBitrate(fetched.value[i])
  }

  predicate CallsKeepBitrates(calls: seq<UpdateCall>)
  {
    forall i :: 0 <= i < |calls| ==> KeepsBitrates(calls[i].state, calls[i].session)
  }

  /** The calls of a batch never leave a playing record without a bitrate. */
  lemma DispatchedCallsKeepBitrates(fetched: Fetched<seq<Metadata>>, notes: seq<Notification>, metadata: map<string, Metadata>)
    requires StreamsKnown(fetched)
    ensures CallsKeepBitrates(Dispatch(fetched, notes, metadata).calls)
  {
    var d := Dispatch(fetched, notes, metadata);
    forall i | 0 <= i < |d.calls| ensures KeepsBitrates(d.calls[i].state, d.calls[i].session) {
      var n := notes[i];
      if n.state != StateStopped {
        var s := SessionByID(fetched.value, n.sessionKey);
        var j :| 0 <= j < |fetched.value| && fetched.value[j] == s.value &&
                 forall j' :: 0 <= j' < j ==> fetched.value[j'].sessionKey != n.sessionKey;
      }
    }
  }

  /** The registry after a sequence of calls, all at the same instant. */
  function ApplyCalls(reg: Registry, calls: seq<UpdateCall>, now: int): (r: Registry)
    requires BitratesKnown(reg) && CallsKeepBitrates(calls)
    ensures BitratesKnown(r)
    ensures WellFormed(reg) && ClockAfter(reg, now) ==> WellFormed(r) && ClockAfter(r, now)
    ensures forall k :: k in reg.sessions ==> k in r.sessions
    ensures WellFormed(reg) && ClockAfter(reg, now) ==> r.totalKBits >= reg.totalKBits
    decreases calls
  {
    if calls == [] then reg
    else
      var c := calls[0];
      KnownBitratesAllowUpdate(reg, c.sessionID, c.state, c.session);
      var next := Apply(reg, c.sessionID, c.state, c.session, c.media, now);
      ApplyKeepsInvariants(reg, c.sessionID, c.state, c.session, c.media, now);
      assert CallsKeepBitrates(calls[1..]) by {
        forall i | 0 <= i < |calls[1..]| ensures KeepsBitrates(calls[1..][i].state, calls[1..][i].session) {
          assert calls[1..][i] == calls[i + 1];
        }
      }
      ApplyCalls(next, calls[1..], now)
  }

  /** One step of the batch: a dispatchable head issues its call, then the rest follows. */
  lemma DispatchHead(sessions: seq<Metadata>, notes: seq<Notification>, metadata: map<string, Metadata>,
                     reg: Registry, now: int)
    requires notes != [] && Dispatchable(sessions, notes[0], metadata)
    requires StreamsKnown(Ok(sessions)) && BitratesKnown(reg)
    ensures var c := CallFor(sessions, notes[0], metadata);
            var rest := DispatchNotifications(sessions, notes[1..], metadata);
            && KeepsBitrates(c.state, c.session)
            && CanUpdate(reg, c.sessionID, c.state, c.session)
            && CallsKeepBitrates(rest.calls)
            && CallsKeepBitrates(DispatchNotifications(sessions, notes, metadata).calls)
            && DispatchNotifications(sessions, notes, metadata).error == rest.error
            && ApplyCalls(reg, DispatchNotifications(sessions, notes, metadata).calls, now)
               == ApplyCalls(Apply(reg, c.sessionID, c.state, c.session, c.media, now), rest.calls, now)
  {
    var c := CallFor(sessions, notes[0], metadata);
    var rest := DispatchNotifications(sessions, notes[1..], metadata);
    DispatchedCallsKeepBitrates(Ok(sessions), notes, metadata);
    DispatchedCallsKeepBitrates(Ok(sessions), notes[1..], metadata);
    var all := DispatchNotifications(sessions, notes, metadata).calls;
    assert all == [c] + rest.calls;
    assert all[0] == c && all[1..] == rest.calls;
    assert KeepsBitrates(c.state, c.session);
    KnownBitratesAllowUpdate(reg, c.sessionID, c.state, c.session);
  }

  /** What `onPlaying` feeds the registry; the back-pointer to the server is not modelled. */
  class Listener {
    const activeSessions: Sessions

    constructor ()
      ensures fresh(activeSessions) && activeSessions.Valid()
      ensures activeSessions.sessions == map[] && activeSessions.totalKBits == 0
    {
      activeSessions := new Sessions();
    }

    /**
     * Handles one event: issues the batch's calls in order; an error stops
     * the batch and leaves the calls already made in place.
     */
    method OnPlaying(fetched: Fetched<seq<Metadata>>, notes: seq<Notification>, metadata: map<string, Metadata>, now: int)
      returns (err: Option<DispatchError>)
      requires activeSessions.Valid() && ClockAfter(activeSessions.Model(), now)
      requires BitratesKnown(activeSessions.Model()) && StreamsKnown(fetched)
      modifies activeSessions
      ensures activeSessions.Valid() && BitratesKnown(activeSessions.Model())
      ensures var d := Dispatch(fetched, notes, metadata);
              CallsKeepBitrates(d.calls) &&
              err == d.error && activeSessions.Model() == ApplyCalls(old(activeSessions.Model()), d.calls, now)
    {
      DispatchedCallsKeepBitrates(fetched, notes, metadata);
      if fetched.Err? {
        return Some(FetchSessionsFailed(fetched.error));
      }
      var sessions := fetched.value;
      ghost var whole := DispatchNotifications(sessions, notes, metadata);
      var i := 0;
      while i < |notes|
        invariant 0 <= i <= |notes|
        invariant activeSessions.Valid() && ClockAfter(activeSessions.Model(), now)
        invariant BitratesKnown(activeSessions.Model())
        invariant CallsKeepBitrates(DispatchNotifications(sessions, notes[i..], metadata).calls)
        invariant DispatchNotifications(sessions, notes[i..], metadata).error == whole.error
        invariant ApplyCalls(activeSessions.Model(), DispatchNotifications(sessions, notes[i..], metadata).calls, now)
                  == ApplyCalls(old(activeSessions.Model()), whole.calls, now)
        decreases |notes| - i
      {
        var n := notes[i];
        assert notes[i..][0] == n && notes[i..][1..] == notes[i + 1..];
        if n.state == StateStopped {
          DispatchHead(sessions, notes[i..], metadata, activeSessions.Model(), now);
          ApplyKeepsInvariants(activeSessions.Model(), n.sessionKey, n.state, None, None, now);
          activeSessions.Update(n.sessionKey, n.state, None, None, now);
          i := i + 1;
          continue;
        }
        var session := SessionByID(sessions, n.sessionKey);
        if session.None? {
          return Some(SessionNotFound(n.sessionKey));
        }
        if n.ratingKey !in metadata {
          return Some(MetadataFailed(n.ratingKey));
        }
        DispatchHead(sessions, notes[i..], metadata, activeSessions.Model(), now);
        ApplyKeepsInvariants(activeSessions.Model(), n.sessionKey, n.state, session, Some(metadata[n.ratingKey]), now);
        activeSessions.Update(n.sessionKey, n.state, session, Some(metadata[n.ratingKey]), now);
        i := i + 1;
      }
      return None;
    }
  }
}
