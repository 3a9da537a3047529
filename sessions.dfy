/**
 * The playback session registry of pkg/plex/sessions.go: a map from session
 * key to a record of the latest user/stream metadata, media metadata, state
 * and play-time bookkeeping, plus a running total of the kilobits estimated
 * to have been sent by intervals that have ended.
 *
 * Each locked method of the source is one atomic step here. Time is an
 * explicit `now` (whole seconds, > 0, never earlier than any `lastUpdate`).
 */
module PlexSessions {
  import opened Playback
  import opened PlexLibrary

  /**
   * One tracked session. `session` is the session's own metadata (user,
   * player, stream); `media` is the metadata of the item being played.
   * `playStarted` is stamped when the record enters playing and never
   * cleared, so 0 means "never played".
   */
  datatype Session = Session(
    session: Metadata,
    media: Metadata,
    state: SessionState,
    lastUpdate: int,
    playStarted: int,
    prevPlayedTime: int)

  /** The zero value a missing map entry reads as. */
  const ZeroSession := Session(ZeroMetadata, ZeroMetadata, "", 0, 0, 0)

  /** The registry's whole state: the records and the flattened kilobit total. */
  datatype Registry = Registry(sessions: map<string, Session>, totalKBits: int)

  function Lookup(m: map<string, Session>, id: string): Session
  {
    if id in m then m[id] else ZeroSession
  }

  /** The stored value after an update that may or may not supply a new one. */
  function Replace(stored: Metadata, supplied: Option<Metadata>): Metadata
  {
    if supplied.Some? then supplied.value else stored
  }

  predicate HasBitrate(m: Metadata)
  {
    |m.media| > 0
  }

  /** The bitrate (kbit/s) of the first media entry, which the source reads unchecked. */
  function Bitrate(m: Metadata): nat
    requires HasBitrate(m)
  {
    m.media[0].bitrate
  }

  /** The update ends an open play interval. */
  predicate Leaves(ss: Session, newState: SessionState)
  {
    ss.state == StatePlaying && newState != StatePlaying
  }

  /** The update opens a play interval. */
  predicate Enters(ss: Session, newState: SessionState)
  {
    ss.state != StatePlaying && newState == StatePlaying
  }

  /** The record after one update: the body of `Update` (pkg/plex/sessions.go:79-100) on one entry. */
  function Transition(ss: Session, newState: SessionState, newSession: Option<Metadata>,
                      media: Option<Metadata>, now: int): Session
  {
    Session(
      Replace(ss.session, newSession),
      Replace(ss.media, media),
      newState,
      now,
      if Enters(ss, newState) then now else ss.playStarted,
      if Leaves(ss, newState) then ss.prevPlayedTime + (now - ss.playStarted) else ss.prevPlayedTime)
  }

  /**
   * An update can be applied without the unchecked `Media[0]` read failing:
   * the bitrate is needed only when a play interval is flattened, and it is
   * read from the session metadata as it stands after replacement.
   */
  predicate CanUpdate(reg: Registry, id: string, newState: SessionState, newSession: Option<Metadata>)
  {
    var ss := Lookup(reg.sessions, id);
    Leaves(ss, newState) ==> HasBitrate(Replace(ss.session, newSession))
  }

  /** Every record that is playing has a bitrate to extrapolate from. */
  predicate BitratesKnown(reg: Registry)
  {
    forall k :: k in reg.sessions && reg.sessions[k].state == StatePlaying ==> HasBitrate(reg.sessions[k].session)
  }

  /** An update that cannot make a playing record lose its bitrate. */
  predicate KeepsBitrates(newState: SessionState, newSession: Option<Metadata>)
  {
    (newSession.Some? ==> HasBitrate(newSession.value)) && (newState == StatePlaying ==> newSession.Some?)
  }

  /** Invariant that every update keeps: times are ordered and totals are non-negative. */
  predicate WellFormed(reg: Registry)
  {
    && reg.totalKBits >= 0
    && forall k :: k in reg.sessions ==>
         var ss := reg.sessions[k];
         && 0 <= ss.playStarted <= ss.lastUpdate
         && ss.prevPlayedTime >= 0
         && (ss.state == StatePlaying ==> ss.playStarted > 0)
  }

  /** `now` is a real clock reading no earlier than any update already applied. */
  predicate ClockAfter(reg: Registry, now: int)
  {
    now > 0 && forall k :: k in reg.sessions ==> reg.sessions[k].lastUpdate <= now
  }

  /** The effect of `Update(id, newState, newSession, media)` at time `now`. */
  function Apply(reg: Registry, id: string, newState: SessionState, newSession: Option<Metadata>,
                 media: Option<Metadata>, now: int): (r: Registry)
    requires CanUpdate(reg, id, newState, newSession)
    // the entry exists afterwards with the new state, stamped now; nothing else changes
    ensures id in r.sessions && r.sessions[id].state == newState && r.sessions[id].lastUpdate == now
    ensures r.sessions.Keys == reg.sessions.Keys + {id}
    ensures forall k :: k in reg.sessions && k != id ==> r.sessions[k] == reg.sessions[k]
    // user/stream and media metadata are replaced only when supplied
    ensures r.sessions[id].session == (if newSession.Some? then newSession.value else Lookup(reg.sessions, id).session)
    ensures r.sessions[id].media == (if media.Some? then media.value else Lookup(reg.sessions, id).media)
    // leaving playing flattens the open interval into the play time and, at
    // the bitrate of the (possibly just replaced) session, into the kbit total
    ensures var ss := Lookup(reg.sessions, id);
            Leaves(ss, newState) ==>
              && r.sessions[id].prevPlayedTime == ss.prevPlayedTime + (now - ss.playStarted)
              && HasBitrate(r.sessions[id].session)
              && r.totalKBits == reg.totalKBits + (now - ss.playStarted) * Bitrate(r.sessions[id].session)
    ensures var ss := Lookup(reg.sessions, id);
            !Leaves(ss, newState) ==>
              r.sessions[id].prevPlayedTime == ss.prevPlayedTime && r.totalKBits == reg.totalKBits
    // entering playing stamps the start; otherwise the start is kept, never cleared
    ensures Enters(Lookup(reg.sessions, id), newState) ==> r.sessions[id].playStarted == now
    ensures !Enters(Lookup(reg.sessions, id), newState) ==>
              r.sessions[id].playStarted == Lookup(reg.sessions, id).playStarted
    // with a clock that does not run backwards, neither total decreases
    ensures Lookup(reg.sessions, id).playStarted <= now ==>
              r.sessions[id].prevPlayedTime >= Lookup(reg.sessions, id).prevPlayedTime && r.totalKBits >= reg.totalKBits
  {
    var ss := Lookup(reg.sessions, id);
    var next := Transition(ss, newState, newSession, media, now);
    var total := if Leaves(ss, newState) then reg.totalKBits + (now - ss.playStarted) * Bitrate(next.session)
                 else reg.totalKBits;
    Registry(reg.sessions[id := next], total)
  }

  /** Every update keeps the registry well formed under its clock, and keeps playing records' bitrates. */
  lemma ApplyKeepsInvariants(reg: Registry, id: string, newState: SessionState, newSession: Option<Metadata>,
                             media: Option<Metadata>, now: int)
    requires CanUpdate(reg, id, newState, newSession)
    ensures var r := Apply(reg, id, newState, newSession, media, now);
            WellFormed(reg) && ClockAfter(reg, now) ==> WellFormed(r) && ClockAfter(r, now)
    ensures var r := Apply(reg, id, newState, newSession, media, now);
            BitratesKnown(reg) && KeepsBitrates(newState, newSession) ==> BitratesKnown(r)
  {
    var r := Apply(reg, id, newState, newSession, media, now);
    assert forall k :: k in r.sessions && k != id ==> k in reg.sessions && r.sessions[k] == reg.sessions[k];
  }

  /** Updates that respect every record's bitrate can always be applied. */
  lemma KnownBitratesAllowUpdate(reg: Registry, id: string, newState: SessionState, newSession: Option<Metadata>)
    requires BitratesKnown(reg) && KeepsBitrates(newState, newSession)
    ensures CanUpdate(reg, id, newState, newSession)
  {
  }

  /** A second stopped update in a row adds nothing to the play time or the kbit total. */
  lemma RepeatedStopFlattensNothing(reg: Registry, id: string, t1: int, t2: int)
    requires CanUpdate(reg, id, StateStopped, None)
    ensures var once := Apply(reg, id, StateStopped, None, None, t1);
            CanUpdate(once, id, StateStopped, None) &&
            var twice := Apply(once, id, StateStopped, None, None, t2);
            twice.sessions[id].prevPlayedTime == once.sessions[id].prevPlayedTime &&
            twice.totalKBits == once.totalKBits
  {
  }

  // ---------------------------------------------------------------------
  // Accumulated play time over a sequence of updates of one record
  // ---------------------------------------------------------------------

  /** One update of a single record, as its caller issues it. */
  datatype Event = Event(state: SessionState, session: Option<Metadata>, media: Option<Metadata>, at: int)

  /** The record after a sequence of updates. */
  function Run(ss: Session, events: seq<Event>): Session
    decreases events
  {
    if events == [] then ss
    else Run(Transition(ss, events[0].state, events[0].session, events[0].media, events[0].at), events[1..])
  }

  /**
   * Reference definition: the wall-clock seconds spent playing, summing
   * every gap between consecutive updates that starts in playing.
   */
  function PlayingSeconds(state: SessionState, since: int, events: seq<Event>): int
    decreases events
  {
    if events == [] then 0
    else (if state == StatePlaying then events[0].at - since else 0) + PlayingSeconds(events[0].state, events[0].at, events[1..])
  }

  /** The play time a record reports at its own last update. */
  function Reported(ss: Session): int
  {
    TotalPlayTime(ss.prevPlayedTime, ss.state, ss.playStarted, ss.lastUpdate)
  }

  /**
   * Accumulation is exact: after any sequence of updates, the reported play
   * time has grown by exactly the seconds spent playing in between.
   */
  lemma {:induction false} AccumulatedPlayTime(ss: Session, events: seq<Event>)
    ensures Reported(Run(ss, events)) == Reported(ss) + PlayingSeconds(ss.state, ss.lastUpdate, events)
    decreases events
  {
    if events != [] {
      var e := events[0];
      var next := Transition(ss, e.state, e.session, e.media, e.at);
      AccumulatedPlayTime(next, events[1..]);
    }
  }

  /** For a fresh record that ends outside playing, the stored play time is the time spent playing. */
  lemma FreshRecordPlayTime(events: seq<Event>)
    requires events != [] && events[|events| - 1].state != StatePlaying
    ensures Run(ZeroSession, events).prevPlayedTime == PlayingSeconds("", 0, events)
  {
    AccumulatedPlayTime(ZeroSession, events);
    RunEndsInLastState(ZeroSession, events);
  }

  lemma {:induction false} RunEndsInLastState(ss: Session, events: seq<Event>)
    requires events != []
    ensures Run(ss, events).state == events[|events| - 1].state
    ensures Run(ss, events).lastUpdate == events[|events| - 1].at
    decreases events
  {
    if |events| > 1 {
      var e := events[0];
      RunEndsInLastState(Transition(ss, e.state, e.session, e.media, e.at), events[1..]);
    }
  }

  /** Play at 100, pause at 130, resume at 145, stop at 200: 30 + 55 seconds played. */
  lemma PlayPauseResumeStop(m: Metadata)
    ensures var events := [Event(StatePlaying, Some(m), Some(m), 100), Event(StatePaused, Some(m), Some(m), 130),
                           Event(StatePlaying, Some(m), Some(m), 145), Event(StateStopped, None, None, 200)];
            var ss := Run(ZeroSession, events);
            ss.prevPlayedTime == 85 && ss.playStarted == 145 && ss.state == StateStopped
  {
    var events := [Event(StatePlaying, Some(m), Some(m), 100), Event(StatePaused, Some(m), Some(m), 130),
                   Event(StatePlaying, Some(m), Some(m), 145), Event(StateStopped, None, None, 200)];
    var s1 := Transition(ZeroSession, StatePlaying, Some(m), Some(m), 100);
    var s2 := Transition(s1, StatePaused, Some(m), Some(m), 130);
    var s3 := Transition(s2, StatePlaying, Some(m), Some(m), 145);
    var s4 := Transition(s3, StateStopped, None, None, 200);
    assert s1.playStarted == 100 && s2.prevPlayedTime == 30 && s3.playStarted == 145 && s4.prevPlayedTime == 85;
    assert Run(ZeroSession, events) == Run(s1, events[1..]);
    assert Run(s1, events[1..]) == Run(s2, events[2..]);
    assert Run(s2, events[2..]) == Run(s3, events[3..]);
    assert Run(s3, events[3..]) == Run(s4, events[4..]);
  }

  // ---------------------------------------------------------------------
  // Pruning
  // ---------------------------------------------------------------------

  /** The records kept by a prune sweep at `now`. */
  function Pruned(m: map<string, Session>, now: int): (r: map<string, Session>)
    ensures forall k :: k in r <==> k in m && !Stale(m[k].state, m[k].lastUpdate, now)
    ensures forall k :: k in r ==> r[k] == m[k]
  {
    map k | k in m && !Stale(m[k].state, m[k].lastUpdate, now) :: m[k]
  }

  /** Sweeping twice at the same instant removes nothing more. */
  lemma PruneIdempotent(m: map<string, Session>, now: int)
    ensures Pruned(Pruned(m, now), now) == Pruned(m, now)
  {
  }

  // ---------------------------------------------------------------------
  // Estimated bytes sent
  // ---------------------------------------------------------------------

  /** The kilobits an open play interval has sent by `now`; 0 for a record not playing. */
  function OpenKBits(ss: Session, now: int): int
    requires ss.state == StatePlaying ==> HasBitrate(ss.session)
  {
    if ss.state == StatePlaying then (now - ss.playStarted) * Bitrate(ss.session) else 0
  }

  ghost function Pick(keys: set<string>): string
    requires keys != {}
  {
    var k :| k in keys; k
  }

  /** Sum of the open intervals' kilobits over the records with the given keys. */
  ghost function SumOpenKBits(m: map<string, Session>, keys: set<string>, now: int): int
    requires keys <= m.Keys
    requires forall k :: k in keys && m[k].state == StatePlaying ==> HasBitrate(m[k].session)
    decreases keys
  {
    if keys == {} then 0
    else
      var k := Pick(keys);
      OpenKBits(m[k], now) + SumOpenKBits(m, keys - {k}, now)
  }

  /** The sum does not depend on the order in which the records are visited. */
  lemma {:induction false} SumOpenKBitsRemove(m: map<string, Session>, keys: set<string>, k: string, now: int)
    requires k in keys && keys <= m.Keys
    requires forall j :: j in keys && m[j].state == StatePlaying ==> HasBitrate(m[j].session)
    ensures SumOpenKBits(m, keys, now) == OpenKBits(m[k], now) + SumOpenKBits(m, keys - {k}, now)
    decreases keys
  {
    var p := Pick(keys);
    if p != k {
      SumOpenKBitsRemove(m, keys - {p}, k, now);
      SumOpenKBitsRemove(m, keys - {k}, p, now);
      assert keys - {p} - {k} == keys - {k} - {p};
    }
  }

  /** Sum of the bitrates of the playing records with the given keys. */
  ghost function SumPlayingBitrates(m: map<string, Session>, keys: set<string>): int
    requires keys <= m.Keys
    requires forall k :: k in keys && m[k].state == StatePlaying ==> HasBitrate(m[k].session)
    decreases keys
  {
    if keys == {} then 0
    else
      var k := Pick(keys);
      (if m[k].state == StatePlaying then Bitrate(m[k].session) else 0) + SumPlayingBitrates(m, keys - {k})
  }

  /**
   * While nothing is updated, the estimate grows by exactly the elapsed
   * seconds times the summed bitrate of the playing records.
   */
  lemma {:induction false} OpenKBitsGrowth(m: map<string, Session>, keys: set<string>, t1: int, t2: int)
    requires keys <= m.Keys
    requires forall k :: k in keys && m[k].state == StatePlaying ==> HasBitrate(m[k].session)
    ensures SumOpenKBits(m, keys, t2) - SumOpenKBits(m, keys, t1) == (t2 - t1) * SumPlayingBitrates(m, keys)
    decreases keys
  {
    if keys != {} {
      var k := Pick(keys);
      OpenKBitsGrowth(m, keys - {k}, t1, t2);
      if m[k].state == StatePlaying {
        var b := Bitrate(m[k].session);
        var s := m[k].playStarted;
        assert (t2 - s) * b - (t1 - s) * b == (t2 - t1) * b by {
          assert (t2 - s) * b == t2 * b - s * b;
          assert (t1 - s) * b == t1 * b - s * b;
          assert (t2 - t1) * b == t2 * b - t1 * b;
        }
      }
      assert (t2 - t1) * SumPlayingBitrates(m, keys)
          == (t2 - t1) * (if m[k].state == StatePlaying then Bitrate(m[k].session) else 0)
           + (t2 - t1) * SumPlayingBitrates(m, keys - {k});
    }
  }

  /** The estimated bytes sent in total: flattened and open kilobits, times 128. */
  ghost function EstimatedBytes(reg: Registry, now: int): int
    requires BitratesKnown(reg)
  {
    (reg.totalKBits + SumOpenKBits(reg.sessions, reg.sessions.Keys, now)) * 128
  }

  /** The estimate never decreases while time passes without updates. */
  lemma EstimateGrowsWithTime(reg: Registry, t1: int, t2: int)
    requires BitratesKnown(reg) && t1 <= t2
    ensures EstimatedBytes(reg, t2) - EstimatedBytes(reg, t1)
         == (t2 - t1) * SumPlayingBitrates(reg.sessions, reg.sessions.Keys) * 128
    ensures EstimatedBytes(reg, t1) <= EstimatedBytes(reg, t2)
  {
    OpenKBitsGrowth(reg.sessions, reg.sessions.Keys, t1, t2);
    SumPlayingBitratesNonNegative(reg.sessions, reg.sessions.Keys);
    var d := (t2 - t1) * SumPlayingBitrates(reg.sessions, reg.sessions.Keys);
    assert d >= 0;
  }

  lemma {:induction false} SumPlayingBitratesNonNegative(m: map<string, Session>, keys: set<string>)
    requires keys <= m.Keys
    requires forall k :: k in keys && m[k].state == StatePlaying ==> HasBitrate(m[k].session)
    ensures SumPlayingBitrates(m, keys) >= 0
    decreases keys
  {
    if keys != {} {
      SumPlayingBitratesNonNegative(m, keys - {Pick(keys)});
    }
  }

  // ---------------------------------------------------------------------
  // Snapshot for the metrics collector
  // ---------------------------------------------------------------------

  /** The label values both per-session metrics carry. */
  datatype SessionLabels = SessionLabels(
    serverType: string,
    serverName: string,
    serverID: string,
    libraryName: string,
    libraryID: string,
    libraryType: string,
    mediaType: string,
    title: string,
    season: string,
    episodeTitle: string,
    streamType: string,
    streamResolution: string,
    fileResolution: string,
    bitrate: nat,
    device: string,
    deviceType: string,
    user: string,
    session: string)

  /** The play-count sample (always 1) and the play-duration sample of one record. */
  datatype SessionMetrics = SessionMetrics(labels: SessionLabels, playCount: int, playSeconds: int)

  /** The record is reported: it has played at least once and its library is known. */
  predicate IsReported(ss: Session, libraries: seq<Library>)
  {
    ss.playStarted != 0 && LibraryByID(libraries, ss.media.librarySectionID).Some?
  }

  /** The stream fields the label values read unchecked are present. */
  predicate StreamKnown(ss: Session)
  {
    |ss.session.media| > 0 && |ss.session.media[0].parts| > 0 && |ss.media.media| > 0
  }

  /** A snapshot can be taken without any of the unchecked reads failing. */
  predicate CanCollect(reg: Registry, libraries: seq<Library>)
  {
    && BitratesKnown(reg)
    && forall k :: k in reg.sessions && IsReported(reg.sessions[k], libraries) ==> StreamKnown(reg.sessions[k])
  }

  /** The two samples emitted for a reported record: labelled with its session key, never below the closed play time. */
  function MetricsOf(id: string, ss: Session, library: Library, serverName: string, serverID: string, now: int): (r: SessionMetrics)
    requires StreamKnown(ss)
    ensures r.labels.session == id && r.playCount == 1
    ensures ss.playStarted <= now ==> r.playSeconds >= ss.prevPlayedTime
  {
    var labels := Labels(ss.media);
    SessionMetrics(
      SessionLabels("plex", serverName, serverID, library.name, library.id, library.libraryType,
                    ss.media.mediaType, labels.0, labels.1, labels.2,
                    ss.session.media[0].parts[0].decision,
                    ss.session.media[0].videoResolution,
                    ss.media.media[0].videoResolution,
                    ss.session.media[0].bitrate,
                    ss.session.player.device,
                    ss.session.player.product,
                    ss.session.user.title,
                    id),
      1,
      TotalPlayTime(ss.prevPlayedTime, ss.state, ss.playStarted, now))
  }

  /**
   * `metrics` is a snapshot of `reg`: one entry per record that has played and
   * whose library is found, none twice, each the samples of that record.
   */
  predicate IsSnapshot(metrics: seq<SessionMetrics>, reg: map<string, Session>, libraries: seq<Library>,
                       serverName: string, serverID: string, now: int)
  {
    && (forall i :: 0 <= i < |metrics| ==>
          var id := metrics[i].labels.session;
          && id in reg && IsReported(reg[id], libraries) && StreamKnown(reg[id])
          && metrics[i] == MetricsOf(id, reg[id], LibraryByID(libraries, reg[id].media.librarySectionID).value,
                                     serverName, serverID, now))
    && (forall id :: id in reg && IsReported(reg[id], libraries) ==>
          exists i :: 0 <= i < |metrics| && metrics[i].labels.session == id)
    && (forall i, j :: 0 <= i < j < |metrics| ==> metrics[i].labels.session != metrics[j].labels.session)
  }

  /** Every label of a record's samples, and the play time they report at `now`. */
  lemma MetricsOfLabels(id: string, ss: Session, library: Library, serverName: string, serverID: string, now: int)
    requires StreamKnown(ss)
    ensures var r := MetricsOf(id, ss, library, serverName, serverID, now);
            // the server and library the record is reported under
            && r.labels.serverType == "plex" && r.labels.serverName == serverName && r.labels.serverID == serverID
            && r.labels.libraryName == library.name && r.labels.libraryID == library.id
            && r.labels.libraryType == library.libraryType
            // the media item's type and title hierarchy
            && r.labels.mediaType == ss.media.mediaType
            && (r.labels.title, r.labels.season, r.labels.episodeTitle) == Labels(ss.media)
            // the stream as the session's first media entry describes it, the file as the item's first does
            && r.labels.streamType == ss.session.media[0].parts[0].decision
            && r.labels.streamResolution == ss.session.media[0].videoResolution
            && r.labels.fileResolution == ss.media.media[0].videoResolution
            && r.labels.bitrate == Bitrate(ss.session)
            // the player and the user
            && r.labels.device == ss.session.player.device && r.labels.deviceType == ss.session.player.product
            && r.labels.user == ss.session.user.title
            && r.playSeconds == TotalPlayTime(ss.prevPlayedTime, ss.state, ss.playStarted, now)
  {
  }

  /** The registry object; accesses are serialised by the source's mutex. */
  class Sessions {
    var sessions: map<string, Session>
    var totalKBits: int

    function Model(): Registry
      reads this
    {
      Registry(sessions, totalKBits)
    }

    ghost predicate Valid()
      reads this
    {
      WellFormed(Model())
    }

    constructor ()
      ensures Valid() && sessions == map[] && totalKBits == 0
    {
      sessions := map[];
      totalKBits := 0;
    }

    /** Applies one notification to the record of `sessionID`, creating it if missing. */
    method Update(sessionID: string, newState: SessionState, newSession: Option<Metadata>,
                  media: Option<Metadata>, now: int)
      requires Valid() && ClockAfter(Model(), now)
      requires CanUpdate(Model(), sessionID, newState, newSession)
      modifies this
      ensures Valid() && ClockAfter(Model(), now)
      ensures Model() == Apply(old(Model()), sessionID, newState, newSession, media, now)
    {
      var ss := Lookup(sessions, sessionID);
      ghost var was := ss;
      if newSession.Some? {
        ss := ss.(session := newSession.value);
      }
      if media.Some? {
        ss := ss.(media := media.value);
      }
      if ss.state == StatePlaying && newState != StatePlaying {
        ss := ss.(prevPlayedTime := ss.prevPlayedTime + (now - ss.playStarted));
        totalKBits := totalKBits + (now - ss.playStarted) * Bitrate(ss.session);
      }
      if ss.state != StatePlaying && newState == StatePlaying {
        ss := ss.(playStarted := now);
      }
      ss := ss.(state := newState, lastUpdate := now);
      assert ss == Transition(was, newState, newSession, media, now);
      sessions := sessions[sessionID := ss];
      assert Model() == Apply(old(Model()), sessionID, newState, newSession, media, now);
      ApplyKeepsInvariants(old(Model()), sessionID, newState, newSession, media, now);
    }

    /** Evicts every stopped record idle for more than the session timeout. */
    method PruneOldSessions(now: int)
      requires Valid()
      modifies this
      ensures Valid()
      ensures sessions == Pruned(old(sessions), now) && totalKBits == old(totalKBits)
    {
      var keys := sessions.Keys;
      while keys != {}
        invariant keys <= old(sessions).Keys
        invariant totalKBits == old(totalKBits)
        invariant forall k :: k in sessions <==>
                    k in old(sessions) && (k in keys || !Stale(old(sessions)[k].state, old(sessions)[k].lastUpdate, now))
        invariant forall k :: k in sessions ==> sessions[k] == old(sessions)[k]
        decreases keys
      {
        var k :| k in keys;
        var v := sessions[k];
        if v.state == StateStopped && now - v.lastUpdate > SessionTimeout {
          sessions := sessions - {k};
        }
        keys := keys - {k};
      }
    }

    /** The bytes estimated to have been sent, including the open intervals; reads only. */
    method ExtrapolatedTransmittedBytes(now: int) returns (bytes: int)
      requires BitratesKnown(Model())
      ensures bytes == EstimatedBytes(Model(), now)
    {
      var total := totalKBits;
      var keys := sessions.Keys;
      while keys != {}
        invariant keys <= sessions.Keys
        invariant total + SumOpenKBits(sessions, keys, now) == totalKBits + SumOpenKBits(sessions, sessions.Keys, now)
        decreases keys
      {
        var k :| k in keys;
        var ss := sessions[k];
        SumOpenKBitsRemove(sessions, keys, k, now);
        if ss.state == StatePlaying {
          total := total + (now - ss.playStarted) * Bitrate(ss.session);
        }
        keys := keys - {k};
      }
      bytes := total * 128;
    }

    /**
     * The snapshot: one pair of samples for every record that has played and
     * whose library is found, and the estimated bytes total.
     */
    method Collect(libraries: seq<Library>, serverName: string, serverID: string, now: int)
      returns (metrics: seq<SessionMetrics>, transmittedBytes: int)
      requires CanCollect(Model(), libraries)
      ensures forall i :: 0 <= i < |metrics| ==>
                var id := metrics[i].labels.session;
                && id in sessions && IsReported(sessions[id], libraries)
                && metrics[i] == MetricsOf(id, sessions[id], LibraryByID(libraries, sessions[id].media.librarySectionID).value,
                                           serverName, serverID, now)
      ensures forall id :: id in sessions && IsReported(sessions[id], libraries) ==>
                exists i :: 0 <= i < |metrics| && metrics[i].labels.session == id
      ensures forall i, j :: 0 <= i < j < |metrics| ==> metrics[i].labels.session != metrics[j].labels.session
      ensures transmittedBytes == EstimatedBytes(Model(), now)
    {
      metrics := [];
      var keys := sessions.Keys;
      while keys != {}
        invariant keys <= sessions.Keys
        invariant forall i :: 0 <= i < |metrics| ==>
                    var id := metrics[i].labels.session;
                    && id in sessions && id !in keys && IsReported(sessions[id], libraries)
                    && metrics[i] == MetricsOf(id, sessions[id], LibraryByID(libraries, sessions[id].media.librarySectionID).value,
                                               serverName, serverID, now)
        invariant forall id :: id in sessions && id !in keys && IsReported(sessions[id], libraries) ==>
                    exists i :: 0 <= i < |metrics| && metrics[i].labels.session == id
        invariant forall i, j :: 0 <= i < j < |metrics| ==> metrics[i].labels.session != metrics[j].labels.session
        decreases keys
      {
        var id :| id in keys;
        var ss := sessions[id];
        keys := keys - {id};
        if ss.playStarted == 0 {
          continue;
        }
        var library := LibraryByID(libraries, ss.media.librarySectionID);
        if library.None? {
          continue;
        }
        ghost var before := metrics;
        metrics := metrics + [MetricsOf(id, ss, library.value, serverName, serverID, now)];
        assert metrics[|metrics| - 1].labels.session == id;
        assert forall i :: 0 <= i < |before| ==> metrics[i] == before[i];
      }
      transmittedBytes := ExtrapolatedTransmittedBytes(now);
    }
  }
}
